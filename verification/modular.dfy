/** Facts about Euclidean `/` and `%` that the round-robin arguments need. */
module Modular {

  lemma MulAtLeast(a: int, n: int)
    requires a >= 1 && n > 0
    ensures a * n >= n
  {
  }

  /** Euclidean division is unique: `x == q * n + r` with `0 <= r < n` fixes quotient and remainder. */
  lemma DivModUnique(x: int, n: int, q: int, r: int)
    requires n > 0 && 0 <= r < n && x == q * n + r
    ensures x / n == q && x % n == r
  {
    var q', r' := x / n, x % n;
    assert x == q' * n + r';
    if q' < q {
      MulAtLeast(q - q', n);
    }
    if q < q' {
      MulAtLeast(q' - q, n);
    }
  }

  /** A positive distance is a multiple of `n` exactly when it is at least `n` and the rest is. */
  lemma ModShift(y: int, n: int)
    requires y > 0 && n > 0
    ensures y % n == 0 <==> y >= n && (y - n) % n == 0
  {
    if y < n {
      DivModUnique(y, n, 0, y);
    } else {
      DivModUnique(y - n, n, (y - n) / n, (y - n) % n);
      DivModUnique(y, n, (y - n) / n + 1, (y - n) % n);
    }
  }

  /** Stepping from any index, the first `n` offsets reach every residue below `n`. */
  lemma ModReach(base: nat, q: nat, n: nat) returns (j: nat)
    requires q < n
    ensures j < n && (base + j) % n == q
  {
    var t, r := base / n, base % n;
    assert base == t * n + r;
    if q >= r {
      j := q - r;
      DivModUnique(base + j, n, t, q);
    } else {
      j := q - r + n;
      DivModUnique(base + j, n, t + 1, q);
    }
  }
}
