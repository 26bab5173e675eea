/**
 * Sequence helpers standing in for the JavaScript array methods the planner uses:
 * `filter`, `slice(0, n)`, `flat()` and `[...new Set(xs)]`.
 */
module Seqs {

  /** No element occurs twice. */
  predicate Distinct<T(==)>(s: seq<T>) {
    forall i, j :: 0 <= i < j < |s| ==> s[i] != s[j]
  }

  /** `a` can be obtained from `b` by deleting elements: an order-preserving subset. */
  predicate SubsequenceOf<T(==)>(a: seq<T>, b: seq<T>)
    decreases |b|
  {
    if b == [] then a == []
    else (a != [] && a[0] == b[0] && SubsequenceOf(a[1..], b[1..])) || SubsequenceOf(a, b[1..])
  }

  /** Every sequence is a subsequence of itself. */
  lemma {:induction false} SubsequenceRefl<T>(s: seq<T>)
    ensures SubsequenceOf(s, s)
  {
    if s != [] {
      SubsequenceRefl(s[1..]);
    }
  }

  lemma DistinctTail<T>(s: seq<T>)
    requires s != []
    ensures Distinct(s) ==> Distinct(s[1..]) && s[0] !in s[1..]
  {
    if Distinct(s) {
      forall i, j | 0 <= i < j < |s[1..]| ensures s[1..][i] != s[1..][j] {
        assert s[1..][i] == s[i + 1] && s[1..][j] == s[j + 1];
      }
    }
  }

  /** `Array.prototype.filter`. */
  function Filter<T(!new)>(s: seq<T>, p: T -> bool): (r: seq<T>)
    ensures |r| <= |s|
    ensures forall x :: x in r <==> x in s && p(x)
    ensures forall x :: multiset(r)[x] == if p(x) then multiset(s)[x] else 0
    ensures SubsequenceOf(r, s)
    ensures Distinct(s) ==> Distinct(r)
  {
    if s == [] then []
    else
      assert s == [s[0]] + s[1..];
      var rest := Filter(s[1..], p);
      DistinctTail(s);
      if p(s[0]) then
        [s[0]] + rest
      else
        rest
  }

  /** Filtering a sequence whose every element passes returns it unchanged. */
  lemma {:induction false} FilterKeepsAll<T(!new)>(s: seq<T>, p: T -> bool)
    requires forall x :: x in s ==> p(x)
    ensures Filter(s, p) == s
  {
    if s != [] {
      FilterKeepsAll(s[1..], p);
    }
  }

  /** `slice(0, n)`: the first `n` elements, or all of them when there are fewer. */
  function Take<T>(s: seq<T>, n: nat): (r: seq<T>)
    ensures |r| == if n < |s| then n else |s|
    ensures r <= s
    ensures forall x :: x in r ==> x in s
    ensures Distinct(s) ==> Distinct(r)
    ensures multiset(r) <= multiset(s)
  {
    if n < |s| then
      assert s == s[..n] + s[n..];
      s[..n]
    else s
  }

  /** `flat()` of an array of arrays. */
  function Concat<T>(ss: seq<seq<T>>): (r: seq<T>)
  {
    if ss == [] then [] else ss[0] + Concat(ss[1..])
  }

  /**
   * `[...new Set(s)]`: the first occurrence of every element, in order of first
   * occurrence. Written from the end so that extending the input extends the output;
   * the contract below gives the elements, and the order is stated by DedupPrefix and
   * DedupSplit (deduplicating a longer input only appends elements new to it).
   */
  function Dedup<T(==,!new)>(s: seq<T>): (r: seq<T>)
    ensures Distinct(r)
    ensures forall x :: x in r <==> x in s
    ensures |r| <= |s|
  {
    if s == [] then []
    else
      var init := s[..|s| - 1];
      assert s == init + [s[|s| - 1]];
      var d := Dedup(init);
      if s[|s| - 1] in d then d else d + [s[|s| - 1]]
  }

  /** Appending elements never disturbs the deduplicated prefix: first occurrences come first. */
  lemma {:induction false} DedupPrefix<T(!new)>(a: seq<T>, b: seq<T>)
    ensures Dedup(a) <= Dedup(a + b)
    decreases |b|
  {
    if b == [] {
      assert a + b == a;
    } else {
      var b' := b[..|b| - 1];
      assert (a + b)[..|a + b| - 1] == a + b';
      DedupPrefix(a, b');
    }
  }

  /**
   * In `Dedup(a + b)` the first `|Dedup(a)|` places hold `Dedup(a)`, and every later
   * place holds an element of `b` that does not occur in `a`.
   */
  lemma DedupSplit<T(!new)>(a: seq<T>, b: seq<T>)
    ensures |Dedup(a)| <= |Dedup(a + b)|
    ensures forall i :: 0 <= i < |Dedup(a)| ==> Dedup(a + b)[i] == Dedup(a)[i]
    ensures forall i :: |Dedup(a)| <= i < |Dedup(a + b)| ==> Dedup(a + b)[i] in b && Dedup(a + b)[i] !in a
  {
    var d, e := Dedup(a), Dedup(a + b);
    DedupPrefix(a, b);
    forall i | |d| <= i < |e|
      ensures e[i] in b && e[i] !in a
    {
      assert e[i] in a + b;
      assert forall j :: 0 <= j < |d| ==> d[j] == e[j] != e[i];
      assert e[i] !in d;
    }
  }
}
