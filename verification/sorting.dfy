/**
 * Stable sorting by an integer key, as `Array.prototype.sort` does (stable since
 * ECMAScript 2019). A stable sort is characterised without reference to the algorithm:
 * the output is ordered by key, and for every key value the elements carrying that key
 * appear in the same order as in the input.
 */
module Sorting {

  /** Keys never decrease along `s`. */
  predicate SortedBy<T>(s: seq<T>, key: T -> int) {
    forall i, j :: 0 <= i < j < |s| ==> key(s[i]) <= key(s[j])
  }

  /** The elements of `s` whose key is `k`, in their order in `s`. */
  function WithKey<T>(s: seq<T>, key: T -> int, k: int): seq<T> {
    if s == [] then []
    else (if key(s[0]) == k then [s[0]] else []) + WithKey(s[1..], key, k)
  }

  lemma {:induction false} WithKeyAppend<T>(a: seq<T>, b: seq<T>, key: T -> int, k: int)
    ensures WithKey(a + b, key, k) == WithKey(a, key, k) + WithKey(b, key, k)
  {
    if a == [] {
      assert a + b == b;
    } else {
      var head := if key(a[0]) == k then [a[0]] else [];
      assert (a + b)[0] == a[0];
      assert (a + b)[1..] == a[1..] + b;
      assert WithKey(a + b, key, k) == head + WithKey(a[1..] + b, key, k);
      WithKeyAppend(a[1..], b, key, k);
      assert WithKey(a, key, k) == head + WithKey(a[1..], key, k);
    }
  }

  /** `x` occurs in `s` somewhere before an occurrence of `y`. */
  ghost predicate Before<T>(s: seq<T>, x: T, y: T) {
    exists i, j :: 0 <= i < j < |s| && s[i] == x && s[j] == y
  }

  /** An order between two elements of the tail is an order in the whole sequence. */
  lemma BeforeCons<T>(h: T, t: seq<T>, x: T, y: T)
    requires Before(t, x, y)
    ensures Before([h] + t, x, y)
  {
    var i, j :| 0 <= i < j < |t| && t[i] == x && t[j] == y;
    assert ([h] + t)[i + 1] == x && ([h] + t)[j + 1] == y;
  }

  /** The head comes before every element of the tail. */
  lemma HeadBefore<T>(h: T, t: seq<T>, y: T)
    requires y in t
    ensures Before([h] + t, h, y)
  {
    var j :| 0 <= j < |t| && t[j] == y;
    assert ([h] + t)[0] == h && ([h] + t)[j + 1] == y;
  }

  /** The elements picked out for key `k` are exactly the elements with that key. */
  lemma {:induction false} WithKeyMembers<T>(s: seq<T>, key: T -> int, k: int, x: T)
    ensures x in WithKey(s, key, k) <==> x in s && key(x) == k
  {
    if s != [] {
      WithKeyMembers(s[1..], key, k, x);
      assert x in s <==> x == s[0] || x in s[1..];
    }
  }

  /** Two elements with key `k` keep their relative order in the elements picked out for `k`. */
  lemma {:induction false} BeforeKeepsInKey<T>(s: seq<T>, key: T -> int, k: int, x: T, y: T)
    requires Before(s, x, y) && key(x) == k && key(y) == k
    ensures Before(WithKey(s, key, k), x, y)
  {
    var i, j :| 0 <= i < j < |s| && s[i] == x && s[j] == y;
    var h, t := s[0], s[1..];
    assert s == [h] + t;
    var head := if key(h) == k then [h] else [];
    assert WithKey(s, key, k) == head + WithKey(t, key, k);
    if i == 0 {
      assert y in t by { assert t[j - 1] == y; }
      WithKeyMembers(t, key, k, y);
      HeadBefore(h, WithKey(t, key, k), y);
    } else {
      assert Before(t, x, y) by { assert t[i - 1] == x && t[j - 1] == y; }
      BeforeKeepsInKey(t, key, k, x, y);
      if key(h) == k {
        BeforeCons(h, WithKey(t, key, k), x, y);
      } else {
        assert WithKey(s, key, k) == WithKey(t, key, k);
      }
    }
  }

  /** An order among the elements picked out for a key is an order in the whole sequence. */
  lemma {:induction false} BeforeFromKey<T>(s: seq<T>, key: T -> int, k: int, x: T, y: T)
    requires Before(WithKey(s, key, k), x, y)
    ensures Before(s, x, y)
  {
    var h, t := s[0], s[1..];
    assert s == [h] + t;
    var w := WithKey(t, key, k);
    if key(h) == k {
      assert WithKey(s, key, k) == [h] + w;
      var i, j :| 0 <= i < j < |[h] + w| && ([h] + w)[i] == x && ([h] + w)[j] == y;
      if i == 0 {
        assert y in w by { assert w[j - 1] == y; }
        WithKeyMembers(t, key, k, y);
        HeadBefore(h, t, y);
      } else {
        assert Before(w, x, y) by { assert w[i - 1] == x && w[j - 1] == y; }
        BeforeFromKey(t, key, k, x, y);
        BeforeCons(h, t, x, y);
      }
    } else {
      assert WithKey(s, key, k) == [] + w == w;
      BeforeFromKey(t, key, k, x, y);
      BeforeCons(h, t, x, y);
    }
  }

  /** A stable sort keeps two elements with the same key in their input order. */
  lemma SortByStable<T>(s: seq<T>, key: T -> int, x: T, y: T)
    requires Before(SortBy(s, key), x, y) && key(x) == key(y)
    ensures Before(s, x, y)
  {
    BeforeKeepsInKey(SortBy(s, key), key, key(x), x, y);
    BeforeFromKey(s, key, key(x), x, y);
  }

  lemma {:induction false} WithKeyAbsent<T>(s: seq<T>, key: T -> int, k: int)
    requires forall i :: 0 <= i < |s| ==> key(s[i]) != k
    ensures WithKey(s, key, k) == []
  {
    if s != [] {
      WithKeyAbsent(s[1..], key, k);
    }
  }

  /** Places `x` after every element whose key is not greater than its own. */
  function Insert<T>(s: seq<T>, x: T, key: T -> int): (r: seq<T>)
    ensures |r| == |s| + 1
    ensures multiset(r) == multiset(s) + multiset{x}
    ensures forall y :: y in r ==> y == x || y in s
  {
    if s == [] then [x]
    else if key(x) < key(s[0]) then [x] + s
    else
      assert s == [s[0]] + s[1..];
      [s[0]] + Insert(s[1..], x, key)
  }

  lemma {:induction false} InsertSorted<T>(s: seq<T>, x: T, key: T -> int)
    requires SortedBy(s, key)
    ensures SortedBy(Insert(s, x, key), key)
  {
    if s == [] {
    } else if key(x) < key(s[0]) {
      var r := [x] + s;
      forall i, j | 0 <= i < j < |r| ensures key(r[i]) <= key(r[j]) {
        assert r[j] == s[j - 1];
        if i > 0 {
          assert r[i] == s[i - 1];
        } else {
          assert key(s[0]) <= key(s[j - 1]);
        }
      }
    } else {
      var tail := Insert(s[1..], x, key);
      InsertSorted(s[1..], x, key);
      var r := [s[0]] + tail;
      forall i, j | 0 <= i < j < |r| ensures key(r[i]) <= key(r[j]) {
        assert r[j] == tail[j - 1];
        if i > 0 {
          assert r[i] == tail[i - 1];
        } else {
          assert r[j] in tail;
          if r[j] != x {
            var m :| 0 <= m < |s[1..]| && s[1..][m] == r[j];
            assert s[m + 1] == r[j];
          }
        }
      }
      assert Insert(s, x, key) == r;
    }
  }

  /** An element inserted in front of a sorted sequence is the only one there with its key, if any. */
  lemma InsertInFront<T>(s: seq<T>, x: T, key: T -> int, k: int)
    requires SortedBy(s, key) && s != [] && key(x) < key(s[0])
    ensures WithKey([x] + s, key, k) == WithKey(s, key, k) + (if key(x) == k then [x] else [])
  {
    var r := [x] + s;
    assert r[0] == x && r[1..] == s;
    if key(x) == k {
      WithKeyAbsent(s, key, k);
    }
  }

  /** Inserting behind the head keeps the head's entry in front of the tail's. */
  lemma InsertBehind<T>(s: seq<T>, x: T, key: T -> int, k: int)
    requires s != [] && key(x) >= key(s[0])
    requires WithKey(Insert(s[1..], x, key), key, k) == WithKey(s[1..], key, k) + (if key(x) == k then [x] else [])
    ensures WithKey(Insert(s, x, key), key, k) == WithKey(s, key, k) + (if key(x) == k then [x] else [])
  {
    var hit: seq<T> := if key(x) == k then [x] else [];
    var tail := Insert(s[1..], x, key);
    assert Insert(s, x, key) == [s[0]] + tail;
    assert s == [s[0]] + s[1..];
    WithKeyAppend([s[0]], tail, key, k);
    WithKeyAppend([s[0]], s[1..], key, k);
    var head := WithKey([s[0]], key, k);
    assert WithKey(Insert(s, x, key), key, k) == head + WithKey(tail, key, k);
    assert WithKey(s, key, k) == head + WithKey(s[1..], key, k);
    ConcatAssoc(head, WithKey(s[1..], key, k), hit);
  }

  lemma ConcatAssoc<T>(a: seq<T>, b: seq<T>, c: seq<T>)
    ensures a + (b + c) == (a + b) + c
  {
  }

  lemma {:induction false} InsertWithKey<T>(s: seq<T>, x: T, key: T -> int, k: int)
    requires SortedBy(s, key)
    ensures WithKey(Insert(s, x, key), key, k) == WithKey(s, key, k) + (if key(x) == k then [x] else [])
  {
    if s == [] {
      var hit: seq<T> := if key(x) == k then [x] else [];
      assert WithKey([x], key, k) == hit + WithKey([], key, k);
    } else if key(x) < key(s[0]) {
      InsertInFront(s, x, key, k);
    } else {
      InsertWithKey(s[1..], x, key, k);
      InsertBehind(s, x, key, k);
    }
  }

  /** Stable insertion sort, ascending by `key`. */
  function SortBy<T>(s: seq<T>, key: T -> int): (r: seq<T>)
    ensures |r| == |s|
    ensures SortedBy(r, key)
    ensures multiset(r) == multiset(s)
    ensures forall k :: WithKey(r, key, k) == WithKey(s, key, k)
  {
    if s == [] then []
    else
      var init, last := s[..|s| - 1], s[|s| - 1];
      assert s == init + [last];
      var sorted := SortBy(init, key);
      InsertStep(init, sorted, last, key);
      Insert(sorted, last, key)
  }

  /** Inserting the last element into a stable sort of the others gives a stable sort of all. */
  lemma InsertStep<T>(init: seq<T>, sorted: seq<T>, last: T, key: T -> int)
    requires SortedBy(sorted, key) && multiset(sorted) == multiset(init)
    requires forall k :: WithKey(sorted, key, k) == WithKey(init, key, k)
    ensures var r := Insert(sorted, last, key);
      && SortedBy(r, key)
      && multiset(r) == multiset(init + [last])
      && forall k :: WithKey(r, key, k) == WithKey(init + [last], key, k)
  {
    InsertSorted(sorted, last, key);
    forall k ensures WithKey(Insert(sorted, last, key), key, k) == WithKey(init + [last], key, k) {
      InsertWithKey(sorted, last, key, k);
      WithKeyAppend(init, [last], key, k);
      assert WithKey([last], key, k) == if key(last) == k then [last] else [];
    }
  }

  lemma {:induction false} WithKeyAll<T>(s: seq<T>, key: T -> int, k: int)
    requires forall i :: 0 <= i < |s| ==> key(s[i]) == k
    ensures WithKey(s, key, k) == s
  {
    if s != [] {
      WithKeyAll(s[1..], key, k);
      assert s == [s[0]] + s[1..];
    }
  }

  /** Elements that all share one key keep their order: the sort is stable. */
  lemma SortByEqualKeys<T>(s: seq<T>, key: T -> int, k: int)
    requires forall i :: 0 <= i < |s| ==> key(s[i]) == k
    ensures SortBy(s, key) == s
  {
    var r := SortBy(s, key);
    forall i | 0 <= i < |r| ensures key(r[i]) == k {
      assert r[i] in multiset(s);
      var j :| 0 <= j < |s| && s[j] == r[i];
    }
    WithKeyAll(s, key, k);
    WithKeyAll(r, key, k);
  }
}
