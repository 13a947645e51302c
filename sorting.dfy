/**
  `Array.prototype.sort` with a comparator `(a, b) => key(a) - key(b)`.
  The language standard requires that sort to be stable (section 22.1.3.27
  of ECMA-262, 10th edition); the reference definition here is a stable
  insertion sort, and the lemmas state what any stable sort by `key`
  delivers: the result is ordered, is a permutation of the input, and keeps
  the input order among elements with equal keys.
 */
module Sorting {
  /** Non-decreasing by `key`. */
  ghost predicate SortedBy<T>(s: seq<T>, key: T -> int)
  {
    forall i, j :: 0 <= i < j < |s| ==> key(s[i]) <= key(s[j])
  }

  /** Inserts `x` in front of the first element whose key is not below its
      own, so `x` lands before every element with an equal key. */
  function InsertBy<T>(x: T, s: seq<T>, key: T -> int): (r: seq<T>)
    ensures multiset(r) == multiset(s) + multiset{x}
    ensures |r| == |s| + 1
  {
    if s == [] || key(x) <= key(s[0]) then [x] + s
    else
      assert s == [s[0]] + s[1..];
      [s[0]] + InsertBy(x, s[1..], key)
  }

  /** The sorted sequence: each element, taken from the back, is inserted
      into the already sorted rest. */
  function SortBy<T>(s: seq<T>, key: T -> int): (r: seq<T>)
    ensures multiset(r) == multiset(s)
    ensures |r| == |s|
  {
    if s == [] then []
    else
      assert s == [s[0]] + s[1..];
      InsertBy(s[0], SortBy(s[1..], key), key)
  }

  /** The elements of `s` whose key is `k`, in the order of `s`. */
  function WithKey<T>(s: seq<T>, key: T -> int, k: int): seq<T>
  {
    if s == [] then []
    else (if key(s[0]) == k then [s[0]] else []) + WithKey(s[1..], key, k)
  }

  lemma {:induction false} InsertKeepsSorted<T>(x: T, s: seq<T>, key: T -> int)
    requires SortedBy(s, key)
    ensures SortedBy(InsertBy(x, s, key), key)
  {
    if s != [] && key(x) > key(s[0]) {
      InsertKeepsSorted(x, s[1..], key);
      var t := InsertBy(x, s[1..], key);
      var r := [s[0]] + t;
      forall j | 0 < j < |r| ensures key(r[0]) <= key(r[j]) {
        assert r[j] in multiset(t);
        assert r[j] in multiset(s[1..]) + multiset{x};
        if r[j] != x {
          assert r[j] in s[1..];
        }
      }
    }
  }

  /** The result of the sort is ordered by key. */
  lemma {:induction false} SortBySorted<T>(s: seq<T>, key: T -> int)
    ensures SortedBy(SortBy(s, key), key)
  {
    if s != [] {
      SortBySorted(s[1..], key);
      InsertKeepsSorted(s[0], SortBy(s[1..], key), key);
    }
  }

  lemma {:induction false} WithKeyAppend<T>(a: seq<T>, b: seq<T>, key: T -> int, k: int)
    ensures WithKey(a + b, key, k) == WithKey(a, key, k) + WithKey(b, key, k)
  {
    if a != [] {
      assert (a + b)[1..] == a[1..] + b;
      WithKeyAppend(a[1..], b, key, k);
    } else {
      assert a + b == b;
    }
  }

  lemma {:induction false} WithKeyInsert<T>(x: T, s: seq<T>, key: T -> int, k: int)
    requires SortedBy(s, key)
    ensures WithKey(InsertBy(x, s, key), key, k) == WithKey([x] + s, key, k)
  {
    if s != [] && key(x) > key(s[0]) {
      WithKeyInsert(x, s[1..], key, k);
      WithKeyAppend([s[0]], InsertBy(x, s[1..], key), key, k);
      WithKeyAppend([x], s[1..], key, k);
      WithKeyAppend([s[0]], s[1..], key, k);
      WithKeyAppend([x], s, key, k);
      assert [s[0]] + s[1..] == s;
      assert ([x] + s)[1..] == s;
      assert ([x] + s[1..])[1..] == s[1..];
    }
  }

  /** Stability: among the elements with any one key, the sort keeps the
      input order. */
  lemma {:induction false} SortByStable<T>(s: seq<T>, key: T -> int, k: int)
    ensures WithKey(SortBy(s, key), key, k) == WithKey(s, key, k)
  {
    if s != [] {
      SortByStable(s[1..], key, k);
      SortBySorted(s[1..], key);
      WithKeyInsert(s[0], SortBy(s[1..], key), key, k);
      WithKeyAppend([s[0]], SortBy(s[1..], key), key, k);
      WithKeyAppend([s[0]], s[1..], key, k);
      assert [s[0]] + s[1..] == s;
    }
  }

  /** An element whose key is not above any other's stays in front: this is
      where stability matters when its key ties with later elements. */
  lemma {:induction false} SortKeepsLeastFirst<T>(s: seq<T>, key: T -> int)
    requires s != []
    requires forall i :: 0 <= i < |s| ==> key(s[0]) <= key(s[i])
    ensures SortBy(s, key) == [s[0]] + SortBy(s[1..], key)
  {
    var t := SortBy(s[1..], key);
    if t != [] {
      assert t[0] in multiset(s[1..]);
      assert t[0] in s[1..];
    }
  }

  /** A least element followed by an ordered rest is in order. */
  lemma SortedCons<T>(s: seq<T>, key: T -> int)
    requires s != [] && SortedBy(s[1..], key)
    requires forall i :: 0 <= i < |s| ==> key(s[0]) <= key(s[i])
    ensures SortedBy(s, key)
  {
    forall i, j | 0 <= i < j < |s| ensures key(s[i]) <= key(s[j]) {
      if i > 0 {
        assert s[i] == s[1..][i - 1] && s[j] == s[1..][j - 1];
      }
    }
  }

  /** A sequence already in order is left as it is. */
  lemma {:induction false} SortBySortedIsIdentity<T>(s: seq<T>, key: T -> int)
    requires SortedBy(s, key)
    ensures SortBy(s, key) == s
  {
    if s != [] {
      assert SortedBy(s[1..], key);
      SortBySortedIsIdentity(s[1..], key);
      assert [s[0]] + s[1..] == s;
    }
  }
}
