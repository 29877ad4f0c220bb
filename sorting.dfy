/** A stable sort by a real-valued key, the behaviour of
    Array.prototype.sort with a numeric comparator. It is used for the
    search ranking, the proximity list and the priority utterance queue. */
module Sorting {

  /** The first `n` elements, or all of them when there are fewer. */
  function Take<T>(s: seq<T>, n: nat): (r: seq<T>)
    ensures |r| == if |s| < n then |s| else n
    ensures r == s[..|r|]
  {
    if |s| <= n then s else s[..n]
  }

  predicate SortedBy<T>(s: seq<T>, key: T -> real) {
    forall i, j :: 0 <= i < j < |s| ==> key(s[i]) <= key(s[j])
  }

  /** The elements whose key is `v`, in their original order. */
  function WithKey<T>(s: seq<T>, key: T -> real, v: real): seq<T> {
    if s == [] then []
    else (if key(s[0]) == v then [s[0]] else []) + WithKey(s[1..], key, v)
  }

  /** Inserts `x` before the first element whose key is not smaller. */
  function InsertByKey<T>(x: T, r: seq<T>, key: T -> real): (t: seq<T>)
    ensures |t| == |r| + 1
    ensures multiset(t) == multiset(r) + multiset{x}
    ensures t[0] == x || (r != [] && t[0] == r[0])
  {
    if r == [] || key(x) <= key(r[0]) then [x] + r
    else
      assert r == [r[0]] + r[1..];
      [r[0]] + InsertByKey(x, r[1..], key)
  }

  function SortByKey<T>(s: seq<T>, key: T -> real): (t: seq<T>)
    ensures |t| == |s|
    ensures multiset(t) == multiset(s)
  {
    if s == [] then []
    else
      assert s == [s[0]] + s[1..];
      InsertByKey(s[0], SortByKey(s[1..], key), key)
  }

  lemma {:induction false} InsertLowerBound<T>(x: T, r: seq<T>, key: T -> real, b: real)
    requires key(x) >= b && forall i :: 0 <= i < |r| ==> key(r[i]) >= b
    ensures forall i :: 0 <= i < |r| + 1 ==> key(InsertByKey(x, r, key)[i]) >= b
    decreases |r|
  {
    if r != [] && key(x) > key(r[0]) {
      InsertLowerBound(x, r[1..], key, b);
    }
  }

  lemma {:induction false} InsertSorted<T>(x: T, r: seq<T>, key: T -> real)
    requires SortedBy(r, key)
    ensures SortedBy(InsertByKey(x, r, key), key)
    decreases |r|
  {
    if r != [] && key(x) > key(r[0]) {
      InsertSorted(x, r[1..], key);
      InsertLowerBound(x, r[1..], key, key(r[0]));
    }
  }

  /** The result is ordered by key. */
  lemma {:induction false} SortByKeySorted<T>(s: seq<T>, key: T -> real)
    ensures SortedBy(SortByKey(s, key), key)
  {
    if s != [] {
      SortByKeySorted(s[1..], key);
      InsertSorted(s[0], SortByKey(s[1..], key), key);
    }
  }

  lemma WithKeyCons<T>(x: T, r: seq<T>, key: T -> real, v: real)
    ensures WithKey([x] + r, key, v) == (if key(x) == v then [x] else []) + WithKey(r, key, v)
  {
    assert ([x] + r)[1..] == r;
  }

  lemma {:induction false} InsertStable<T>(x: T, r: seq<T>, key: T -> real, v: real)
    ensures WithKey(InsertByKey(x, r, key), key, v) == WithKey([x] + r, key, v)
    decreases |r|
  {
    if r == [] || key(x) <= key(r[0]) {
    } else {
      InsertStable(x, r[1..], key, v);
      assert r == [r[0]] + r[1..];
      WithKeyCons(r[0], InsertByKey(x, r[1..], key), key, v);
      WithKeyCons(x, r[1..], key, v);
      WithKeyCons(x, r, key, v);
      WithKeyCons(r[0], r[1..], key, v);
    }
  }

  /** Stability: elements with equal keys keep their relative order. */
  lemma {:induction false} SortByKeyStable<T>(s: seq<T>, key: T -> real, v: real)
    ensures WithKey(SortByKey(s, key), key, v) == WithKey(s, key, v)
  {
    if s != [] {
      SortByKeyStable(s[1..], key, v);
      InsertStable(s[0], SortByKey(s[1..], key), key, v);
      WithKeyCons(s[0], SortByKey(s[1..], key), key, v);
      WithKeyCons(s[0], s[1..], key, v);
      assert s == [s[0]] + s[1..];
    }
  }

  /** Appending puts the new element last among those with its key. */
  lemma {:induction false} WithKeyAppend<T>(s: seq<T>, x: T, key: T -> real, v: real)
    ensures WithKey(s + [x], key, v) == WithKey(s, key, v) + (if key(x) == v then [x] else [])
  {
    if s == [] {
      assert [] + [x] == [x];
      WithKeyCons(x, [], key, v);
    } else {
      WithKeyAppend(s[1..], x, key, v);
      assert s + [x] == [s[0]] + (s[1..] + [x]);
      WithKeyCons(s[0], s[1..] + [x], key, v);
      assert s == [s[0]] + s[1..];
      WithKeyCons(s[0], s[1..], key, v);
    }
  }

  /** Nothing in `s` beyond (as a multiset) the elements of `top` has a
      smaller key than an element of `top`. */
  ghost predicate LeftOutNotSmaller<T>(top: seq<T>, s: seq<T>, key: T -> real) {
    forall i, x :: 0 <= i < |top| && x in multiset(s) - multiset(top) ==> key(top[i]) <= key(x)
  }

  /** The `n` elements with the smallest keys, in key order (the stable
      sort followed by `slice(0, n)`): drawn from the input without
      repeats, and nothing left out has a smaller key than anything kept;
      with at most `n` elements, all of them. */
  function Best<T>(s: seq<T>, key: T -> real, n: nat): (top: seq<T>)
    ensures |top| == if |s| < n then |s| else n
    ensures forall i :: 0 <= i < |top| ==> top[i] in s
    ensures SortedBy(top, key)
    ensures multiset(top) <= multiset(s)
    ensures LeftOutNotSmaller(top, s, key)
    ensures |s| <= n ==> multiset(top) == multiset(s)
  {
    var sorted := SortByKey(s, key);
    SortByKeySorted(s, key);
    var top := Take(sorted, n);
    TakeLeavesLarger(s, sorted, top, key);
    top
  }

  /** Splitting a sorted sequence after a prefix: what is not kept has no
      smaller key than anything kept. */
  lemma TakeLeavesLarger<T>(s: seq<T>, sorted: seq<T>, top: seq<T>, key: T -> real)
    requires SortedBy(sorted, key) && multiset(sorted) == multiset(s)
    requires |top| <= |sorted| && top == sorted[..|top|]
    ensures forall i :: 0 <= i < |top| ==> top[i] in s
    ensures SortedBy(top, key)
    ensures multiset(top) <= multiset(s)
    ensures LeftOutNotSmaller(top, s, key)
  {
    var rest := sorted[|top|..];
    assert sorted == top + rest;
    assert multiset(sorted) == multiset(top) + multiset(rest);
    forall i, x | 0 <= i < |top| && x in multiset(s) - multiset(top) ensures key(top[i]) <= key(x) {
      assert x in multiset(rest);
      var j :| 0 <= j < |rest| && rest[j] == x;
      assert top[i] == sorted[i] && x == sorted[|top| + j];
    }
    forall i | 0 <= i < |top| ensures top[i] in s {
      assert top[i] in multiset(top);
    }
  }

  lemma {:induction false} WithKeyConcat<T>(a: seq<T>, b: seq<T>, key: T -> real, v: real)
    ensures WithKey(a + b, key, v) == WithKey(a, key, v) + WithKey(b, key, v)
  {
    if a == [] {
      assert a + b == b;
    } else {
      WithKeyConcat(a[1..], b, key, v);
      assert a + b == [a[0]] + (a[1..] + b);
      WithKeyCons(a[0], a[1..] + b, key, v);
      assert a == [a[0]] + a[1..];
      WithKeyCons(a[0], a[1..], key, v);
    }
  }

  /** Ties keep their order: among the `n` best, those with key `v` are
      the first of the input's elements with that key, in input order. */
  lemma BestStable<T>(s: seq<T>, key: T -> real, n: nat, v: real)
    ensures |WithKey(Best(s, key, n), key, v)| <= |WithKey(s, key, v)|
    ensures WithKey(Best(s, key, n), key, v) == WithKey(s, key, v)[..|WithKey(Best(s, key, n), key, v)|]
  {
    var sorted := SortByKey(s, key);
    var top := Best(s, key, n);
    assert top == Take(sorted, n);
    assert sorted == top + sorted[|top|..];
    WithKeyConcat(top, sorted[|top|..], key, v);
    SortByKeyStable(s, key, v);
  }
}
