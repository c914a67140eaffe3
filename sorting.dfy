/** The stable descending sort that `Array.prototype.sort` performs with a
    comparator of the form `(a, b) => key(b) - key(a)`, and the ordering
    facts the trending lists rely on. */
module Sorting {

  predicate SortedDesc<T>(s: seq<T>, key: T -> int) {
    forall i, j :: 0 <= i < j < |s| ==> key(s[i]) >= key(s[j])
  }

  /** The elements of `s` whose key is `v`, in their order in `s`. */
  function WithKey<T>(s: seq<T>, key: T -> int, v: int): seq<T>
    decreases |s|
  {
    if s == [] then []
    else (if key(s[0]) == v then [s[0]] else []) + WithKey(s[1..], key, v)
  }

  /** Places `x` in front of the first element whose key is not larger. */
  function Insert<T(==)>(x: T, s: seq<T>, key: T -> int): (r: seq<T>)
    ensures multiset(r) == multiset(s) + multiset{x}
    decreases |s|
  {
    if s == [] || key(x) >= key(s[0]) then [x] + s
    else
      assert s == [s[0]] + s[1..];
      [s[0]] + Insert(x, s[1..], key)
  }

  /** Every key in `s` is at most `bound`. */
  predicate KeysAtMost<T>(s: seq<T>, key: T -> int, bound: int) {
    forall i :: 0 <= i < |s| ==> key(s[i]) <= bound
  }

  lemma {:induction false} InsertKeysAtMost<T>(x: T, s: seq<T>, key: T -> int, bound: int)
    requires KeysAtMost(s, key, bound) && key(x) <= bound
    ensures KeysAtMost(Insert(x, s, key), key, bound)
    decreases |s|
  {
    if s != [] && key(x) < key(s[0]) {
      InsertKeysAtMost(x, s[1..], key, bound);
    }
  }

  lemma ConsSorted<T>(h: T, t: seq<T>, key: T -> int)
    requires SortedDesc(t, key) && KeysAtMost(t, key, key(h))
    ensures SortedDesc([h] + t, key)
  {
    var r := [h] + t;
    forall i, j | 0 <= i < j < |r|
      ensures key(r[i]) >= key(r[j])
    {
      assert r[j] == t[j - 1];
      if i > 0 { assert r[i] == t[i - 1]; }
    }
  }

  lemma {:induction false} InsertSorted<T>(x: T, s: seq<T>, key: T -> int)
    requires SortedDesc(s, key)
    ensures SortedDesc(Insert(x, s, key), key)
    decreases |s|
  {
    if s != [] && key(x) < key(s[0]) {
      var tail := s[1..];
      InsertSorted(x, tail, key);
      InsertKeysAtMost(x, tail, key, key(s[0]));
      ConsSorted(s[0], Insert(x, tail, key), key);
    } else {
      ConsSorted(x, s, key);
    }
  }

  /** Stable insertion sort, highest key first. */
  function SortDesc<T(==)>(s: seq<T>, key: T -> int): (r: seq<T>)
    ensures SortedDesc(r, key)
    ensures multiset(r) == multiset(s)
    decreases |s|
  {
    if s == [] then []
    else
      var sorted := SortDesc(s[1..], key);
      assert s == [s[0]] + s[1..];
      InsertSorted(s[0], sorted, key);
      Insert(s[0], sorted, key)
  }

  lemma WithKeyCons<T>(x: T, s: seq<T>, key: T -> int, v: int)
    ensures WithKey([x] + s, key, v) == (if key(x) == v then [x] else []) + WithKey(s, key, v)
  {
    assert ([x] + s)[1..] == s;
  }

  lemma {:induction false} InsertKeepsKeyOrder<T>(x: T, s: seq<T>, key: T -> int, v: int)
    requires SortedDesc(s, key)
    ensures WithKey(Insert(x, s, key), key, v) == (if key(x) == v then [x] else []) + WithKey(s, key, v)
    decreases |s|
  {
    if s == [] || key(x) >= key(s[0]) {
      WithKeyCons(x, s, key, v);
    } else {
      var tail := s[1..];
      assert SortedDesc(tail, key);
      InsertKeepsKeyOrder(x, tail, key, v);
      WithKeyCons(s[0], Insert(x, tail, key), key, v);
      WithKeyCons(s[0], tail, key, v);
      assert s == [s[0]] + tail;
    }
  }

  /** Stability: for every key value, the elements carrying it keep their
      relative order, so ties stay in input order. */
  lemma {:induction false} SortDescIsStable<T>(s: seq<T>, key: T -> int, v: int)
    ensures WithKey(SortDesc(s, key), key, v) == WithKey(s, key, v)
    decreases |s|
  {
    if s != [] {
      SortDescIsStable(s[1..], key, v);
      InsertKeepsKeyOrder(s[0], SortDesc(s[1..], key), key, v);
    }
  }

  /** A prefix of a descending list holds the largest keys: nothing left out
      outranks anything kept. */
  lemma PrefixHoldsLargest<T>(s: seq<T>, key: T -> int, k: nat)
    requires SortedDesc(s, key)
    requires k <= |s|
    ensures multiset(s) == multiset(s[..k]) + multiset(s[k..])
    ensures forall x, y :: x in multiset(s[k..]) && y in multiset(s[..k]) ==> key(x) <= key(y)
  {
    assert s == s[..k] + s[k..];
    forall x, y | x in multiset(s[k..]) && y in multiset(s[..k])
      ensures key(x) <= key(y)
    {
      var i :| 0 <= i < |s[k..]| && s[k..][i] == x;
      var j :| 0 <= j < |s[..k]| && s[..k][j] == y;
      assert s[j] == y && s[k + i] == x;
    }
  }
}
