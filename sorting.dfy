/** Python's stable `sorted(xs, key=...)` on integer keys. */
module Sorting {

  predicate SortedBy<T>(s: seq<T>, key: T -> int) {
    forall i, j :: 0 <= i < j < |s| ==> key(s[i]) <= key(s[j])
  }

  /** Places `x` after every element whose key is at most its own. */
  function Insert<T>(x: T, t: seq<T>, key: T -> int): (r: seq<T>)
    ensures |r| == |t| + 1
  {
    if t == [] then [x]
    else if key(t[0]) > key(x) then [x] + t
    else [t[0]] + Insert(x, t[1..], key)
  }

  lemma {:induction false} InsertMultiset<T>(x: T, t: seq<T>, key: T -> int)
    ensures multiset(Insert(x, t, key)) == multiset(t) + multiset{x}
  {
    if t != [] && key(t[0]) <= key(x) {
      InsertMultiset(x, t[1..], key);
      assert t == [t[0]] + t[1..];
    }
  }

  lemma {:induction false} InsertLowerBound<T>(x: T, t: seq<T>, key: T -> int, b: int)
    requires key(x) >= b && forall i :: 0 <= i < |t| ==> key(t[i]) >= b
    ensures forall i :: 0 <= i < |t| + 1 ==> key(Insert(x, t, key)[i]) >= b
  {
    if t != [] && key(t[0]) <= key(x) {
      InsertLowerBound(x, t[1..], key, b);
    }
  }

  lemma {:induction false} InsertSorted<T>(x: T, t: seq<T>, key: T -> int)
    requires SortedBy(t, key)
    ensures SortedBy(Insert(x, t, key), key)
  {
    if t != [] && key(t[0]) <= key(x) {
      assert SortedBy(t[1..], key);
      InsertSorted(x, t[1..], key);
      InsertLowerBound(x, t[1..], key, key(t[0]));
    }
  }

  /** `sorted(s, key=key)`: elements are taken in order, each placed after the
      equal-keyed ones placed before it, which is what makes the sort stable. */
  function SortBy<T>(s: seq<T>, key: T -> int): (r: seq<T>)
    ensures multiset(r) == multiset(s)
    ensures |r| == |s|
    ensures SortedBy(r, key)
  {
    if s == [] then []
    else
      var init, last := s[..|s| - 1], s[|s| - 1];
      assert s == init + [last];
      var sortedInit := SortBy(init, key);
      InsertMultiset(last, sortedInit, key);
      InsertSorted(last, sortedInit, key);
      Insert(last, sortedInit, key)
  }

  /** The elements whose key equals `k`, in order. */
  function WithKey<T>(s: seq<T>, key: T -> int, k: int): seq<T> {
    if s == [] then [] else (if key(s[0]) == k then [s[0]] else []) + WithKey(s[1..], key, k)
  }

  lemma {:induction false} WithKeyConcat<T>(a: seq<T>, b: seq<T>, key: T -> int, k: int)
    ensures WithKey(a + b, key, k) == WithKey(a, key, k) + WithKey(b, key, k)
  {
    if a == [] {
      assert a + b == b;
    } else {
      var t := a[1..];
      var head := if key(a[0]) == k then [a[0]] else [];
      WithKeyConcat(t, b, key, k);
      assert (a + b)[0] == a[0];
      assert (a + b)[1..] == t + b;
      assert WithKey(a + b, key, k) == head + WithKey(t + b, key, k);
      assert WithKey(a, key, k) == head + WithKey(t, key, k);
      assert head + (WithKey(t, key, k) + WithKey(b, key, k)) == (head + WithKey(t, key, k)) + WithKey(b, key, k);
    }
  }

  lemma {:induction false} WithKeyNone<T>(s: seq<T>, key: T -> int, k: int)
    requires forall i :: 0 <= i < |s| ==> key(s[i]) != k
    ensures WithKey(s, key, k) == []
  {
    if s != [] {
      WithKeyNone(s[1..], key, k);
    }
  }

  lemma {:induction false} InsertStable<T>(x: T, t: seq<T>, key: T -> int, k: int)
    requires SortedBy(t, key)
    ensures WithKey(Insert(x, t, key), key, k) == WithKey(t, key, k) + (if key(x) == k then [x] else [])
  {
    if t == [] {
      assert WithKey([x], key, k) == (if key(x) == k then [x] else []) + WithKey([], key, k);
    } else if key(t[0]) > key(x) {
      assert forall i :: 0 <= i < |t| ==> key(t[i]) > key(x);
      InsertFrontStable(x, t, key, k);
    } else {
      assert SortedBy(t[1..], key);
      InsertStable(x, t[1..], key, k);
      InsertSkipStable(x, t, key, k);
    }
  }

  lemma InsertFrontStable<T>(x: T, t: seq<T>, key: T -> int, k: int)
    requires t != [] && forall i :: 0 <= i < |t| ==> key(t[i]) > key(x)
    ensures Insert(x, t, key) == [x] + t
    ensures WithKey([x] + t, key, k) == WithKey(t, key, k) + (if key(x) == k then [x] else [])
  {
    assert ([x] + t)[1..] == t;
    if key(x) == k {
      WithKeyNone(t, key, k);
    }
  }

  lemma InsertSkipStable<T>(x: T, t: seq<T>, key: T -> int, k: int)
    requires t != [] && key(t[0]) <= key(x)
    requires WithKey(Insert(x, t[1..], key), key, k) == WithKey(t[1..], key, k) + (if key(x) == k then [x] else [])
    ensures WithKey(Insert(x, t, key), key, k) == WithKey(t, key, k) + (if key(x) == k then [x] else [])
  {
    var rest := Insert(x, t[1..], key);
    assert Insert(x, t, key) == [t[0]] + rest;
    assert ([t[0]] + rest)[1..] == rest;
  }

  /** Stability: among elements with equal keys the input order is kept. */
  lemma {:induction false} SortByStable<T>(s: seq<T>, key: T -> int, k: int)
    ensures WithKey(SortBy(s, key), key, k) == WithKey(s, key, k)
  {
    if s != [] {
      var init, last := s[..|s| - 1], s[|s| - 1];
      SortByStable(init, key, k);
      assert s == init + [last];
      StableStep(init, last, SortBy(init, key), key, k);
    }
  }

  lemma StableStep<T>(init: seq<T>, last: T, sortedInit: seq<T>, key: T -> int, k: int)
    requires SortedBy(sortedInit, key) && WithKey(sortedInit, key, k) == WithKey(init, key, k)
    ensures WithKey(Insert(last, sortedInit, key), key, k) == WithKey(init + [last], key, k)
  {
    InsertStable(last, sortedInit, key, k);
    WithKeyConcat(init, [last], key, k);
    WithKeySingle(last, key, k);
  }

  lemma WithKeySingle<T>(x: T, key: T -> int, k: int)
    ensures WithKey([x], key, k) == (if key(x) == k then [x] else [])
  {
    assert [x][1..] == [];
  }

  /** Sorting a sequence whose keys are already in order changes nothing. */
  lemma {:induction false} SortBySorted<T>(s: seq<T>, key: T -> int)
    requires SortedBy(s, key)
    ensures SortBy(s, key) == s
  {
    if s != [] {
      var init, last := s[..|s| - 1], s[|s| - 1];
      assert SortedBy(init, key);
      SortBySorted(init, key);
      InsertAtEnd(last, init, key);
      assert init + [last] == s;
    }
  }

  lemma {:induction false} InsertAtEnd<T>(x: T, t: seq<T>, key: T -> int)
    requires forall i :: 0 <= i < |t| ==> key(t[i]) <= key(x)
    ensures Insert(x, t, key) == t + [x]
  {
    if t != [] {
      InsertAtEnd(x, t[1..], key);
      assert t == [t[0]] + t[1..];
    }
  }
}
