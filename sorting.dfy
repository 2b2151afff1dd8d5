/**
 * The copy-and-sort step the dashboard charts share: `[...xs].sort((a, b) => key(a) - key(b))`.
 * `Array.prototype.sort` is stable, so the model is a stable insertion sort on
 * sequences, ordering by a numeric key; a descending sort uses the negated key.
 */
module Sorting {

  /** `s` is in non-decreasing order of `key`. */
  predicate SortedBy<T>(s: seq<T>, key: T -> real) {
    forall i, j :: 0 <= i < j < |s| ==> key(s[i]) <= key(s[j])
  }

  /** Inserts `x` ahead of the first element whose key is not smaller. */
  function Insert<T>(x: T, s: seq<T>, key: T -> real): (r: seq<T>)
    ensures multiset(r) == multiset(s) + multiset{x}
    ensures |r| == |s| + 1
    ensures r[0] == x || (s != [] && r[0] == s[0])
  {
    if s == [] || key(x) <= key(s[0]) then [x] + s
    else
      assert s == [s[0]] + s[1..];
      [s[0]] + Insert(x, s[1..], key)
  }

  /** Inserting into a sorted sequence keeps it sorted. */
  lemma {:induction false} InsertSorted<T>(x: T, s: seq<T>, key: T -> real)
    requires SortedBy(s, key)
    ensures SortedBy(Insert(x, s, key), key)
  {
    if s != [] && key(x) > key(s[0]) {
      var rest := Insert(x, s[1..], key);
      InsertSorted(x, s[1..], key);
      assert key(s[0]) <= key(rest[0]);
      var r := [s[0]] + rest;
      assert r == Insert(x, s, key);
      forall i, j | 0 <= i < j < |r| ensures key(r[i]) <= key(r[j]) {
        if i > 0 {
          assert r[i] == rest[i - 1] && r[j] == rest[j - 1];
        } else {
          assert r[j] == rest[j - 1];
          assert key(rest[0]) <= key(rest[j - 1]);
        }
      }
    }
  }

  /** A sorted permutation of `s`; `SortByStable` proves that elements with equal keys keep their relative order. */
  function SortBy<T>(s: seq<T>, key: T -> real): (r: seq<T>)
    ensures SortedBy(r, key)
    ensures multiset(r) == multiset(s)
    ensures |r| == |s|
  {
    if s == [] then []
    else
      assert s == [s[0]] + s[1..];
      var rest := SortBy(s[1..], key);
      InsertSorted(s[0], rest, key);
      Insert(s[0], rest, key)
  }

  /** The elements of `s` whose key is `k`, in their order in `s`. */
  function WithKey<T>(s: seq<T>, key: T -> real, k: real): seq<T> {
    if s == [] then []
    else (if key(s[0]) == k then [s[0]] else []) + WithKey(s[1..], key, k)
  }

  lemma WithKeyCons<T>(y: T, t: seq<T>, key: T -> real, k: real)
    ensures WithKey([y] + t, key, k) == (if key(y) == k then [y] else []) + WithKey(t, key, k)
  {
    assert ([y] + t)[1..] == t;
  }

  /** `Insert` puts `x` ahead of every element with its key, and moves nothing else past another. */
  lemma {:induction false} InsertWithKey<T>(x: T, s: seq<T>, key: T -> real, k: real)
    ensures WithKey(Insert(x, s, key), key, k) ==
            (if key(x) == k then [x] else []) + WithKey(s, key, k)
  {
    if s == [] || key(x) <= key(s[0]) {
      WithKeyCons(x, s, key, k);
    } else {
      InsertWithKey(x, s[1..], key, k);
      PassWithKey(x, s, Insert(x, s[1..], key), key, k);
    }
  }

  /** Inserting `x` past a smaller head: the head's key differs from `x`'s, so the two never swap within a key. */
  lemma PassWithKey<T>(x: T, s: seq<T>, rest: seq<T>, key: T -> real, k: real)
    requires s != [] && key(x) > key(s[0])
    requires WithKey(rest, key, k) == (if key(x) == k then [x] else []) + WithKey(s[1..], key, k)
    ensures WithKey([s[0]] + rest, key, k) == (if key(x) == k then [x] else []) + WithKey(s, key, k)
  {
    var head := if key(s[0]) == k then [s[0]] else [];
    var mine := if key(x) == k then [x] else [];
    WithKeyCons(s[0], rest, key, k);
    assert s == [s[0]] + s[1..];
    WithKeyCons(s[0], s[1..], key, k);
    assert head == [] || mine == [];
    assert head + mine == mine + head;
    assert head + (mine + WithKey(s[1..], key, k)) == mine + (head + WithKey(s[1..], key, k));
  }

  /**
   * Stability: for every key, the elements with that key appear in the
   * sorted sequence in the same order as in the input.
   */
  lemma {:induction false} SortByStable<T>(s: seq<T>, key: T -> real, k: real)
    ensures WithKey(SortBy(s, key), key, k) == WithKey(s, key, k)
  {
    if s != [] {
      SortByStable(s[1..], key, k);
      InsertWithKey(s[0], SortBy(s[1..], key), key, k);
    }
  }

  /** `xs.reduce((sum, x) => sum + val(x), 0)`. */
  function Total<T>(s: seq<T>, val: T -> real): real {
    if s == [] then 0.0 else val(s[0]) + Total(s[1..], val)
  }

  lemma {:induction false} TotalAppend<T>(a: seq<T>, b: seq<T>, val: T -> real)
    ensures Total(a + b, val) == Total(a, val) + Total(b, val)
  {
    if a != [] {
      assert (a + b)[1..] == a[1..] + b;
      TotalAppend(a[1..], b, val);
    } else {
      assert a + b == b;
    }
  }

  lemma {:induction false} TotalInsert<T>(x: T, s: seq<T>, key: T -> real, val: T -> real)
    ensures Total(Insert(x, s, key), val) == val(x) + Total(s, val)
  {
    if s != [] && key(x) > key(s[0]) {
      TotalInsert(x, s[1..], key, val);
    }
  }

  /** Sorting never changes the sum of any per-element quantity. */
  lemma {:induction false} TotalSortBy<T>(s: seq<T>, key: T -> real, val: T -> real)
    ensures Total(SortBy(s, key), val) == Total(s, val)
  {
    if s != [] {
      TotalSortBy(s[1..], key, val);
      TotalInsert(s[0], SortBy(s[1..], key), key, val);
    }
  }
}
