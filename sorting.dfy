/**
 * `Array.prototype.sort` with a descending comparator (`(a, b) => key(b) - key(a)`),
 * as a stable insertion sort: used for the per-person totals and for the
 * newest-first list of days.
 */
module Sorting {

  /** Non-increasing by key. */
  ghost predicate SortedDesc<T>(xs: seq<T>, key: T -> real) {
    forall i, j :: 0 <= i < j < |xs| ==> key(xs[i]) >= key(xs[j])
  }

  /** Inserts x before the first element whose key is not larger than its own (so earlier equal keys stay first). */
  function Insert<T>(x: T, xs: seq<T>, key: T -> real): (r: seq<T>)
    requires SortedDesc(xs, key)
    ensures SortedDesc(r, key)
    ensures |r| == |xs| + 1
    ensures r[0] == x || (xs != [] && r[0] == xs[0])
  {
    if xs == [] || key(x) >= key(xs[0]) then
      ConsSorted(x, xs, key);
      [x] + xs
    else
      TailSorted(xs, key);
      var rest := Insert(x, xs[1..], key);
      assert xs == [xs[0]] + xs[1..];
      ConsSorted(xs[0], rest, key);
      [xs[0]] + rest
  }

  /** Inserting adds x and keeps every other element. */
  lemma {:induction false} InsertPermutes<T>(x: T, xs: seq<T>, key: T -> real)
    requires SortedDesc(xs, key)
    ensures multiset(Insert(x, xs, key)) == multiset(xs) + multiset{x}
    decreases |xs|
  {
    if xs != [] && key(x) < key(xs[0]) {
      TailSorted(xs, key);
      InsertPermutes(x, xs[1..], key);
      assert xs == [xs[0]] + xs[1..];
    }
  }

  lemma TailSorted<T>(xs: seq<T>, key: T -> real)
    requires SortedDesc(xs, key) && xs != []
    ensures SortedDesc(xs[1..], key)
  {
    forall i, j | 0 <= i < j < |xs[1..]|
      ensures key(xs[1..][i]) >= key(xs[1..][j])
    {
      assert xs[1..][i] == xs[i + 1] && xs[1..][j] == xs[j + 1];
    }
  }

  /** An element no smaller than the head of a sorted list can go in front of it. */
  lemma ConsSorted<T>(y: T, rest: seq<T>, key: T -> real)
    requires SortedDesc(rest, key) && (rest != [] ==> key(y) >= key(rest[0]))
    ensures SortedDesc([y] + rest, key)
  {
    var r := [y] + rest;
    forall i, j | 0 <= i < j < |r|
      ensures key(r[i]) >= key(r[j])
    {
      assert r[j] == rest[j - 1];
      if i > 0 {
        assert r[i] == rest[i - 1];
      }
    }
  }

  /** The sorted permutation of xs, non-increasing by key. */
  function SortDesc<T>(xs: seq<T>, key: T -> real): (r: seq<T>)
    ensures SortedDesc(r, key)
    ensures multiset(r) == multiset(xs)
    ensures |r| == |xs|
  {
    if xs == [] then []
    else
      assert xs == [xs[0]] + xs[1..];
      InsertPermutes(xs[0], SortDesc(xs[1..], key), key);
      Insert(xs[0], SortDesc(xs[1..], key), key)
  }

  /** Sorting a list that is already in order leaves it as it is. */
  lemma {:induction false} SortDescSorted<T>(xs: seq<T>, key: T -> real)
    requires SortedDesc(xs, key)
    ensures SortDesc(xs, key) == xs
    decreases |xs|
  {
    if xs != [] {
      SortDescSorted(xs[1..], key);
      assert xs == [xs[0]] + xs[1..];
    }
  }
  /** The elements whose key is k, in their order in xs. */
  function WithKey<T>(xs: seq<T>, key: T -> real, k: real): (r: seq<T>)
    ensures |r| <= |xs|
  {
    if xs == [] then []
    else (if key(xs[0]) == k then [xs[0]] else []) + WithKey(xs[1..], key, k)
  }

  /** Insertion puts x before every element of its own key, since it only passes larger keys. */
  lemma {:induction false} InsertWithKey<T>(x: T, xs: seq<T>, key: T -> real, k: real)
    requires SortedDesc(xs, key)
    ensures WithKey(Insert(x, xs, key), key, k) == (if key(x) == k then [x] else []) + WithKey(xs, key, k)
    decreases |xs|
  {
    if xs == [] || key(x) >= key(xs[0]) {
      assert Insert(x, xs, key) == [x] + xs;
      assert ([x] + xs)[1..] == xs;
    } else {
      TailSorted(xs, key);
      InsertWithKey(x, xs[1..], key, k);
      var rest := Insert(x, xs[1..], key);
      var hx := if key(x) == k then [x] else [];
      var h0 := if key(xs[0]) == k then [xs[0]] else [];
      assert Insert(x, xs, key) == [xs[0]] + rest;
      assert ([xs[0]] + rest)[1..] == rest;
      assert WithKey(Insert(x, xs, key), key, k) == h0 + WithKey(rest, key, k);
      assert WithKey(xs, key, k) == h0 + WithKey(xs[1..], key, k);
      // x passes xs[0] only with a smaller key, so at most one of them has key k
      if hx == [] {
        assert hx + WithKey(xs, key, k) == WithKey(xs, key, k);
      } else {
        assert h0 == [];
      }
    }
  }

  /** The sort is stable: the elements of any one key come out in their input order. */
  lemma {:induction false} SortDescStable<T>(xs: seq<T>, key: T -> real, k: real)
    ensures WithKey(SortDesc(xs, key), key, k) == WithKey(xs, key, k)
    decreases |xs|
  {
    if xs != [] {
      SortDescStable(xs[1..], key, k);
      InsertWithKey(xs[0], SortDesc(xs[1..], key), key, k);
    }
  }
}
