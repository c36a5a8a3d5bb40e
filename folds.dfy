/**
 * `reduce((sum, x) => sum + f(x), 0)` over a list, and the facts about it
 * that the balance and statistics proofs share.
 */
module Folds {

  /** The sum of f over xs, accumulated from the left. */
  function SumOver<T>(xs: seq<T>, f: T -> real): real {
    if xs == [] then 0.0 else SumOver(xs[..|xs| - 1], f) + f(xs[|xs| - 1])
  }

  lemma SumOverSingle<T>(x: T, f: T -> real)
    ensures SumOver([x], f) == f(x)
  {
    assert [x][..0] == [];
  }

  /** One more element of a prefix adds its term. */
  lemma SumOverStep<T>(xs: seq<T>, i: nat, f: T -> real)
    requires i < |xs|
    ensures SumOver(xs[..i + 1], f) == SumOver(xs[..i], f) + f(xs[i])
  {
    assert xs[..i + 1][..i] == xs[..i];
  }

  lemma {:induction false} SumOverConcat<T>(a: seq<T>, b: seq<T>, f: T -> real)
    ensures SumOver(a + b, f) == SumOver(a, f) + SumOver(b, f)
    decreases |b|
  {
    if b == [] {
      assert a + b == a;
    } else {
      assert (a + b)[..|a + b| - 1] == a + b[..|b| - 1];
      SumOverConcat(a, b[..|b| - 1], f);
    }
  }

  /** Replacing one element changes the sum by the difference of the two terms. */
  lemma SumOverUpdate<T>(xs: seq<T>, i: nat, x: T, f: T -> real)
    requires i < |xs|
    ensures SumOver(xs[i := x], f) == SumOver(xs, f) - f(xs[i]) + f(x)
  {
    assert xs == xs[..i] + ([xs[i]] + xs[i + 1..]);
    assert xs[i := x] == xs[..i] + ([x] + xs[i + 1..]);
    SumOverConcat(xs[..i], [xs[i]] + xs[i + 1..], f);
    SumOverConcat([xs[i]], xs[i + 1..], f);
    SumOverConcat(xs[..i], [x] + xs[i + 1..], f);
    SumOverConcat([x], xs[i + 1..], f);
    SumOverSingle(xs[i], f);
    SumOverSingle(x, f);
  }

  /** Removing the element at i takes its term off the sum. */
  lemma SumOverRemove<T>(xs: seq<T>, i: nat, f: T -> real)
    requires i < |xs|
    ensures SumOver(xs, f) == SumOver(xs[..i] + xs[i + 1..], f) + f(xs[i])
  {
    assert xs == xs[..i] + ([xs[i]] + xs[i + 1..]);
    SumOverConcat(xs[..i], [xs[i]] + xs[i + 1..], f);
    SumOverConcat([xs[i]], xs[i + 1..], f);
    SumOverConcat(xs[..i], xs[i + 1..], f);
    SumOverSingle(xs[i], f);
  }

  /** A sum accumulated by addition does not depend on the order of the terms. */
  lemma {:induction false} SumOverPermutation<T>(a: seq<T>, b: seq<T>, f: T -> real)
    requires multiset(a) == multiset(b)
    ensures SumOver(a, f) == SumOver(b, f)
    decreases |a|
  {
    if a == [] {
      assert |b| == |multiset(b)| == 0;
    } else {
      var x := a[|a| - 1];
      assert x in multiset(b);
      var k :| 0 <= k < |b| && b[k] == x;
      var a' := a[..|a| - 1];
      var b' := b[..k] + b[k + 1..];
      assert a == a' + [x];
      assert b == b[..k] + [x] + b[k + 1..];
      assert multiset(b') == multiset(b) - multiset{x};
      assert multiset(a') == multiset(a) - multiset{x};
      SumOverPermutation(a', b', f);
      SumOverRemove(b, k, f);
    }
  }

  /** A sum of differences is the difference of the sums. */
  lemma {:induction false} SumOverDifference<T>(xs: seq<T>, f: T -> real, g: T -> real, h: T -> real)
    requires forall x :: h(x) == f(x) - g(x)
    ensures SumOver(xs, h) == SumOver(xs, f) - SumOver(xs, g)
    decreases |xs|
  {
    if xs != [] {
      SumOverDifference(xs[..|xs| - 1], f, g, h);
    }
  }

  /** Replacing the middle element of a three-part list. */
  lemma UpdateMiddle<T>(a: seq<T>, y: T, b: seq<T>, x: T)
    ensures (a + [y] + b)[|a| := x] == a + [x] + b
  {
  }

  /** Sums of functions that agree on the list are equal. */
  lemma {:induction false} SumOverAgree<T>(xs: seq<T>, f: T -> real, g: T -> real)
    requires forall i :: 0 <= i < |xs| ==> f(xs[i]) == g(xs[i])
    ensures SumOver(xs, f) == SumOver(xs, g)
    decreases |xs|
  {
    if xs != [] {
      SumOverAgree(xs[..|xs| - 1], f, g);
    }
  }

  /** A sum of sums is the sum of the two sums. */
  lemma {:induction false} SumOverAdd<T>(xs: seq<T>, f: T -> real, g: T -> real, h: T -> real)
    requires forall x :: h(x) == f(x) + g(x)
    ensures SumOver(xs, h) == SumOver(xs, f) + SumOver(xs, g)
    decreases |xs|
  {
    if xs != [] {
      SumOverAdd(xs[..|xs| - 1], f, g, h);
    }
  }

  /** A term that is non-zero at a single element of a list without repeats sums to its value there. */
  lemma {:induction false} SumOverSpike<T>(xs: seq<T>, y: T, v: real, f: T -> real)
    requires forall x :: f(x) == if x == y then v else 0.0
    requires forall i, j :: 0 <= i < j < |xs| ==> xs[i] != xs[j]
    ensures SumOver(xs, f) == if y in xs then v else 0.0
    decreases |xs|
  {
    if xs != [] {
      var init := xs[..|xs| - 1];
      SumOverSpike(init, y, v, f);
      assert xs == init + [xs[|xs| - 1]];
      if xs[|xs| - 1] == y {
        assert y !in init;
      }
    }
  }

  /** A sum of zero terms is 0. */
  lemma {:induction false} SumOverZero<T>(xs: seq<T>, f: T -> real)
    requires forall x :: f(x) == 0.0
    ensures SumOver(xs, f) == 0.0
    decreases |xs|
  {
    if xs != [] {
      SumOverZero(xs[..|xs| - 1], f);
    }
  }
}
