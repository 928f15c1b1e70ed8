/** Integer sums over sequences, as the reducers accumulate them. */
module Sums {

  /** The sum of the samples, accumulated from the first to the last. */
  function Sum(s: seq<int>): int
  {
    if s == [] then 0 else Sum(s[..|s| - 1]) + s[|s| - 1]
  }

  /** The sum of `f` over the elements of `xs`, in order. */
  function SumBy<T>(xs: seq<T>, f: T -> int): int
  {
    if xs == [] then 0 else SumBy(xs[..|xs| - 1], f) + f(xs[|xs| - 1])
  }

  predicate NonNegative(s: seq<int>)
  {
    forall i :: 0 <= i < |s| ==> s[i] >= 0
  }

  /** Extending the prefix by one element adds that element. */
  lemma SumStep(s: seq<int>, i: nat)
    requires i < |s|
    ensures Sum(s[..i + 1]) == Sum(s[..i]) + s[i]
  {
    assert s[..i + 1][..i] == s[..i];
  }

  lemma SumByStep<T>(xs: seq<T>, f: T -> int, i: nat)
    requires i < |xs|
    ensures SumBy(xs[..i + 1], f) == SumBy(xs[..i], f) + f(xs[i])
  {
    assert xs[..i + 1][..i] == xs[..i];
  }

  lemma SumBySnoc<T>(xs: seq<T>, x: T, f: T -> int)
    ensures SumBy(xs + [x], f) == SumBy(xs, f) + f(x)
  {
    assert (xs + [x])[..|xs|] == xs;
  }

  lemma {:induction false} SumNonNegative(s: seq<int>)
    requires NonNegative(s)
    ensures Sum(s) >= 0
  {
    if s != [] {
      SumNonNegative(s[..|s| - 1]);
    }
  }

  lemma {:induction false} SumByAppend<T>(xs: seq<T>, ys: seq<T>, f: T -> int)
    ensures SumBy(xs + ys, f) == SumBy(xs, f) + SumBy(ys, f)
  {
    if ys == [] {
      assert xs + ys == xs;
    } else {
      var n := |ys| - 1;
      assert (xs + ys)[..|xs + ys| - 1] == xs + ys[..n];
      SumByAppend(xs, ys[..n], f);
    }
  }

  /** Taking element `j` out of a sequence takes its weight out of the sum. */
  lemma SumByRemove<T>(ys: seq<T>, j: nat, f: T -> int)
    requires j < |ys|
    ensures SumBy(ys, f) == SumBy(ys[..j] + ys[j + 1..], f) + f(ys[j])
  {
    var a, x, b := ys[..j], ys[j], ys[j + 1..];
    assert ys == a + ([x] + b);
    SumByAppend(a, [x] + b, f);
    SumByAppend([x], b, f);
    SumByAppend(a, b, f);
    SumBySingle(x, f);
  }

  lemma SumBySingle<T>(x: T, f: T -> int)
    ensures SumBy([x], f) == f(x)
  {
    assert [x][..0] == [];
  }

  lemma MultisetRemove<T>(ys: seq<T>, j: nat)
    requires j < |ys|
    ensures multiset(ys[..j] + ys[j + 1..]) == multiset(ys) - multiset{ys[j]}
  {
    assert ys == ys[..j] + [ys[j]] + ys[j + 1..];
  }

  /** A sum over a sequence does not depend on the order of its elements. */
  lemma {:induction false} SumByPermutation<T>(xs: seq<T>, ys: seq<T>, f: T -> int)
    requires multiset(xs) == multiset(ys)
    ensures SumBy(xs, f) == SumBy(ys, f)
  {
    if xs == [] {
      assert |ys| == |multiset(ys)| == 0;
    } else {
      var n := |xs| - 1;
      var x := xs[n];
      assert x in multiset(ys) by {
        assert x in multiset(xs);
      }
      var j :| 0 <= j < |ys| && ys[j] == x;
      MultisetRemove(xs, n);
      MultisetRemove(ys, j);
      assert xs[..n] + xs[n + 1..] == xs[..n];
      SumByPermutation(xs[..n], ys[..j] + ys[j + 1..], f);
      SumByRemove(ys, j, f);
    }
  }

  /** With non-negative weights, no single element's weight exceeds the sum. */
  lemma {:induction false} SumByBound<T>(xs: seq<T>, f: T -> int, i: nat)
    requires i < |xs|
    requires forall k :: 0 <= k < |xs| ==> f(xs[k]) >= 0
    ensures 0 <= f(xs[i]) <= SumBy(xs, f)
  {
    var n := |xs| - 1;
    SumByNonNegative(xs[..n], f);
    if i < n {
      SumByBound(xs[..n], f, i);
    }
  }

  lemma {:induction false} SumByNonNegative<T>(xs: seq<T>, f: T -> int)
    requires forall k :: 0 <= k < |xs| ==> f(xs[k]) >= 0
    ensures SumBy(xs, f) >= 0
  {
    if xs != [] {
      SumByNonNegative(xs[..|xs| - 1], f);
    }
  }

  /** Summing `f + g` is summing `f` and summing `g`. */
  lemma {:induction false} SumBySplit<T>(xs: seq<T>, f: T -> int, g: T -> int, h: T -> int)
    requires forall i :: 0 <= i < |xs| ==> h(xs[i]) == f(xs[i]) + g(xs[i])
    ensures SumBy(xs, h) == SumBy(xs, f) + SumBy(xs, g)
  {
    if xs != [] {
      SumBySplit(xs[..|xs| - 1], f, g, h);
    }
  }

  /** Summing weights that are all zero gives zero. */
  lemma {:induction false} SumByZero<T>(xs: seq<T>, f: T -> int)
    requires forall i :: 0 <= i < |xs| ==> f(xs[i]) == 0
    ensures SumBy(xs, f) == 0
  {
    if xs != [] {
      SumByZero(xs[..|xs| - 1], f);
    }
  }

  /** A pointwise smaller weight gives a smaller sum. */
  lemma {:induction false} SumByMonotone<T>(xs: seq<T>, f: T -> int, g: T -> int)
    requires forall i :: 0 <= i < |xs| ==> f(xs[i]) <= g(xs[i])
    ensures SumBy(xs, f) <= SumBy(xs, g)
  {
    if xs != [] {
      SumByMonotone(xs[..|xs| - 1], f, g);
    }
  }
}
