/** The JavaScript arithmetic the forecast engine relies on, over exact reals:
    Math.round, the left-to-right sums of Array.reduce, means, population
    variance and standard deviation, and Math.max / Math.min over a list.
    Math.sqrt is not defined here: callers pass a square-root function and
    require of it only what a square root satisfies (IsSqrt). */
module Numeric {

  function Abs(x: real): real {
    if x < 0.0 then -x else x
  }

  function Max(a: real, b: real): (m: real)
    ensures a <= m && b <= m && (m == a || m == b)
  {
    if a < b then b else a
  }

  /** Math.round: the nearest integer, a half rounded towards +infinity. */
  function Round(x: real): (r: int)
    ensures x - 0.5 < r as real <= x + 0.5
  {
    (x + 0.5).Floor
  }

  /** `xs.reduce((a, b) => a + b, 0)`, folded from the left. */
  function Sum(xs: seq<real>): real {
    if xs == [] then 0.0 else Sum(xs[..|xs| - 1]) + xs[|xs| - 1]
  }

  function Mean(xs: seq<real>): real
    requires |xs| > 0
  {
    Sum(xs) / |xs| as real
  }

  /** The sum of squared deviations of `xs` from `m`. */
  function SquaredDeviations(xs: seq<real>, m: real): real {
    if xs == [] then 0.0
    else SquaredDeviations(xs[..|xs| - 1], m) + (xs[|xs| - 1] - m) * (xs[|xs| - 1] - m)
  }

  /** Population variance. */
  function Variance(xs: seq<real>): real
    requires |xs| > 0
  {
    SquaredDeviations(xs, Mean(xs)) / |xs| as real
  }

  /** What the model asks of Math.sqrt on non-negative arguments. */
  ghost predicate IsSqrt(sqrt: real -> real) {
    && sqrt(0.0) == 0.0
    && forall x :: 0.0 <= x ==> 0.0 <= sqrt(x) && sqrt(x) * sqrt(x) == x
  }

  /** Population standard deviation; 0 for an empty list. */
  function StdDev(xs: seq<real>, sqrt: real -> real): (r: real)
    requires IsSqrt(sqrt)
    ensures 0.0 <= r
    ensures |xs| == 0 ==> r == 0.0
  {
    if |xs| == 0 then 0.0
    else
      VarianceNonNegative(xs);
      sqrt(Variance(xs))
  }

  lemma {:induction false} SquaredDeviationsNonNegative(xs: seq<real>, m: real)
    ensures 0.0 <= SquaredDeviations(xs, m)
  {
    if xs != [] {
      SquaredDeviationsNonNegative(xs[..|xs| - 1], m);
      var d := xs[|xs| - 1] - m;
      assert 0.0 <= d * d;
    }
  }

  lemma VarianceNonNegative(xs: seq<real>)
    requires |xs| > 0
    ensures 0.0 <= Variance(xs)
  {
    SquaredDeviationsNonNegative(xs, Mean(xs));
  }

  /** A list all of whose entries are `c` sums to |xs|·c. */
  lemma {:induction false} SumOfConstant(xs: seq<real>, c: real)
    requires forall i :: 0 <= i < |xs| ==> xs[i] == c
    ensures Sum(xs) == |xs| as real * c
  {
    if xs != [] {
      SumOfConstant(xs[..|xs| - 1], c);
    }
  }

  lemma MeanOfConstant(xs: seq<real>, c: real)
    requires |xs| > 0
    requires forall i :: 0 <= i < |xs| ==> xs[i] == c
    ensures Mean(xs) == c
  {
    SumOfConstant(xs, c);
  }

  lemma {:induction false} SquaredDeviationsOfConstant(xs: seq<real>, c: real)
    requires forall i :: 0 <= i < |xs| ==> xs[i] == c
    ensures SquaredDeviations(xs, c) == 0.0
  {
    if xs != [] {
      SquaredDeviationsOfConstant(xs[..|xs| - 1], c);
    }
  }

  /** Identical values have standard deviation 0. */
  lemma StdDevOfConstant(xs: seq<real>, c: real, sqrt: real -> real)
    requires IsSqrt(sqrt)
    requires forall i :: 0 <= i < |xs| ==> xs[i] == c
    ensures StdDev(xs, sqrt) == 0.0
  {
    if |xs| > 0 {
      MeanOfConstant(xs, c);
      SquaredDeviationsOfConstant(xs, c);
      assert Variance(xs) == 0.0;
      assert StdDev(xs, sqrt) == sqrt(Variance(xs));
    }
  }

  /** Three numbers divided by their sum add up to exactly 1. */
  lemma SharesSumToOne(a: real, b: real, c: real)
    requires a + b + c != 0.0
    ensures a / (a + b + c) + b / (a + b + c) + c / (a + b + c) == 1.0
  {
    var s := a + b + c;
    assert a / s + b / s + c / s == (a + b + c) / s;
  }

  /** Three numbers, each divided by the sum of the three. */
  datatype Shares = Shares(first: real, second: real, third: real)

  function SharesOf(a: real, b: real, c: real): (s: Shares)
    requires a + b + c != 0.0
    ensures s.first + s.second + s.third == 1.0
  {
    SharesSumToOne(a, b, c);
    var t := a + b + c;
    Shares(a / t, b / t, c / t)
  }

  /** Shares of non-negative numbers are fractions. */
  lemma SharesAreFractions(a: real, b: real, c: real)
    requires 0.0 <= a && 0.0 <= b && 0.0 <= c && a + b + c != 0.0
    ensures var s := SharesOf(a, b, c);
      0.0 <= s.first <= 1.0 && 0.0 <= s.second <= 1.0 && 0.0 <= s.third <= 1.0
  {
    var t := a + b + c;
    QuotientBounds(a, t, 0.0, 1.0);
    QuotientBounds(b, t, 0.0, 1.0);
    QuotientBounds(c, t, 0.0, 1.0);
  }

  /** Numbers that already sum to 1 are their own shares. */
  lemma SharesOfUnitSum(a: real, b: real, c: real)
    requires a + b + c == 1.0
    ensures SharesOf(a, b, c) == Shares(a, b, c)
  {
  }

  /** Means of equally long lists add up to the mean of their summed totals. */
  lemma MeansAdd(xs: seq<real>, ys: seq<real>, zs: seq<real>, total: real)
    requires |xs| > 0 && |ys| == |xs| && |zs| == |xs|
    requires Sum(xs) + Sum(ys) + Sum(zs) == total
    ensures Mean(xs) + Mean(ys) + Mean(zs) == total / |xs| as real
  {
    QuotientsAdd(Sum(xs), Sum(ys), Sum(zs), |xs| as real);
  }

  lemma QuotientsAdd(a: real, b: real, c: real, n: real)
    requires n > 0.0
    ensures a / n + b / n + c / n == (a + b + c) / n
  {
    assert (a / n + b / n + c / n) * n == a + b + c;
  }

  /** Bounds on every entry bound the sum. */
  lemma {:induction false} SumBounds(xs: seq<real>, lo: real, hi: real)
    requires forall i :: 0 <= i < |xs| ==> lo <= xs[i] <= hi
    ensures |xs| as real * lo <= Sum(xs) <= |xs| as real * hi
  {
    if xs != [] {
      SumBounds(xs[..|xs| - 1], lo, hi);
    }
  }

  /** Dividing by a positive count keeps bounds that hold per item. */
  lemma QuotientBounds(s: real, n: real, lo: real, hi: real)
    requires 0.0 < n && n * lo <= s <= n * hi
    ensures lo <= s / n <= hi
  {
    var q := s / n;
    assert q * n == s;
    assert (q - lo) * n >= 0.0;
    assert (hi - q) * n >= 0.0;
  }

  /** The mean lies between any bounds the entries share. */
  lemma MeanBounds(xs: seq<real>, lo: real, hi: real)
    requires |xs| > 0
    requires forall i :: 0 <= i < |xs| ==> lo <= xs[i] <= hi
    ensures lo <= Mean(xs) <= hi
  {
    SumBounds(xs, lo, hi);
    QuotientBounds(Sum(xs), |xs| as real, lo, hi);
  }

  /** A sum of non-negative entries is non-negative. */
  lemma {:induction false} SumNonNegative(xs: seq<real>)
    requires forall i :: 0 <= i < |xs| ==> 0.0 <= xs[i]
    ensures 0.0 <= Sum(xs)
  {
    if xs != [] {
      SumNonNegative(xs[..|xs| - 1]);
    }
  }

  /** Math.max(...xs) over a non-empty list. */
  function MaxOf(xs: seq<real>): (m: real)
    requires |xs| > 0
    ensures m in xs
    ensures forall i :: 0 <= i < |xs| ==> xs[i] <= m
  {
    if |xs| == 1 then xs[0] else Max(MaxOf(xs[..|xs| - 1]), xs[|xs| - 1])
  }

  /** Math.min(...xs) over a non-empty list. */
  function MinOf(xs: seq<real>): (m: real)
    requires |xs| > 0
    ensures m in xs
    ensures forall i :: 0 <= i < |xs| ==> m <= xs[i]
  {
    if |xs| == 1 then xs[0]
    else
      var rest := MinOf(xs[..|xs| - 1]);
      if xs[|xs| - 1] < rest then xs[|xs| - 1] else rest
  }
}
