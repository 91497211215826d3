/** Exact real-valued statistics over sequences of samples: the sums, means,
    maxima and sample variances that the detector (through pandas) and the
    session logger (through Python's `sum` and `max`) compute. Floating-point
    rounding is not modelled. */
module Stats {

  function Sum(xs: seq<real>): real
  {
    if xs == [] then 0.0 else xs[0] + Sum(xs[1..])
  }

  /** The arithmetic mean, as pandas' `mean()` and `sum(xs) / len(xs)` compute it. */
  function Mean(xs: seq<real>): real
    requires |xs| > 0
  {
    Sum(xs) / (|xs| as real)
  }

  /** Python's `max(xs)`: an element of `xs` that no element exceeds. */
  function MaxOf(xs: seq<real>): (m: real)
    requires |xs| > 0
    ensures forall i :: 0 <= i < |xs| ==> xs[i] <= m
    ensures exists i :: 0 <= i < |xs| && xs[i] == m
  {
    if |xs| == 1 then xs[0]
    else
      var rest := MaxOf(xs[1..]);
      assert forall i :: 1 <= i < |xs| ==> xs[i] == xs[1..][i - 1];
      if xs[0] >= rest then xs[0] else rest
  }

  /** The sum of squared deviations of the samples from `m`. */
  function SquaredDeviation(xs: seq<real>, m: real): real
  {
    if xs == [] then 0.0 else (xs[0] - m) * (xs[0] - m) + SquaredDeviation(xs[1..], m)
  }

  /** pandas' `Series.var()`: the sample variance, with one degree of freedom
      removed (the divisor is n - 1). */
  function SampleVariance(xs: seq<real>): real
    requires |xs| >= 2
  {
    SquaredDeviation(xs, Mean(xs)) / ((|xs| - 1) as real)
  }

  /** The frame-to-frame differences `xs[i+1] - xs[i]`: pandas' `diff().dropna()`. */
  function Deltas(xs: seq<real>): (d: seq<real>)
    ensures |d| == if |xs| == 0 then 0 else |xs| - 1
  {
    if |xs| < 2 then []
    else seq(|xs| - 1, i requires 0 <= i < |xs| - 1 => xs[i + 1] - xs[i])
  }

  /** A sum never exceeds the number of terms times an upper bound of the terms. */
  lemma {:induction false} SumAtMostCountTimesBound(xs: seq<real>, b: real)
    requires forall i :: 0 <= i < |xs| ==> xs[i] <= b
    ensures Sum(xs) <= (|xs| as real) * b
  {
    if xs != [] {
      assert forall i :: 0 <= i < |xs[1..]| ==> xs[1..][i] == xs[i + 1];
      SumAtMostCountTimesBound(xs[1..], b);
    }
  }

  /** The mean never exceeds the maximum. */
  lemma MeanAtMostMax(xs: seq<real>)
    requires |xs| > 0
    ensures Mean(xs) <= MaxOf(xs)
  {
    MeanAtMostBound(xs, MaxOf(xs));
  }

  /** The mean never exceeds an upper bound of the samples. */
  lemma MeanAtMostBound(xs: seq<real>, b: real)
    requires |xs| > 0
    requires forall i :: 0 <= i < |xs| ==> xs[i] <= b
    ensures Mean(xs) <= b
  {
    SumAtMostCountTimesBound(xs, b);
    QuotientAtMost(Sum(xs), |xs| as real, b);
  }

  /** Dividing both sides of a <= n * b by a positive n. */
  lemma QuotientAtMost(a: real, n: real, b: real)
    requires n > 0.0 && a <= n * b
    ensures a / n <= b
  {
    var q := a / n;
    assert (b - q) * n == n * b - a;
    ProductSign(b - q, n);
  }

  /** A product with a positive factor has the sign of the other factor. */
  lemma ProductSign(x: real, n: real)
    requires n > 0.0 && x * n >= 0.0
    ensures x >= 0.0
  {
  }

  /** The sum of n copies of c is n times c. */
  lemma {:induction false} SumOfConstant(xs: seq<real>, c: real)
    requires forall i :: 0 <= i < |xs| ==> xs[i] == c
    ensures Sum(xs) == (|xs| as real) * c
  {
    if xs != [] {
      assert forall i :: 0 <= i < |xs[1..]| ==> xs[1..][i] == c;
      SumOfConstant(xs[1..], c);
    }
  }

  /** The mean of a constant sequence is that constant. */
  lemma MeanOfConstant(xs: seq<real>, c: real)
    requires |xs| > 0
    requires forall i :: 0 <= i < |xs| ==> xs[i] == c
    ensures Mean(xs) == c
  {
    SumOfConstant(xs, c);
  }

  /** A sum of squares is never negative. */
  lemma {:induction false} SquaredDeviationNonNegative(xs: seq<real>, m: real)
    ensures SquaredDeviation(xs, m) >= 0.0
  {
    if xs != [] {
      var d := xs[0] - m;
      assert d * d >= 0.0 by {
        if d < 0.0 { assert d * d == (-d) * (-d); }
      }
      SquaredDeviationNonNegative(xs[1..], m);
    }
  }

  /** A sample variance is never negative. */
  lemma VarianceNonNegative(xs: seq<real>)
    requires |xs| >= 2
    ensures SampleVariance(xs) >= 0.0
  {
    SquaredDeviationNonNegative(xs, Mean(xs));
  }

  /** Samples that all equal `m` have no deviation from it. */
  lemma {:induction false} SquaredDeviationOfConstant(xs: seq<real>, m: real)
    requires forall i :: 0 <= i < |xs| ==> xs[i] == m
    ensures SquaredDeviation(xs, m) == 0.0
  {
    if xs != [] {
      assert forall i :: 0 <= i < |xs[1..]| ==> xs[1..][i] == m;
      SquaredDeviationOfConstant(xs[1..], m);
    }
  }

  /** A constant signal has variance zero. */
  lemma VarianceOfConstant(xs: seq<real>, c: real)
    requires |xs| >= 2
    requires forall i :: 0 <= i < |xs| ==> xs[i] == c
    ensures SampleVariance(xs) == 0.0
  {
    MeanOfConstant(xs, c);
    SquaredDeviationOfConstant(xs, c);
  }

  /** The frame-to-frame differences of a signal add up to its net change. */
  lemma {:induction false} DeltasTelescope(xs: seq<real>)
    requires |xs| >= 1
    ensures Sum(Deltas(xs)) == xs[|xs| - 1] - xs[0]
  {
    if |xs| >= 2 {
      var rest := xs[1..];
      DeltasTelescope(rest);
      var d, dr := Deltas(xs), Deltas(rest);
      assert forall i :: 0 <= i < |dr| ==> d[1..][i] == dr[i];
      assert d[1..] == dr;
      assert Sum(d) == (xs[1] - xs[0]) + Sum(dr);
      assert rest[|rest| - 1] == xs[|xs| - 1];
    }
  }

  /** So their mean is the net change spread over the n - 1 steps. */
  lemma MeanDeltaIsNetChange(xs: seq<real>)
    requires |xs| >= 2
    ensures Mean(Deltas(xs)) == (xs[|xs| - 1] - xs[0]) / ((|xs| - 1) as real)
  {
    DeltasTelescope(xs);
  }
}
