/** The Volatility indicator: population standard deviation of bar ranges (high - low). */
module Volatility {

  import opened Bars
  import opened Wrappers
  import Arith

  const DefaultPeriod: nat := 20

  function Sum(xs: seq<real>): real
  {
    if xs == [] then 0.0 else xs[0] + Sum(xs[1..])
  }

  /** Sum of squared deviations of `xs` from `m`. */
  function SquaredDeviations(xs: seq<real>, m: real): real
  {
    if xs == [] then 0.0 else Arith.Square(xs[0] - m) + SquaredDeviations(xs[1..], m)
  }

  /** The arithmetic mean: the value whose `|xs|` copies sum to the sample's sum. */
  function Mean(xs: seq<real>): (m: real)
    requires |xs| > 0
    ensures |xs| as real * m == Sum(xs)
  {
    Sum(xs) / |xs| as real
  }

  /** Population variance: divided by the sample size, not by the size minus one. It is
      never negative, and zero exactly for a constant sample. */
  function Variance(xs: seq<real>): (v: real)
    requires |xs| > 0
    ensures v >= 0.0
    ensures v == 0.0 <==> AllEqual(xs)
  {
    SquaredDeviationsNonNegative(xs, Mean(xs));
    DeviationsZeroIffConstant(xs);
    SquaredDeviations(xs, Mean(xs)) / |xs| as real
  }

  /** The sample: the range of each of the last `period` bars, current bar first. */
  function Ranges(bars: seq<Bar>, period: nat): (r: seq<real>)
    requires period <= |bars|
    ensures |r| == period
    ensures forall i :: 0 <= i < period ==> r[i] == Ago(bars, i).high - Ago(bars, i).low
  {
    seq(period, i requires 0 <= i < period => Ago(bars, i).high - Ago(bars, i).low)
  }

  /** The indicator's value before the square root is taken: undefined (None) until
      `period` bars have been seen, then the variance of the last `period` ranges. */
  function RangeVariance(bars: seq<Bar>, period: nat): (v: Option<real>)
    requires period > 0
    ensures v.None? <==> |bars| < period
    ensures v.Some? ==> v.value >= 0.0
    ensures v.Some? ==> (v.value == 0.0 <==> AllEqual(Ranges(bars, period)))
  {
    if |bars| < period then None
    else
      Some(Variance(Ranges(bars, period)))
  }

  /** `vol` is what the indicator line holds: the non-negative square root of the variance.
      It is defined once `period` bars exist, and is zero exactly when every range in the
      window is the same. */
  ghost predicate IsVolatility(bars: seq<Bar>, period: nat, vol: real)
    requires period > 0
    ensures IsVolatility(bars, period, vol) ==>
      |bars| >= period && (vol == 0.0 <==> AllEqual(Ranges(bars, period)))
  {
    SquareZero(vol);
    RangeVariance(bars, period).Some? && vol >= 0.0 && Arith.Square(vol) == RangeVariance(bars, period).value
  }

  lemma SquareZero(x: real)
    ensures Arith.Square(x) == 0.0 <==> x == 0.0
  {
    if x != 0.0 {
      Arith.SquarePositive(x);
    }
  }

  /** The indicator line is well defined: at most one value is the volatility. */
  lemma VolatilityIsUnique(bars: seq<Bar>, period: nat, v: real, w: real)
    requires period > 0 && IsVolatility(bars, period, v) && IsVolatility(bars, period, w)
    ensures v == w
  {
    Arith.SquareMonotone(v, w);
    Arith.SquareMonotone(w, v);
  }

  /** With the default period the line is undefined before the 20th bar. */
  lemma DefaultWarmUp(bars: seq<Bar>)
    ensures RangeVariance(bars, DefaultPeriod).None? <==> |bars| < 20
  {
  }

  ghost predicate AllEqual(xs: seq<real>)
  {
    forall i, j :: 0 <= i < |xs| && 0 <= j < |xs| ==> xs[i] == xs[j]
  }

  lemma {:induction false} SquaredDeviationsNonNegative(xs: seq<real>, m: real)
    ensures SquaredDeviations(xs, m) >= 0.0
  {
    if xs != [] {
      SquaredDeviationsNonNegative(xs[1..], m);
      Arith.SquareNonNegative(xs[0] - m);
    }
  }

  /** A single sample away from `m` makes the sum of squared deviations positive. */
  lemma {:induction false} SquaredDeviationsPositive(xs: seq<real>, m: real, k: nat)
    requires k < |xs| && xs[k] != m
    ensures SquaredDeviations(xs, m) > 0.0
  {
    SquaredDeviationsNonNegative(xs[1..], m);
    if k == 0 {
      Arith.SquarePositive(xs[0] - m);
    } else {
      Arith.SquareNonNegative(xs[0] - m);
      assert xs[1..][k - 1] == xs[k];
      SquaredDeviationsPositive(xs[1..], m, k - 1);
    }
  }

  lemma VarianceNonNegative(xs: seq<real>)
    requires |xs| > 0
    ensures Variance(xs) >= 0.0
  {
    SquaredDeviationsNonNegative(xs, Mean(xs));
  }

  lemma {:induction false} SumOfConstant(xs: seq<real>, c: real)
    requires forall i :: 0 <= i < |xs| ==> xs[i] == c
    ensures Sum(xs) == |xs| as real * c
  {
    if xs != [] {
      SumOfConstant(xs[1..], c);
    }
  }

  lemma {:induction false} DeviationsFromConstant(xs: seq<real>, c: real)
    requires forall i :: 0 <= i < |xs| ==> xs[i] == c
    ensures SquaredDeviations(xs, c) == 0.0
  {
    if xs != [] {
      DeviationsFromConstant(xs[1..], c);
    }
  }

  /** The variance is zero exactly when every range in the sample is the same. */
  lemma VarianceZeroIffConstant(xs: seq<real>)
    requires |xs| > 0
    ensures Variance(xs) == 0.0 <==> AllEqual(xs)
  {
  }

  /** The squared deviations from the mean vanish exactly for a constant sample. */
  lemma DeviationsZeroIffConstant(xs: seq<real>)
    requires |xs| > 0
    ensures SquaredDeviations(xs, Mean(xs)) == 0.0 <==> AllEqual(xs)
  {
    if AllEqual(xs) {
      SumOfConstant(xs, xs[0]);
      assert Mean(xs) == xs[0];
      DeviationsFromConstant(xs, xs[0]);
    } else {
      var m := Mean(xs);
      var k :| 0 <= k < |xs| && xs[k] != m;
      SquaredDeviationsPositive(xs, m, k);
    }
  }

  /** The strategy's filter `volatility >= threshold` on the square root is the same as
      comparing the variance with the squared threshold, for a non-negative threshold. */
  lemma ThresholdOnVariance(bars: seq<Bar>, period: nat, vol: real, threshold: real)
    requires period > 0 && IsVolatility(bars, period, vol) && threshold >= 0.0
    ensures vol >= threshold <==> RangeVariance(bars, period).value >= Arith.Square(threshold)
  {
    Arith.SquareMonotone(vol, threshold);
  }
}
