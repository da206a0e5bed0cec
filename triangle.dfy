/** The TrianglePattern indicator: least-squares trendlines through the highs and the lows
    of the last `lookback` bars, and a breakout signal when the channel narrows. */
module Triangle {

  import opened Bars
  import opened Wrappers
  import opened LeastSquares
  import Arith

  const DefaultLookback: nat := 30
  const DefaultBreakoutBuffer: real := 0.01

  /** The three output lines on the current bar. */
  datatype Output = Output(breakout: int, upperTrendline: real, lowerTrendline: real)

  /** The highs of the last `lookback` bars, oldest first: position j holds the bar
      lookback - 1 - j bars ago, so the current bar is last. */
  function HighWindow(bars: seq<Bar>, lookback: nat): (w: seq<real>)
    requires lookback <= |bars|
    ensures |w| == lookback
    ensures forall j :: 0 <= j < lookback ==> w[j] == Ago(bars, lookback - 1 - j).high
  {
    seq(lookback, j requires 0 <= j < lookback => Ago(bars, lookback - 1 - j).high)
  }

  /** The lows of the last `lookback` bars, in the same order. */
  function LowWindow(bars: seq<Bar>, lookback: nat): (w: seq<real>)
    requires lookback <= |bars|
    ensures |w| == lookback
    ensures forall j :: 0 <= j < lookback ==> w[j] == Ago(bars, lookback - 1 - j).low
  {
    seq(lookback, j requires 0 <= j < lookback => Ago(bars, lookback - 1 - j).low)
  }

  /** The channel is narrower at its end (the fitted lines on the current bar) than at its
      start (the high and low of the oldest bar of the window): the upper line ends less
      far above the oldest high than the lower line ends above the oldest low. */
  predicate Converging(resistance: real, support: real, oldestHigh: real, oldestLow: real)
    ensures Converging(resistance, support, oldestHigh, oldestLow) <==>
      resistance - oldestHigh < support - oldestLow
  {
    resistance - support < oldestHigh - oldestLow
  }

  /** The indicator's value: undefined (None) until lookback + 1 bars have been seen. */
  function TrianglePattern(bars: seq<Bar>, lookback: nat, buffer: real): (o: Option<Output>)
    requires lookback >= 2
    ensures o.None? <==> |bars| < lookback + 1
    ensures o.Some? ==> o.value.breakout in {-1, 0, 1}
  {
    if |bars| < lookback + 1 then None
    else
      var highs, lows := HighWindow(bars, lookback), LowWindow(bars, lookback);
      var resistance := FitAt(highs, (lookback - 1) as real);
      var support := FitAt(lows, (lookback - 1) as real);
      var close := Ago(bars, 0).close;
      var breakout :=
        if Converging(resistance, support, highs[0], lows[0]) then
          if close > resistance + buffer then 1
          else if close < support - buffer then -1
          else 0
        else 0;
      Some(Output(breakout, resistance, support))
  }

  /** With the default lookback of 30 the indicator is undefined before the 31st bar; the
      strategy that reads it therefore starts on bar 31. */
  lemma DefaultWarmUp(bars: seq<Bar>)
    ensures TrianglePattern(bars, DefaultLookback, DefaultBreakoutBuffer).None? <==> |bars| < 31
  {
  }

  /** The signal in terms of the two trendlines and the oldest bar of the window: an upward
      breakout is a close above resistance by more than the buffer in a narrowing channel;
      a downward one is a close below support by more than the buffer, in a narrowing
      channel, when there is no upward breakout. */
  lemma BreakoutSignal(bars: seq<Bar>, lookback: nat, buffer: real)
    requires lookback >= 2 && |bars| >= lookback + 1
    ensures var o := TrianglePattern(bars, lookback, buffer).value;
      var close := Ago(bars, 0).close;
      var oldest := Ago(bars, lookback - 1);
      var converging := Converging(o.upperTrendline, o.lowerTrendline, oldest.high, oldest.low);
      && (o.breakout == 1 <==> converging && close > o.upperTrendline + buffer)
      && (o.breakout == -1 <==>
            converging && !(close > o.upperTrendline + buffer) && close < o.lowerTrendline - buffer)
      && (o.breakout == 0 <==>
            !converging || (o.lowerTrendline - buffer <= close <= o.upperTrendline + buffer))
  {
  }

  /** The upper trendline is the value on the current bar of the least-squares line through
      the window's highs (and likewise the lower one through the lows): the line solves the
      normal equations, and no other line does. */
  lemma TrendlinesAreLeastSquares(bars: seq<Bar>, lookback: nat, buffer: real)
    requires lookback >= 2 && |bars| >= lookback + 1
    ensures var o := TrianglePattern(bars, lookback, buffer).value;
      var highs, lows := HighWindow(bars, lookback), LowWindow(bars, lookback);
      && NormalEquations(highs, Slope(highs), Intercept(highs))
      && o.upperTrendline == Line(Slope(highs), Intercept(highs), (lookback - 1) as real)
      && NormalEquations(lows, Slope(lows), Intercept(lows))
      && o.lowerTrendline == Line(Slope(lows), Intercept(lows), (lookback - 1) as real)
  {
    FitSolvesNormalEquations(HighWindow(bars, lookback));
    FitSolvesNormalEquations(LowWindow(bars, lookback));
  }

  /** The highs of the window lie on the line y = slope * j + intercept. */
  ghost predicate HighsOnLine(bars: seq<Bar>, lookback: nat, slope: real, intercept: real)
    requires lookback <= |bars|
  {
    forall j :: 0 <= j < lookback ==> HighWindow(bars, lookback)[j] == Line(slope, intercept, j as real)
  }

  /** The lows of the window lie on the line y = slope * j + intercept. */
  ghost predicate LowsOnLine(bars: seq<Bar>, lookback: nat, slope: real, intercept: real)
    requires lookback <= |bars|
  {
    forall j :: 0 <= j < lookback ==> LowWindow(bars, lookback)[j] == Line(slope, intercept, j as real)
  }

  /** When the highs and lows of the window are exactly on two lines, the trendlines are
      those lines: they pass through the current bar's high and low. */
  lemma ExactTrendlines(bars: seq<Bar>, lookback: nat, buffer: real, hs: real, hc: real, ls: real, lc: real)
    requires lookback >= 2 && |bars| >= lookback + 1
    requires HighsOnLine(bars, lookback, hs, hc) && LowsOnLine(bars, lookback, ls, lc)
    ensures var o := TrianglePattern(bars, lookback, buffer).value;
      o.upperTrendline == Ago(bars, 0).high && o.lowerTrendline == Ago(bars, 0).low
  {
    FitOfExactLine(HighWindow(bars, lookback), hs, hc);
    FitOfExactLine(LowWindow(bars, lookback), ls, lc);
  }

  /** For exact lines the channel converges precisely when the line through the highs falls
      faster (or rises slower) than the line through the lows: a triangle. A parallel
      channel therefore never produces a breakout signal. */
  lemma ConvergingIffSlopesMeet(bars: seq<Bar>, lookback: nat, buffer: real, hs: real, hc: real, ls: real, lc: real)
    requires lookback >= 2 && |bars| >= lookback + 1
    requires HighsOnLine(bars, lookback, hs, hc) && LowsOnLine(bars, lookback, ls, lc)
    ensures var o := TrianglePattern(bars, lookback, buffer).value;
      var oldest := Ago(bars, lookback - 1);
      && (Converging(o.upperTrendline, o.lowerTrendline, oldest.high, oldest.low) <==> hs < ls)
      && (hs >= ls ==> o.breakout == 0)
  {
    var highs, lows := HighWindow(bars, lookback), LowWindow(bars, lookback);
    var last := (lookback - 1) as real;
    FitOfExactLine(highs, hs, hc);
    FitOfExactLine(lows, ls, lc);
    assert highs[0] == Line(hs, hc, 0.0) && lows[0] == Line(ls, lc, 0.0);
    ChannelNarrowing(hs, hc, ls, lc, last);
  }

  /** On plain numbers: the gap between two lines at x > 0 is below their gap at 0 exactly
      when the first line's slope is the smaller. */
  lemma ChannelNarrowing(hs: real, hc: real, ls: real, lc: real, x: real)
    requires x > 0.0
    ensures Line(hs, hc, x) - Line(ls, lc, x) < Line(hs, hc, 0.0) - Line(ls, lc, 0.0) <==> hs < ls
  {
    assert Line(hs, hc, x) - Line(ls, lc, x) - (Line(hs, hc, 0.0) - Line(ls, lc, 0.0)) == Arith.Mul(x, hs) - Arith.Mul(x, ls);
    if hs < ls {
      Arith.MulLeftStrict(x, hs, ls);
    } else {
      Arith.MulLeft(x, ls, hs);
    }
  }
}
