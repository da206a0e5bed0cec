/** The two-candle engulfing indicator: two boolean lines per bar. */
module Engulfing {

  import opened Bars

  datatype Signal = Signal(bullish: bool, bearish: bool)

  /** The indicator's value on the current bar `curr`, given the previous bar `prev`.
      Only the opens and closes of the two bars are read. */
  function Engulfing(prev: Bar, curr: Bar): (s: Signal)
    // the two lines need opposite signs of close - open on the current bar
    ensures !(s.bullish && s.bearish)
    // a doji (open == close) is neither
    ensures curr.open == curr.close ==> !s.bullish && !s.bearish
    ensures s.bullish ==> curr.close > curr.open
    ensures s.bearish ==> curr.close < curr.open
  {
    Signal(
      curr.close > curr.open && curr.open < prev.close && curr.close > prev.open,
      curr.close < curr.open && curr.open > prev.close && curr.close < prev.open)
  }

  /** The real body of `curr` strictly contains the real body of `prev`. */
  predicate BodyContains(prev: Bar, curr: Bar)
  {
    && Min(curr.open, curr.close) < Min(prev.open, prev.close)
    && Max(prev.open, prev.close) < Max(curr.open, curr.close)
  }

  function Min(a: real, b: real): real { if a <= b then a else b }
  function Max(a: real, b: real): real { if a <= b then b else a }

  /** When the previous candle is bearish or flat, the bullish line means what the
      textbook pattern means: a rising candle whose body swallows the previous body.
      Conversely, a rising candle that swallows a bearish or flat previous body is flagged. */
  lemma BullishIsContainmentAfterDownCandle(prev: Bar, curr: Bar)
    requires prev.close <= prev.open
    ensures Engulfing(prev, curr).bullish <==> curr.close > curr.open && BodyContains(prev, curr)
  {
  }

  /** The mirror of the above for the bearish line. */
  lemma BearishIsContainmentAfterUpCandle(prev: Bar, curr: Bar)
    requires prev.close >= prev.open
    ensures Engulfing(prev, curr).bearish <==> curr.close < curr.open && BodyContains(prev, curr)
  {
  }

  /** The code does not check the colour of the previous candle: after a rising candle
      the bullish line also fires on a mere overlap (previous 10 -> 12, current 11 -> 13),
      where the current body does not contain the previous one. */
  lemma BullishWithoutContainment()
    ensures var prev, curr := Bar(10.0, 12.0, 10.0, 12.0), Bar(11.0, 13.0, 11.0, 13.0);
      Engulfing(prev, curr).bullish && !BodyContains(prev, curr)
  {
  }

  /** All comparisons are strict: equal prices at either boundary give no signal. */
  lemma BoundariesAreStrict(prev: Bar, curr: Bar)
    requires curr.open == prev.close || curr.close == prev.open
    ensures !Engulfing(prev, curr).bullish && !Engulfing(prev, curr).bearish
  {
  }

  /** Highs and lows play no part: two bar pairs with the same opens and closes give the
      same signal. */
  lemma OnlyBodiesMatter(prev: Bar, curr: Bar, prev': Bar, curr': Bar)
    requires prev.open == prev'.open && prev.close == prev'.close
    requires curr.open == curr'.open && curr.close == curr'.close
    ensures Engulfing(prev, curr) == Engulfing(prev', curr')
  {
  }
}
