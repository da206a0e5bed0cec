/** Price bars as the indicators and strategies see them. */
module Bars {

  /** One OHLC bar. Prices are modelled as reals. */
  datatype Bar = Bar(open: real, high: real, low: real, close: real)

  /** A bar series is a sequence of bars, oldest first; the current bar is the last one.
      `Ago(bars, k)` is backtrader's `data[-k]`: the bar `k` bars before the current one. */
  function Ago(bars: seq<Bar>, k: nat): (b: Bar)
    requires k < |bars|
    ensures b in bars
  {
    bars[|bars| - 1 - k]
  }
}
