# Backtrader indicators and strategies, modelled in Dafny

This project models the decision core of a Backtrader trading-research repository. It
covers the custom indicators that turn a series of price bars into signals and levels.
It also covers the per-bar logic of three strategies that turn those signals into buy,
sell and close orders.

Indicators are pure functions of the bar series. The series is a `seq<Bar>`, oldest
first, and `Bars.Ago(bars, k)` is Backtrader's `data[-k]`. An output line that is still
NaN during warm-up is `None`. The indicators modelled are:

- `Engulfing`: the engulfing candle pattern.
- `Volatility`: the population variance of bar ranges.
- `Triangle`, with its least-squares line fit in `LeastSquares`: the triangle breakout.
- `MultiSupportResistance`, with the sorting it relies on in `Sorting`: three levels each side.
- `AtrStopTake`: ATR-scaled stop-loss and take-profit levels.

Each strategy has two parts:

- a pure `Step` function from the strategy's state and one bar's inputs to the new state
  and the order placed;
- a class with the strategy's fields, whose methods are proved to do exactly what `Step`
  says.

Most properties are lemmas about `Step` and about the indicator functions. The strategies
modelled are:

- `Breakout`: the breakout strategy with session gate, layering and martingale sizing.
- `SupportResistanceStrategy`: the moving-average support/resistance breakout.
- `EmaBollinger`: the EMA crossover with Bollinger bands. The files
  `ema_bollinger_strategy.py` and `strategy/ema_bollinger_strategy.py` are identical, and
  the one model covers both.

An order fills at once: `Orders.Filled` applies it to a signed position that stands for
the broker's position. Each bar yields one `Order` value, so a bar places at most one
buy, sell or close.

Where the code differs from the textbook pattern or from the strategy's stated rules ("Max 5 layers"), the model follows the code:

- The engulfing test does not check that the previous candle is bearish (or bullish). So
  a bullish signal does not mean the current body contains the previous one;
  `Engulfing.BullishWithoutContainment` gives two bars that show this.
- The breakout strategy keeps its stop and target prices after an exit; it does not clear
  them (`Breakout.Exits`).
- The breakout strategy's entry gate allows a layer whenever the book is flat. It also
  adds an opposite-direction layer to an open position, so the layer count can exceed
  `max_layers`; `Breakout.LayersCanExceedMaxLayers` gives such a run.
- The breakout strategy's docstring gives the session as 13:00-17:00
  (`strategy/breakout_strategy.py:7`). The default bands also admit the London band from
  8:00, so the strategy trades from 8:00 to 17:00 (`Breakout.DefaultSession`).
- The EMA strategy's docstring (`strategy/ema_bollinger_strategy.py:4-8`) asks for EMA
  crosses, and for both the crossover and the band signal on each side. The code compares
  the two EMA levels on the current bar, with no crossing. Its buy test needs both
  conditions, but its sell test takes either one (line 38).
- The support/resistance strategy's docstring (`strategy/support_resistance_strategy.py:3-12`)
  buys on hitting support, with a stop 30 pips and a target 60 pips away. The code buys on
  a close above the previous bar's resistance and sells on a close below the previous
  support (lines 33 and 39). It places the stop and target at ATR multiples (lines 35-42).

## Model

| member | source | states |
|---|---|---|
| `Engulfing.Engulfing` | indicators/engulfing_pattern.py:7-22 | the two flags are never both set, a doji sets neither, bullish implies an up candle and bearish a down candle |
| `Engulfing.BullishIsContainmentAfterDownCandle` | indicators/engulfing_pattern.py:13-15 | after a down (or doji) candle, bullish holds exactly when the current up candle's body strictly contains the previous body |
| `Engulfing.BearishIsContainmentAfterUpCandle` | indicators/engulfing_pattern.py:17-19 | after an up (or doji) candle, bearish holds exactly when the current down candle's body strictly contains the previous body |
| `Engulfing.BullishWithoutContainment` | indicators/engulfing_pattern.py:13-15 | two concrete up candles whose bodies only overlap still give a bullish signal |
| `Engulfing.BoundariesAreStrict` | indicators/engulfing_pattern.py:13-19 | when the current open equals the previous close, or the current close equals the previous open, neither signal is given |
| `Engulfing.OnlyBodiesMatter` | indicators/engulfing_pattern.py:8-11 | bars with the same opens and closes give the same signals whatever their highs and lows |
| `Orders.Filled` | strategy/support_resistance_strategy.py:33-50 | no order keeps the position, a buy raises it by the size, a sell lowers it by the size, a close makes it zero |
| `Orders.OppositeOrdersCancel` | strategy/ema_bollinger_strategy.py:35-39 | a sell undoes a buy of the same size, and a buy undoes a sell |
| `Orders.CloseIdempotent` | strategy/support_resistance_strategy.py:47-54 | closing twice leaves the position flat, as closing once does |
| `Volatility.Mean` | indicators/volatility.py:15 | the mean times the sample size is the sample's sum |
| `Volatility.Variance` | indicators/volatility.py:16 | the population variance is non-negative, and zero exactly when every value in the sample is the same |
| `Volatility.IsVolatility` | indicators/volatility.py:15-17 | a volatility value exists only once `period` bars exist; it is zero exactly when all ranges in the window are equal |
| `Volatility.VolatilityIsUnique` | indicators/volatility.py:17 | at most one non-negative value squares to the variance, so the line's value is determined |
| `Volatility.DefaultWarmUp` | indicators/volatility.py:6-10 | with the default period of 20 the value is undefined exactly before the 20th bar |
| `Volatility.Ranges` | indicators/volatility.py:14 | the sample holds, current bar first, the high minus low of each of the last `period` bars |
| `Volatility.RangeVariance` | indicators/volatility.py:10-16 | undefined exactly before `period` bars exist; then non-negative, and zero exactly when all ranges in the window are equal |
| `Volatility.SquaredDeviationsNonNegative` | indicators/volatility.py:16 | a sum of squared deviations is never negative |
| `Volatility.SquaredDeviationsPositive` | indicators/volatility.py:16 | one value away from the centre makes the sum of squared deviations positive |
| `Volatility.SumOfConstant` | indicators/volatility.py:15 | the sum of a constant sample is its size times the constant |
| `Volatility.DeviationsFromConstant` | indicators/volatility.py:16 | a constant sample has no squared deviation from that constant |
| `Volatility.VarianceNonNegative` | indicators/volatility.py:15-16 | the population variance is never negative |
| `Volatility.VarianceZeroIffConstant` | indicators/volatility.py:15-16 | the population variance is zero exactly when every value is the same |
| `Volatility.ThresholdOnVariance` | strategy/breakout_strategy.py:89 | for the non-negative square root of the variance, comparing it with a non-negative threshold is comparing the variance with the threshold squared |
| `LeastSquares.Slope` | indicators/triangle_pattern.py:20-21 | some intercept with this slope satisfies the normal equations of least squares, and every solution has this slope |
| `LeastSquares.Intercept` | indicators/triangle_pattern.py:20-21 | the intercept solves the normal equations with the fitted slope, and every solution has this intercept |
| `LeastSquares.FitAt` | indicators/triangle_pattern.py:20-24 | the value at x of every line that solves the normal equations |
| `LeastSquares.SumXClosedForm` | indicators/triangle_pattern.py:18 | 0 + 1 + ... + (n - 1) = n(n - 1)/2 |
| `LeastSquares.SumXXClosedForm` | indicators/triangle_pattern.py:18 | the sum of squares of 0 .. n - 1 is (n - 1)n(2n - 1)/6 |
| `LeastSquares.DenominatorClosedForm` | indicators/triangle_pattern.py:20-21 | the determinant of the normal equations is n²(n² - 1)/12 |
| `LeastSquares.DenominatorPositive` | indicators/triangle_pattern.py:20-21 | with two or more points the determinant is positive, so the fit is unique |
| `LeastSquares.ResidualSumClosedForm` | indicators/triangle_pattern.py:20-21 | the sum of residuals of any line equals its expression in the sums of x and y |
| `LeastSquares.WeightedResidualSumClosedForm` | indicators/triangle_pattern.py:20-21 | the x-weighted sum of residuals of any line equals its expression in the sums of x, x² and xy |
| `LeastSquares.SolvesOnSums` | indicators/triangle_pattern.py:20-21 | the closed-form slope and intercept make both residual expressions zero |
| `LeastSquares.UniqueOnSums` | indicators/triangle_pattern.py:20-21 | any slope and intercept making both residual expressions zero are the closed-form ones |
| `LeastSquares.FitSolvesNormalEquations` | indicators/triangle_pattern.py:20-21 | the fitted line satisfies the normal equations of least squares |
| `LeastSquares.NormalEquationsDetermineFit` | indicators/triangle_pattern.py:20-21 | a line satisfying the normal equations is the fitted line |
| `LeastSquares.ExactLineHasZeroResiduals` | indicators/triangle_pattern.py:20-21 | points lying on a line satisfy that line's normal equations |
| `LeastSquares.FitOfExactLine` | indicators/triangle_pattern.py:20-24 | points on a line are fitted by that line, which then passes through the last point |
| `Triangle.HighWindow` | indicators/triangle_pattern.py:15 | the window holds the last `lookback` highs, oldest first |
| `Triangle.LowWindow` | indicators/triangle_pattern.py:16 | the window holds the last `lookback` lows, oldest first |
| `Triangle.Converging` | indicators/triangle_pattern.py:28-31 | the gap between the trendlines at the current bar is smaller than the gap between the oldest high and low; equivalently, resistance rises less from the oldest high than support does from the oldest low |
| `Triangle.DefaultWarmUp` | indicators/triangle_pattern.py:6-12 | with the default lookback of 30 the indicator is undefined exactly before the 31st bar |
| `Triangle.TrianglePattern` | indicators/triangle_pattern.py:11-44 | undefined exactly before `lookback + 1` bars exist; the breakout signal is -1, 0 or 1 |
| `Triangle.BreakoutSignal` | indicators/triangle_pattern.py:26-40 | signal 1 exactly for a close above resistance plus the buffer in a narrowing channel, -1 exactly for a close below support minus the buffer otherwise, 0 in every other case |
| `Triangle.TrendlinesAreLeastSquares` | indicators/triangle_pattern.py:18-24 | each trendline is the least-squares line through the window's highs (or lows), evaluated at the current bar |
| `Triangle.ExactTrendlines` | indicators/triangle_pattern.py:18-24 | when highs and lows lie on lines, the trendlines are the current bar's high and low |
| `Triangle.ConvergingIffSlopesMeet` | indicators/triangle_pattern.py:28-40 | for exact lines the channel narrows exactly when the high line's slope is below the low line's, and a non-narrowing channel gives signal 0 |
| `Triangle.ChannelNarrowing` | indicators/triangle_pattern.py:28-31 | the gap between two lines shrinks from 0 to a positive x exactly when the upper slope is smaller |
| `Sorting.Insert` | indicators/multi_support_resistance.py:23-24 | inserting into a sorted sequence gives a sorted permutation of the sequence plus the element |
| `Sorting.Sort` | indicators/multi_support_resistance.py:23-24 | the result is sorted in the requested direction and is a permutation of the input |
| `Sorting.HeadIsExtreme` | indicators/multi_support_resistance.py:23-24 | the first sorted element is in the input and is its maximum (descending) or minimum (ascending) |
| `Sorting.ElementsFromInput` | indicators/multi_support_resistance.py:23-24 | every sorted element comes from the input |
| `MultiSupportResistance.RecentHighs` | indicators/multi_support_resistance.py:20 | element i is the high i bars ago |
| `MultiSupportResistance.RecentLows` | indicators/multi_support_resistance.py:21 | element i is the low i bars ago |
| `MultiSupportResistance.Slot` | indicators/multi_support_resistance.py:26-34 | slot k is defined exactly when the sorted list has more than k entries, and is then entry k |
| `MultiSupportResistance.MultiLevels` | indicators/multi_support_resistance.py:15-16 | the indicator is undefined exactly before `period` bars exist |
| `MultiSupportResistance.Definedness` | indicators/multi_support_resistance.py:19-34 | once defined the window is exactly `period` bars, and level k is defined exactly when `period >= k` |
| `MultiSupportResistance.LevelsOrdered` | indicators/multi_support_resistance.py:23-34 | for any period, each defined level after the first has a defined level before it, with resistance 1 >= 2 >= 3 and support 1 <= 2 <= 3 |
| `MultiSupportResistance.DefaultWarmUp` | indicators/multi_support_resistance.py:13-16 | with the default period of 80 the levels are undefined exactly before the 80th bar |
| `MultiSupportResistance.ExtremeLevels` | indicators/multi_support_resistance.py:19-32 | resistance 1 is the highest high and support 1 the lowest low of the window, both attained by a bar |
| `MultiSupportResistance.LevelsFromWindow` | indicators/multi_support_resistance.py:19-34 | every defined level is the high or low of a bar in the window |
| `AtrStopTake.LongBracket` | indicators/atr_sl_tp.py:14-16 | the entry lies ATR times the stop multiplier above the stop and ATR times the target multiplier below the target; with non-negative factors stop <= entry <= target |
| `AtrStopTake.ShortBracket` | indicators/atr_sl_tp.py:17-19 | the entry lies ATR times the stop multiplier below the stop and ATR times the target multiplier above the target; with non-negative factors target <= entry <= stop |
| `AtrStopTake.BracketsEncloseEntry` | indicators/atr_sl_tp.py:13-19 | with non-negative ATR and multipliers, long stop <= entry <= long target and short target <= entry <= short stop |
| `AtrStopTake.BracketsMirror` | indicators/atr_sl_tp.py:13-19 | short levels mirror long levels about the entry, at distances ATR times each multiplier |
| `AtrStopTake.DefaultRewardIsTwiceRisk` | indicators/atr_sl_tp.py:7 | with the default multipliers 1.5 and 3 the target is twice as far as the stop |
| `AtrStopTake.StopLossTakeProfit.constructor` | indicators/atr_sl_tp.py:5-7 | both lines start unset and the multipliers are stored |
| `AtrStopTake.StopLossTakeProfit.SetLevels` | indicators/atr_sl_tp.py:13-19 | "long" and "short" write the matching bracket; any other direction changes nothing |
| `Breakout.InSession` | strategy/breakout_strategy.py:51-55 | when the London band starts first and reaches the overlap band, the session is the single range from the London start to the overlap end; two empty bands never trade |
| `Breakout.AfterLoss` | strategy/breakout_strategy.py:120-126 | the layer count restarts; the size becomes the grown size or the cap, whichever is smaller; in the sizing domain it never shrinks; position and levels are untouched |
| `Breakout.AfterWin` | strategy/breakout_strategy.py:128-131 | the layer count restarts and the size is the initial size, the size after no losses; position and levels are untouched |
| `Breakout.Enter` | strategy/breakout_strategy.py:88-118 | a buy exactly on the long signal and otherwise a sell on the short signal, of the current layer size; a layer adds one to the count and sets stop and target their fixed distances from the close; no signal changes nothing |
| `Breakout.Step` | strategy/breakout_strategy.py:57-118 | orders only in session, a close only with a position open; the position moves by the order, a close restarts the layer count, and a bar without an order changes nothing |
| `Breakout.DefaultSession` | strategy/breakout_strategy.py:51-55 | with the default bands the session is the hours 8 to 16 |
| `Breakout.OutOfSessionIdle` | strategy/breakout_strategy.py:58-59 | outside the session no order is placed and no field changes |
| `Breakout.Exits` | strategy/breakout_strategy.py:64-85 | a close happens exactly when, in session, the stop or target is touched; it flattens, resets the layer count, applies the loss rule on a stop (even if the target is also touched) and the reset on a target |
| `Breakout.LongExit` | strategy/breakout_strategy.py:66-74 | a long position closes exactly at close <= stop or close >= target |
| `Breakout.ShortExit` | strategy/breakout_strategy.py:77-85 | a short position closes exactly at close >= stop or close <= target |
| `Breakout.LongEntry` | strategy/breakout_strategy.py:88-104 | a buy of the layer size happens exactly when in session, no exit, layering allowed and the long signal holds; it adds a layer and sets stop and target at the fixed distances |
| `Breakout.ShortEntry` | strategy/breakout_strategy.py:106-118 | a sell happens exactly when the long signal fails and the short one holds under the same gates, with the mirrored levels |
| `Breakout.LayerCap` | strategy/breakout_strategy.py:88 | with a position open and `max_layers` layers built, no layer is added |
| `Breakout.LayersCanExceedMaxLayers` | strategy/breakout_strategy.py:88-118 | opposite layers can flatten the book, after which a third layer is placed with `max_layers` = 2 |
| `Breakout.NoOrderNoChange` | strategy/breakout_strategy.py:57-118 | a bar that places no order leaves every field unchanged |
| `Breakout.StepConsistent` | strategy/breakout_strategy.py:99-118 | stop and target stay set whenever a position is open |
| `Breakout.PowAtLeastOne` | strategy/breakout_strategy.py:125 | a power of a multiplier of at least one is at least one |
| `Breakout.BaseWithinCap` | strategy/breakout_strategy.py:123-126 | the base size is between zero and the cap |
| `Breakout.LossSizeBounded` | strategy/breakout_strategy.py:123-126 | the loss rule never shrinks a size and never exceeds the cap |
| `Breakout.LossStep` | strategy/breakout_strategy.py:120-126 | the loss rule takes the size after n losses to the size after n + 1 |
| `Breakout.ConsecutiveLosses` | strategy/breakout_strategy.py:120-126 | after n consecutive losses from the base size the size is min(base·m^n, base·m^(max_layers-1)) |
| `Breakout.StepKeepsSizeInRange` | strategy/breakout_strategy.py:120-131 | every bar keeps the layer size between the base size and the cap |
| `Breakout.StepFollowsLosingStreak` | strategy/breakout_strategy.py:64-85 | a stop moves the size to the next streak length, a target resets it to the base, other bars keep it |
| `Breakout.BreakoutStrategy.constructor` | strategy/breakout_strategy.py:41-49 | flat, base layer size, no layers, no levels |
| `Breakout.BreakoutStrategy.OnLoss` | strategy/breakout_strategy.py:120-126 | resets the layer count and applies the capped martingale rule, keeping the size equal to the size after the losing streak |
| `Breakout.BreakoutStrategy.OnWin` | strategy/breakout_strategy.py:128-131 | resets the layer count and the size to the base size |
| `Breakout.BreakoutStrategy.Next` | strategy/breakout_strategy.py:57-118 | the new fields and the order are those of `Step`; the losing streak grows by one on a stop exit, restarts on a target exit and is otherwise kept, and the sizing invariant is kept |
| `SupportResistanceStrategy.Step` | strategy/support_resistance_strategy.py:30-50 | entries only when flat and closes only in a position; the position moves by the order placed, and a bar without an order changes nothing |
| `SupportResistanceStrategy.OnStop` | strategy/support_resistance_strategy.py:52-54 | the position ends flat, a close is placed exactly when one was open, and the levels are untouched |
| `SupportResistanceStrategy.FlatLongEntry` | strategy/support_resistance_strategy.py:31-36 | when flat, a buy of one stake exactly when the close is above the MA and the previous resistance, with the long ATR bracket |
| `SupportResistanceStrategy.FlatShortEntry` | strategy/support_resistance_strategy.py:38-42 | when flat, a sell exactly when the long test fails and the close is below the MA and the previous support, with the short bracket |
| `SupportResistanceStrategy.InPositionOnlyExits` | strategy/support_resistance_strategy.py:44-50 | in a position the bar closes exactly when a level is touched, otherwise does nothing |
| `SupportResistanceStrategy.StepInvariant` | strategy/support_resistance_strategy.py:30-50 | levels stay set while in a position and the position stays at zero or one stake |
| `SupportResistanceStrategy.EntryLevelsEncloseClose` | strategy/support_resistance_strategy.py:35-42 | an entry's stop and target lie on the expected sides of the close |
| `SupportResistanceStrategy.StopFlattens` | strategy/support_resistance_strategy.py:30-54 | after any bar, `stop` leaves the book flat and closes exactly when a position is open |
| `SupportResistanceStrategy.DefaultLongEntry` | strategy/support_resistance_strategy.py:20-36 | with the default multipliers and stake, a long entry buys one unit with the target twice as far from the close as the stop |
| `SupportResistanceStrategy.MVSupportResistanceStrategy.constructor` | strategy/support_resistance_strategy.py:22-28 | flat, with no levels |
| `SupportResistanceStrategy.MVSupportResistanceStrategy.Next` | strategy/support_resistance_strategy.py:30-50 | the new fields and the order are those of `Step` |
| `SupportResistanceStrategy.MVSupportResistanceStrategy.Stop` | strategy/support_resistance_strategy.py:52-54 | the new fields and the order are those of `OnStop` |
| `EmaBollinger.Step` | strategy/ema_bollinger_strategy.py:28-39 | the order is nothing, a buy of the size or a sell of the size; the position moves by it, and no order changes nothing |
| `EmaBollinger.Notify` | strategy/ema_bollinger_strategy.py:41-43 | the position is untouched, the pending order is kept or cleared, and a completion always clears it |
| `EmaBollinger.DefaultFirstOrder` | strategy/ema_bollinger_strategy.py:14-35 | from the start with the default size, the first bar buys 100 exactly when the buy test holds, and never sells |
| `EmaBollinger.PendingBlocks` | ema_bollinger_strategy.py:29-30 | while an order is pending a bar places nothing and changes nothing |
| `EmaBollinger.FlatBuysOnSignal` | ema_bollinger_strategy.py:32-35 | flat and not waiting, a buy of `size` exactly when the short EMA is above the long one and the close is below the lower band, recorded as pending |
| `EmaBollinger.HeldSellsOnSignal` | ema_bollinger_strategy.py:36-39 | in the market and not waiting, a sell of `size` exactly when the close is above the upper band or the short EMA is below the long one |
| `EmaBollinger.OnlyCompletedClears` | ema_bollinger_strategy.py:41-43 | the pending order is cleared exactly by a `Completed` report; other reports change nothing |
| `EmaBollinger.EqualEmas` | strategy/ema_bollinger_strategy.py:34-38 | equal EMAs never buy, and an exit then happens exactly above the upper band |
| `EmaBollinger.OrdersAreRecorded` | strategy/ema_bollinger_strategy.py:32-39 | an order is only placed with nothing pending and becomes the pending order |
| `EmaBollinger.PositionInvariant` | strategy/ema_bollinger_strategy.py:28-43 | the position stays flat or at one order's size across bars and reports |
| `EmaBollinger.PendingUntilCompleted` | strategy/ema_bollinger_strategy.py:28-43 | with no `Completed` report in a run of events, a pending order blocks every bar: no order, no change |
| `EmaBollinger.AtMostOneOrderPerCompletion` | strategy/ema_bollinger_strategy.py:28-43 | with no `Completed` report in a run of events, at most one order is placed |
| `EmaBollinger.EMABollingerStrategy.constructor` | strategy/ema_bollinger_strategy.py:22-26 | flat, with nothing pending |
| `EmaBollinger.EMABollingerStrategy.Next` | strategy/ema_bollinger_strategy.py:28-39 | the new fields and the order are those of `Step`, keeping the position invariant |
| `EmaBollinger.EMABollingerStrategy.NotifyOrder` | strategy/ema_bollinger_strategy.py:41-43 | the new fields are those of `Notify` |

## Left out

- Floating point: prices are exact reals. NaN is `None`, IEEE rounding is not modelled, and neither are comparisons with NaN.
- `Volatility.RangeVariance`: the indicator line holds `math.sqrt` of this value. The square root is not computed; `Volatility.IsVolatility` and `Volatility.ThresholdOnVariance` describe it instead.
- `Volatility.RangeVariance`: requires `period > 0`, because the source divides by the period and fails at 0.
- `Triangle.TrianglePattern`: requires `lookback >= 2`, because a line fit through one point (or none) has no unique solution. `numpy.polyfit` is replaced by the exact closed-form least-squares line.
- `Breakout.BreakoutStrategy.Next`: requires `max_layers >= 1`. With 0 the cap in `_on_loss` raises the multiplier to a negative power, which is not modelled.
- Engulfing on the very first bar, where the source reads index -1 before a previous bar exists: `Engulfing.Engulfing` always takes two bars.
- Backtrader order handling is not modelled: asynchronous fills, the order status lifecycle, the broker's cash, margin and commission, and the default sizer. Orders fill at once on the bar that places them. For `EmaBollinger` this means the position changes when the order is placed, and reports only clear the pending flag.
- Library indicators are inputs, not computed: ATR, EMA, SMA, Bollinger bands, Highest and Lowest. So are the thin wrappers over them, `indicators/moving_average.py` and `indicators/support_resistance.py`.
- `Breakout.Inputs` takes the trendlines, the engulfing flags and the volatility as free inputs. Nothing composes `Breakout.Step` with `Triangle.TrianglePattern`, `Engulfing.Engulfing` or `Volatility.RangeVariance`. The warm-up that keeps Backtrader from calling `next` before the indicators are defined (31 bars by default) is not modelled either.
- The bar's clock is an input: the strategy receives the hour of the bar's timestamp.
- `backtest.py` and `save_data.py` are not part of this model: data download, CSV I/O, engine setup, analyzers and plotting.
