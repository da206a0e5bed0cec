/** The BreakoutStrategy: trendline breakouts confirmed by an engulfing candle and a
    volatility filter, traded only in session hours, with fixed stop-loss / take-profit
    distances, same-direction layering and martingale sizing after losses. */
module Breakout {

  import opened Wrappers
  import opened Orders
  import Arith

  /** Two trading-hour bands; starts inclusive, ends exclusive. */
  datatype SessionBands = SessionBands(overlapStart: int, overlapEnd: int, londonStart: int, londonEnd: int)

  datatype Config = Config(
    baseLayerSize: real,
    maxLayers: nat,
    slPips: real,
    tpPips: real,
    multiplier: real,
    volatilityThreshold: real,
    breakoutBuffer: real,
    bands: SessionBands)

  const DefaultBands := SessionBands(13, 17, 8, 16)
  const Defaults := Config(0.01, 5, 0.50, 1.00, 2.0, 0.05, 0.10, DefaultBands)

  /** The parameter domain the sizing properties need: a non-negative base size, a
      multiplier that does not shrink the size, and at least one layer. */
  predicate ValidConfig(c: Config)
  {
    c.baseLayerSize >= 0.0 && c.multiplier >= 1.0 && c.maxLayers >= 1
  }

  /** The strategy's fields, with the broker's signed position. */
  datatype State = State(
    position: real,
    layerSize: real,
    layersBuilt: nat,
    stopLoss: Option<real>,
    takeProfit: Option<real>)

  /** What `next` reads on one bar: the bar's hour and close, and the indicator lines. */
  datatype Inputs = Inputs(
    hour: int,
    close: real,
    upperTrendline: real,
    lowerTrendline: real,
    bullish: bool,
    bearish: bool,
    volatility: real)

  /** The new state and the order placed on the bar. */
  datatype Outcome = Outcome(state: State, order: Order)

  /** The state before the first bar. */
  function Initial(c: Config): State
  {
    State(0.0, c.baseLayerSize, 0, None, None)
  }

  /** Stop and target prices are set whenever a position is open (every entry sets both). */
  predicate Consistent(s: State)
  {
    s.position != 0.0 ==> s.stopLoss.Some? && s.takeProfit.Some?
  }

  /** The hour lies in either band. When the bands overlap or touch (the London band
      starting first and the overlap band ending last), the session is the single range
      from the London start up to the overlap end; two empty bands never trade. */
  predicate InSession(b: SessionBands, hour: int)
    ensures b.londonStart <= b.overlapStart <= b.londonEnd <= b.overlapEnd ==>
      (InSession(b, hour) <==> b.londonStart <= hour < b.overlapEnd)
    ensures b.overlapEnd <= b.overlapStart && b.londonEnd <= b.londonStart ==> !InSession(b, hour)
  {
    (b.overlapStart <= hour < b.overlapEnd) || (b.londonStart <= hour < b.londonEnd)
  }

  /** m^k. */
  function Pow(m: real, k: nat): real
  {
    if k == 0 then 1.0 else Arith.Mul(Pow(m, k - 1), m)
  }

  /** The largest layer size: the base size grown by the multiplier max_layers - 1 times. */
  function Cap(c: Config): real
    requires c.maxLayers >= 1
  {
    Arith.Mul(c.baseLayerSize, Pow(c.multiplier, c.maxLayers - 1))
  }

  function Min(a: real, b: real): real { if a <= b then a else b }

  /** Layer size after a losing exit. */
  function LossSize(c: Config, size: real): real
    requires c.maxLayers >= 1
  {
    Min(Arith.Mul(size, c.multiplier), Cap(c))
  }

  /** `_on_loss`: the layer count restarts and the layer size is multiplied by the
      multiplier unless that passes the cap, in which case it is the cap; for parameters in
      the sizing domain a size within the cap never shrinks. Nothing else changes. */
  function AfterLoss(c: Config, s: State): (r: State)
    requires c.maxLayers >= 1
    ensures r.layersBuilt == 0
    ensures r.position == s.position && r.stopLoss == s.stopLoss && r.takeProfit == s.takeProfit
    ensures r.layerSize <= Cap(c) && r.layerSize <= Arith.Mul(s.layerSize, c.multiplier)
    ensures r.layerSize == Cap(c) || r.layerSize == Arith.Mul(s.layerSize, c.multiplier)
    ensures ValidConfig(c) && 0.0 <= s.layerSize <= Cap(c) ==> s.layerSize <= r.layerSize
  {
    var r := s.(layersBuilt := 0, layerSize := LossSize(c, s.layerSize));
    if ValidConfig(c) && 0.0 <= s.layerSize <= Cap(c) then LossSizeBounded(c, s.layerSize); r else r
  }

  /** `_on_win`: the layer count restarts and the layer size returns to its initial value,
      the size after no losses. Nothing else changes. */
  function AfterWin(c: Config, s: State): (r: State)
    ensures r.layersBuilt == 0 && r.layerSize == Initial(c).layerSize
    ensures r.position == s.position && r.stopLoss == s.stopLoss && r.takeProfit == s.takeProfit
    ensures ValidConfig(c) ==> r.layerSize == SizeAfterLosses(c, 0)
  {
    var r := s.(layersBuilt := 0, layerSize := c.baseLayerSize);
    if ValidConfig(c) then BaseWithinCap(c); assert Pow(c.multiplier, 0) == 1.0; r else r
  }

  /** A long position's stop is hit, or a short position's. */
  predicate StopHit(s: State, close: real)
    requires Consistent(s)
  {
    || (s.position > 0.0 && close <= s.stopLoss.value)
    || (s.position < 0.0 && close >= s.stopLoss.value)
  }

  /** A long position's target is reached, or a short position's. */
  predicate TargetHit(s: State, close: real)
    requires Consistent(s)
  {
    || (s.position > 0.0 && close >= s.takeProfit.value)
    || (s.position < 0.0 && close <= s.takeProfit.value)
  }

  /** Entries are tried when flat, or while fewer than max_layers layers are built. */
  predicate MayEnter(c: Config, s: State)
  {
    s.position == 0.0 || s.layersBuilt < c.maxLayers
  }

  predicate LongSignal(c: Config, i: Inputs)
  {
    i.close > i.upperTrendline + c.breakoutBuffer && i.bullish && i.volatility >= c.volatilityThreshold
  }

  predicate ShortSignal(c: Config, i: Inputs)
  {
    i.close < i.lowerTrendline - c.breakoutBuffer && i.bearish && i.volatility >= c.volatilityThreshold
  }

  /** The entry logic: a long layer if the long signal holds, otherwise a short layer if the
      short signal holds. A layer orders the current layer size, counts one more layer,
      and sets the stop and the target their fixed distances from the close on the side
      of its direction; no signal changes nothing. */
  function Enter(c: Config, s: State, i: Inputs): (o: Outcome)
    ensures o.order == NoOrder || o.order == Buy(s.layerSize) || o.order == Sell(s.layerSize)
    ensures o.order == NoOrder <==> !LongSignal(c, i) && !ShortSignal(c, i)
    ensures o.order.Buy? <==> LongSignal(c, i)
    ensures o.state.position == Filled(s.position, o.order)
    ensures o.order == NoOrder ==> o.state == s
    ensures o.order != NoOrder ==>
      && o.state.layersBuilt == s.layersBuilt + 1 && o.state.layerSize == s.layerSize
      && o.state.stopLoss.Some? && o.state.takeProfit.Some?
    ensures o.order.Buy? ==>
      i.close - o.state.stopLoss.value == c.slPips && o.state.takeProfit.value - i.close == c.tpPips
    ensures o.order.Sell? ==>
      o.state.stopLoss.value - i.close == c.slPips && i.close - o.state.takeProfit.value == c.tpPips
  {
    if LongSignal(c, i) then
      Outcome(
        State(Filled(s.position, Buy(s.layerSize)), s.layerSize, s.layersBuilt + 1,
              Some(i.close - c.slPips), Some(i.close + c.tpPips)),
        Buy(s.layerSize))
    else if ShortSignal(c, i) then
      Outcome(
        State(Filled(s.position, Sell(s.layerSize)), s.layerSize, s.layersBuilt + 1,
              Some(i.close + c.slPips), Some(i.close - c.tpPips)),
        Sell(s.layerSize))
    else Outcome(s, NoOrder)
  }

  /** One call of `next`: the session gate, then the exits (the stop before the target),
      then the entries. An exit ends the bar. Orders come only in session, a close only
      with a position open; the position moves by the order placed, and a bar that places
      nothing changes nothing. */
  function Step(c: Config, s: State, i: Inputs): (o: Outcome)
    requires c.maxLayers >= 1 && Consistent(s)
    ensures o.state.position == Filled(s.position, o.order)
    ensures o.order == NoOrder ==> o.state == s
    ensures o.order != NoOrder ==> InSession(c.bands, i.hour)
    ensures o.order == Close ==> s.position != 0.0 && o.state.layersBuilt == 0
  {
    if !InSession(c.bands, i.hour) then Outcome(s, NoOrder)
    else if StopHit(s, i.close) then
      Outcome(AfterLoss(c, s.(position := Filled(s.position, Close))), Close)
    else if TargetHit(s, i.close) then
      Outcome(AfterWin(c, s.(position := Filled(s.position, Close))), Close)
    else if MayEnter(c, s) then Enter(c, s, i)
    else Outcome(s, NoOrder)
  }

  /** Layer size after `n` consecutive losses, starting from the base size. */
  function SizeAfterLosses(c: Config, n: nat): real
    requires c.maxLayers >= 1
  {
    Min(Arith.Mul(c.baseLayerSize, Pow(c.multiplier, n)), Cap(c))
  }

  /** `n` successive applications of the loss rule to `size`. */
  function LossesFrom(c: Config, size: real, n: nat): real
    requires c.maxLayers >= 1
  {
    if n == 0 then size else LossSize(c, LossesFrom(c, size, n - 1))
  }

  // ---------------------------------------------------------------- session

  /** With the default bands (13-17 and 8-16) the session is the hours 8 to 16 inclusive. */
  lemma DefaultSession(hour: int)
    ensures InSession(DefaultBands, hour) <==> 8 <= hour < 17
  {
  }

  /** Outside the session nothing happens: no order, and every field keeps its value. */
  lemma OutOfSessionIdle(c: Config, s: State, i: Inputs)
    requires c.maxLayers >= 1 && Consistent(s)
    requires !InSession(c.bands, i.hour)
    ensures Step(c, s, i) == Outcome(s, NoOrder)
  {
  }

  // ---------------------------------------------------------------- exits

  /** A bar closes the position exactly when, in session, the stop or the target of the
      open position is touched; the position is then flat and the layer count restarts.
      A stop takes the loss path even when the target is touched too. */
  lemma Exits(c: Config, s: State, i: Inputs)
    requires c.maxLayers >= 1 && Consistent(s)
    ensures var o := Step(c, s, i);
      && (o.order == Close <==> InSession(c.bands, i.hour) && (StopHit(s, i.close) || TargetHit(s, i.close)))
      && (o.order == Close ==> o.state.position == 0.0 && o.state.layersBuilt == 0)
      && (o.order == Close && StopHit(s, i.close) ==> o.state.layerSize == LossSize(c, s.layerSize))
      && (o.order == Close && !StopHit(s, i.close) ==> o.state.layerSize == c.baseLayerSize)
      && (o.order == Close ==> o.state.stopLoss == s.stopLoss && o.state.takeProfit == s.takeProfit)
  {
  }

  /** The long exits in the terms of the price levels: a long position is closed at a
      close at or below its stop, or at or above its target. */
  lemma LongExit(c: Config, s: State, i: Inputs)
    requires c.maxLayers >= 1 && Consistent(s)
    requires InSession(c.bands, i.hour) && s.position > 0.0
    ensures Step(c, s, i).order == Close <==>
      i.close <= s.stopLoss.value || i.close >= s.takeProfit.value
  {
  }

  /** The short exits: at or above the stop, or at or below the target. */
  lemma ShortExit(c: Config, s: State, i: Inputs)
    requires c.maxLayers >= 1 && Consistent(s)
    requires InSession(c.bands, i.hour) && s.position < 0.0
    ensures Step(c, s, i).order == Close <==>
      i.close >= s.stopLoss.value || i.close <= s.takeProfit.value
  {
  }

  // ---------------------------------------------------------------- entries

  /** A long layer is bought exactly when, in session and with no exit, layering is allowed
      and the long signal holds. It orders the current layer size, adds one layer, keeps
      the layer size, and sets the stop and target the fixed distances from the close. */
  lemma LongEntry(c: Config, s: State, i: Inputs)
    requires c.maxLayers >= 1 && Consistent(s)
    ensures var o := Step(c, s, i);
      && (o.order.Buy? <==>
            InSession(c.bands, i.hour) && !StopHit(s, i.close) && !TargetHit(s, i.close)
            && MayEnter(c, s) && LongSignal(c, i))
      && (o.order.Buy? ==>
            && o.order.size == s.layerSize
            && o.state.position == s.position + s.layerSize
            && o.state.layersBuilt == s.layersBuilt + 1
            && o.state.layerSize == s.layerSize
            && o.state.stopLoss == Some(i.close - c.slPips)
            && o.state.takeProfit == Some(i.close + c.tpPips))
  {
  }

  /** A short layer is sold exactly when everything a long entry needs holds except the
      long signal, and the short signal holds; the long side has priority. */
  lemma ShortEntry(c: Config, s: State, i: Inputs)
    requires c.maxLayers >= 1 && Consistent(s)
    ensures var o := Step(c, s, i);
      && (o.order.Sell? <==>
            InSession(c.bands, i.hour) && !StopHit(s, i.close) && !TargetHit(s, i.close)
            && MayEnter(c, s) && !LongSignal(c, i) && ShortSignal(c, i))
      && (o.order.Sell? ==>
            && o.order.size == s.layerSize
            && o.state.position == s.position - s.layerSize
            && o.state.layersBuilt == s.layersBuilt + 1
            && o.state.layerSize == s.layerSize
            && o.state.stopLoss == Some(i.close + c.slPips)
            && o.state.takeProfit == Some(i.close - c.tpPips))
  {
  }

  /** With a position open and max_layers layers built, no further layer is added. */
  lemma LayerCap(c: Config, s: State, i: Inputs)
    requires c.maxLayers >= 1 && Consistent(s)
    requires s.position != 0.0 && s.layersBuilt >= c.maxLayers
    ensures !Step(c, s, i).order.Buy? && !Step(c, s, i).order.Sell?
  {
  }

  /** The layer count is not bounded by max_layers: a short layer can cancel a long one,
      leaving the position flat, and a flat book may always enter. With max_layers = 2, a
      long layer, then a short layer of the same size, then a long layer give three
      layers. */
  lemma LayersCanExceedMaxLayers()
    ensures var c := Defaults.(maxLayers := 2);
      var up := Inputs(13, 1.0, 0.5, 0.0, true, false, 1.0);
      var down := Inputs(13, 1.0, 5.0, 1.5, false, true, 1.0);
      var s1 := Step(c, Initial(c), up).state;
      var s2 := Step(c, s1, down).state;
      && s2.position == 0.0 && s2.layersBuilt == 2
      && Step(c, s2, up).order == Buy(c.baseLayerSize)
      && Step(c, s2, up).state.layersBuilt == 3 > c.maxLayers
  {
  }

  /** A bar that places no order changes no field. */
  lemma NoOrderNoChange(c: Config, s: State, i: Inputs)
    requires c.maxLayers >= 1 && Consistent(s)
    ensures Step(c, s, i).order == NoOrder ==> Step(c, s, i).state == s
  {
  }

  /** Every step keeps stop and target set while a position is open. */
  lemma StepConsistent(c: Config, s: State, i: Inputs)
    requires c.maxLayers >= 1 && Consistent(s)
    ensures Consistent(Step(c, s, i).state)
  {
  }

  // ---------------------------------------------------------------- sizing

  lemma {:induction false} PowAtLeastOne(m: real, k: nat)
    requires m >= 1.0
    ensures Pow(m, k) >= 1.0
  {
    if k > 0 {
      PowAtLeastOne(m, k - 1);
      Arith.MulLeft(Pow(m, k - 1), 1.0, m);
    }
  }

  /** The base size is within the cap. */
  lemma BaseWithinCap(c: Config)
    requires ValidConfig(c)
    ensures 0.0 <= c.baseLayerSize <= Cap(c)
  {
    PowAtLeastOne(c.multiplier, c.maxLayers - 1);
    Arith.MulLeft(c.baseLayerSize, 1.0, Pow(c.multiplier, c.maxLayers - 1));
  }

  /** The loss rule never goes above the cap, and never shrinks a size within the cap. */
  lemma LossSizeBounded(c: Config, size: real)
    requires ValidConfig(c) && 0.0 <= size <= Cap(c)
    ensures size <= LossSize(c, size) <= Cap(c)
  {
    Arith.MulLeft(size, 1.0, c.multiplier);
  }

  /** The loss rule applied to the size after n losses gives the size after n + 1. */
  lemma LossStep(c: Config, n: nat)
    requires ValidConfig(c)
    ensures LossSize(c, SizeAfterLosses(c, n)) == SizeAfterLosses(c, n + 1)
  {
    var b, m, cap := c.baseLayerSize, c.multiplier, Cap(c);
    var p := Pow(m, n);
    BaseWithinCap(c);
    PowAtLeastOne(m, n);
    Arith.MulNonNegative(b, p);
    assert Arith.Mul(b, Pow(m, n + 1)) == Arith.Mul(Arith.Mul(b, p), m);
    Arith.MulLeft(Arith.Mul(b, p), 1.0, m);
    Arith.MulLeft(cap, 1.0, m);
  }

  /** After n consecutive losses from the base size the layer size is
      min(base * m^n, base * m^(max_layers - 1)). */
  lemma {:induction false} ConsecutiveLosses(c: Config, n: nat)
    requires ValidConfig(c)
    ensures LossesFrom(c, c.baseLayerSize, n) == SizeAfterLosses(c, n)
  {
    if n == 0 {
      BaseWithinCap(c);
    } else {
      ConsecutiveLosses(c, n - 1);
      LossStep(c, n - 1);
    }
  }

  /** The layer size always lies between the base size and the cap: every step keeps it
      there. */
  lemma StepKeepsSizeInRange(c: Config, s: State, i: Inputs)
    requires ValidConfig(c) && Consistent(s)
    requires c.baseLayerSize <= s.layerSize <= Cap(c)
    ensures c.baseLayerSize <= Step(c, s, i).state.layerSize <= Cap(c)
  {
    BaseWithinCap(c);
    LossSizeBounded(c, s.layerSize);
  }

  /** A losing exit applies the loss rule to the size; a winning exit resets it; no other
      bar changes it. So along any run the size is the one after the current losing
      streak. */
  lemma StepFollowsLosingStreak(c: Config, s: State, i: Inputs, streak: nat)
    requires ValidConfig(c) && Consistent(s)
    requires s.layerSize == SizeAfterLosses(c, streak)
    ensures var o := Step(c, s, i);
      && (o.order == Close && StopHit(s, i.close) ==> o.state.layerSize == SizeAfterLosses(c, streak + 1))
      && (o.order == Close && !StopHit(s, i.close) ==> o.state.layerSize == SizeAfterLosses(c, 0))
      && (o.order != Close ==> o.state.layerSize == SizeAfterLosses(c, streak))
  {
    LossStep(c, streak);
    BaseWithinCap(c);
    assert Pow(c.multiplier, 0) == 1.0;
  }

  /** The strategy object. Its parameters are fixed at construction; `position` stands
      for the broker's position, which the strategy's orders change. */
  class BreakoutStrategy {
    const config: Config
    var position: real
    var layerSize: real
    var layersBuilt: nat
    var stopLossPrice: Option<real>
    var takeProfitPrice: Option<real>
    /** Number of losing exits since the last winning one (or the start). */
    ghost var losingStreak: nat

    function Snapshot(): State
      reads this
    {
      State(position, layerSize, layersBuilt, stopLossPrice, takeProfitPrice)
    }

    /** Stop and target are set while a position is open, and, for parameters in the
        sizing domain, the layer size is the one after the current losing streak. */
    ghost predicate Valid()
      reads this
    {
      && config.maxLayers >= 1
      && Consistent(Snapshot())
      && (ValidConfig(config) ==> layerSize == SizeAfterLosses(config, losingStreak))
    }

    constructor(config: Config)
      requires config.maxLayers >= 1
      ensures this.config == config
      ensures Snapshot() == Initial(config)
      ensures Valid()
    {
      this.config := config;
      position := 0.0;
      layerSize := config.baseLayerSize;
      layersBuilt := 0;
      stopLossPrice := None;
      takeProfitPrice := None;
      losingStreak := 0;
      new;
      if ValidConfig(config) {
        BaseWithinCap(config);
        assert Pow(config.multiplier, 0) == 1.0;
      }
    }

    /** `_on_loss`. */
    method OnLoss()
      requires Valid()
      modifies this
      ensures Snapshot() == AfterLoss(config, old(Snapshot()))
      ensures losingStreak == old(losingStreak) + 1
      ensures Valid()
    {
      if ValidConfig(config) {
        LossStep(config, losingStreak);
      }
      layersBuilt := 0;
      var grown := layerSize * config.multiplier;
      var cap := config.baseLayerSize * Pow(config.multiplier, config.maxLayers - 1);
      layerSize := if grown <= cap then grown else cap;
      losingStreak := losingStreak + 1;
    }

    /** `_on_win`. */
    method OnWin()
      requires Valid()
      modifies this
      ensures Snapshot() == AfterWin(config, old(Snapshot()))
      ensures losingStreak == 0
      ensures Valid()
    {
      if ValidConfig(config) {
        BaseWithinCap(config);
        assert Pow(config.multiplier, 0) == 1.0;
      }
      layersBuilt := 0;
      layerSize := config.baseLayerSize;
      losingStreak := 0;
    }

    /** `next`: one bar, returning the order it places. */
    method Next(i: Inputs) returns (order: Order)
      requires Valid()
      modifies this
      ensures Valid()
      ensures Snapshot() == Step(config, old(Snapshot()), i).state
      ensures order == Step(config, old(Snapshot()), i).order
      ensures order == Close && StopHit(old(Snapshot()), i.close) ==> losingStreak == old(losingStreak) + 1
      ensures order == Close && !StopHit(old(Snapshot()), i.close) ==> losingStreak == 0
      ensures order != Close ==> losingStreak == old(losingStreak)
    {
      if !InSession(config.bands, i.hour) {
        return NoOrder;
      }
      var close := i.close;

      if position != 0.0 {
        if position > 0.0 {
          if close <= stopLossPrice.value {
            order := Close;
            position := 0.0;
            OnLoss();
            return;
          } else if close >= takeProfitPrice.value {
            order := Close;
            position := 0.0;
            OnWin();
            return;
          }
        } else if position < 0.0 {
          if close >= stopLossPrice.value {
            order := Close;
            position := 0.0;
            OnLoss();
            return;
          } else if close <= takeProfitPrice.value {
            order := Close;
            position := 0.0;
            OnWin();
            return;
          }
        }
      }

      if position == 0.0 || layersBuilt < config.maxLayers {
        var volOk := i.volatility >= config.volatilityThreshold;
        var buffer := config.breakoutBuffer;

        var longCond := close > i.upperTrendline + buffer && i.bullish && volOk;
        if longCond {
          order := Buy(layerSize);
          position := position + layerSize;
          layersBuilt := layersBuilt + 1;
          stopLossPrice := Some(close - config.slPips);
          takeProfitPrice := Some(close + config.tpPips);
          return;
        }

        var shortCond := close < i.lowerTrendline - buffer && i.bearish && volOk;
        if shortCond {
          order := Sell(layerSize);
          position := position - layerSize;
          layersBuilt := layersBuilt + 1;
          stopLossPrice := Some(close + config.slPips);
          takeProfitPrice := Some(close - config.tpPips);
          return;
        }
      }
      order := NoOrder;
    }
  }
}
