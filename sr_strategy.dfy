/** The MVSupportResistanceStrategy: enter on a close beyond the previous bar's resistance
    (or support) on the right side of a moving average, exit at ATR-scaled levels. */
module SupportResistanceStrategy {

  import opened Wrappers
  import opened Orders
  import opened AtrStopTake

  /** `stake` is the size the default sizer gives a plain buy() or sell(). */
  datatype Config = Config(slMult: real, tpMult: real, stake: real)

  /** The default parameters: stop 1.5 ATRs and target 3 ATRs away, and the default
      sizer's stake of one unit. */
  const Defaults: Config := Config(DefaultSlMult, DefaultTpMult, 1.0)

  datatype State = State(position: real, stopLoss: Option<real>, takeProfit: Option<real>)

  /** What `next` reads: the close, the moving average, the previous bar's resistance and
      support, and the ATR. */
  datatype Inputs = Inputs(close: real, ma: real, prevResistance: real, prevSupport: real, atr: real)

  datatype Outcome = Outcome(state: State, order: Order)

  function Initial(): State
  {
    State(0.0, None, None)
  }

  predicate Consistent(s: State)
  {
    s.position != 0.0 ==> s.stopLoss.Some? && s.takeProfit.Some?
  }

  predicate LongSignal(i: Inputs)
  {
    i.close > i.ma && i.close > i.prevResistance
  }

  predicate ShortSignal(i: Inputs)
  {
    i.close < i.ma && i.close < i.prevSupport
  }

  /** The open position's stop or target is touched. */
  predicate ExitHit(s: State, close: real)
    requires Consistent(s)
  {
    || (s.position > 0.0 && (close <= s.stopLoss.value || close >= s.takeProfit.value))
    || (s.position < 0.0 && (close >= s.stopLoss.value || close <= s.takeProfit.value))
  }

  /** One call of `next`: it moves the position by the order it places, enters only when
      flat and closes only when not, and changes nothing when it places nothing. */
  function Step(c: Config, s: State, i: Inputs): (o: Outcome)
    requires Consistent(s)
    ensures o.state.position == Filled(s.position, o.order)
    ensures o.order == NoOrder ==> o.state == s
    ensures o.order.Buy? || o.order.Sell? ==> s.position == 0.0
    ensures o.order == Close ==> s.position != 0.0
  {
    if s.position == 0.0 then
      if LongSignal(i) then
        var b := LongBracket(i.close, i.atr, c.slMult, c.tpMult);
        Outcome(State(Filled(s.position, Buy(c.stake)), Some(b.stopLoss), Some(b.takeProfit)), Buy(c.stake))
      else if ShortSignal(i) then
        var b := ShortBracket(i.close, i.atr, c.slMult, c.tpMult);
        Outcome(State(Filled(s.position, Sell(c.stake)), Some(b.stopLoss), Some(b.takeProfit)), Sell(c.stake))
      else Outcome(s, NoOrder)
    else if ExitHit(s, i.close) then
      Outcome(s.(position := Filled(s.position, Close)), Close)
    else Outcome(s, NoOrder)
  }

  /** `stop`: flatten whatever is open at the end of the run, closing exactly when a
      position is open and leaving the recorded levels alone. */
  function OnStop(s: State): (o: Outcome)
    ensures o.state.position == 0.0
    ensures o.order == Close <==> s.position != 0.0
    ensures o.order == Close || o.order == NoOrder
    ensures o.state.stopLoss == s.stopLoss && o.state.takeProfit == s.takeProfit
  {
    if s.position != 0.0 then Outcome(s.(position := Filled(s.position, Close)), Close)
    else Outcome(s, NoOrder)
  }

  /** The position is flat or one stake long or short. */
  predicate PositionInStakes(c: Config, s: State)
  {
    s.position == 0.0 || s.position == c.stake || s.position == -c.stake
  }

  /** When flat: a buy of one stake exactly when the close is above both the moving average
      and the previous resistance, with the ATR bracket of a long entry at the close. */
  lemma FlatLongEntry(c: Config, s: State, i: Inputs)
    requires Consistent(s) && s.position == 0.0
    ensures var o := Step(c, s, i);
      && (o.order == Buy(c.stake) <==> LongSignal(i))
      && (LongSignal(i) ==>
            var b := LongBracket(i.close, i.atr, c.slMult, c.tpMult);
            o.state == State(c.stake, Some(b.stopLoss), Some(b.takeProfit)))
  {
  }

  /** When flat: a sell of one stake exactly when the long condition fails and the close is
      below both the moving average and the previous support, with the short bracket. */
  lemma FlatShortEntry(c: Config, s: State, i: Inputs)
    requires Consistent(s) && s.position == 0.0
    ensures var o := Step(c, s, i);
      && (o.order == Sell(c.stake) <==> !LongSignal(i) && ShortSignal(i))
      && (!LongSignal(i) && ShortSignal(i) ==>
            var b := ShortBracket(i.close, i.atr, c.slMult, c.tpMult);
            o.state == State(-c.stake, Some(b.stopLoss), Some(b.takeProfit)))
  {
  }

  /** With a position open no entry is tried: the bar either closes the position, exactly
      when a level is touched, or does nothing. */
  lemma InPositionOnlyExits(c: Config, s: State, i: Inputs)
    requires Consistent(s) && s.position != 0.0
    ensures var o := Step(c, s, i);
      && (o.order == Close || o.order == NoOrder)
      && (o.order == Close <==> ExitHit(s, i.close))
      && (o.order == Close ==> o.state == s.(position := 0.0))
      && (o.order == NoOrder ==> o.state == s)
  {
  }

  /** Each step keeps the levels set while in a position, and keeps the position at zero
      or one stake either way. */
  lemma StepInvariant(c: Config, s: State, i: Inputs)
    requires Consistent(s) && PositionInStakes(c, s)
    ensures Consistent(Step(c, s, i).state) && PositionInStakes(c, Step(c, s, i).state)
  {
  }

  /** With non-negative ATR and multipliers, an entry's stop and target enclose the entry
      price on the expected sides. */
  lemma EntryLevelsEncloseClose(c: Config, s: State, i: Inputs)
    requires Consistent(s) && i.atr >= 0.0 && c.slMult >= 0.0 && c.tpMult >= 0.0
    ensures var o := Step(c, s, i);
      && (o.order.Buy? ==> o.state.stopLoss.value <= i.close <= o.state.takeProfit.value)
      && (o.order.Sell? ==> o.state.takeProfit.value <= i.close <= o.state.stopLoss.value)
  {
    if s.position == 0.0 && LongSignal(i) {
      var b := LongBracket(i.close, i.atr, c.slMult, c.tpMult);
      assert Step(c, s, i).state == State(c.stake, Some(b.stopLoss), Some(b.takeProfit));
    } else if s.position == 0.0 && ShortSignal(i) {
      var b := ShortBracket(i.close, i.atr, c.slMult, c.tpMult);
      assert Step(c, s, i).state == State(-c.stake, Some(b.stopLoss), Some(b.takeProfit));
    }
  }

  /** `stop` ends every run flat: after any sequence of bars, stopping leaves no position
      and closes exactly when one is open. */
  lemma StopFlattens(c: Config, s: State, i: Inputs)
    requires Consistent(s)
    ensures OnStop(Step(c, s, i).state).state.position == 0.0
    ensures OnStop(Step(c, s, i).state).order == Close <==> Step(c, s, i).state.position != 0.0
  {
  }

  /** With the default parameters and a positive ATR, a long entry buys one unit and sets a
      target twice as far from the close as its stop. */
  lemma DefaultLongEntry(s: State, i: Inputs)
    requires Consistent(s) && s.position == 0.0 && LongSignal(i)
    ensures var o := Step(Defaults, s, i);
      && o.order == Buy(1.0)
      && o.state.takeProfit.value - i.close == 2.0 * (i.close - o.state.stopLoss.value)
      && (i.atr > 0.0 ==> o.state.stopLoss.value < i.close < o.state.takeProfit.value)
  {
    DefaultRewardIsTwiceRisk(i.close, i.atr);
  }

  /** The strategy object; `position` stands for the broker's position. */
  class MVSupportResistanceStrategy {
    const config: Config
    var position: real
    var stopLossPrice: Option<real>
    var takeProfitPrice: Option<real>

    function Snapshot(): State
      reads this
    {
      State(position, stopLossPrice, takeProfitPrice)
    }

    ghost predicate Valid()
      reads this
    {
      Consistent(Snapshot())
    }

    constructor(config: Config)
      ensures this.config == config && Snapshot() == Initial() && Valid()
    {
      this.config := config;
      position := 0.0;
      stopLossPrice := None;
      takeProfitPrice := None;
    }

    /** `next`: one bar, returning the order it places. */
    method Next(i: Inputs) returns (order: Order)
      requires Valid()
      modifies this
      ensures Valid()
      ensures Snapshot() == Step(config, old(Snapshot()), i).state
      ensures order == Step(config, old(Snapshot()), i).order
    {
      order := NoOrder;
      if position == 0.0 {
        if i.close > i.ma && i.close > i.prevResistance {
          order := Buy(config.stake);
          position := position + config.stake;
          var b := LongBracket(i.close, i.atr, config.slMult, config.tpMult);
          stopLossPrice, takeProfitPrice := Some(b.stopLoss), Some(b.takeProfit);
        } else if i.close < i.ma && i.close < i.prevSupport {
          order := Sell(config.stake);
          position := position - config.stake;
          var b := ShortBracket(i.close, i.atr, config.slMult, config.tpMult);
          stopLossPrice, takeProfitPrice := Some(b.stopLoss), Some(b.takeProfit);
        }
      } else {
        if position > 0.0 {
          if i.close <= stopLossPrice.value || i.close >= takeProfitPrice.value {
            order := Close;
            position := 0.0;
          }
        } else if position < 0.0 {
          if i.close >= stopLossPrice.value || i.close <= takeProfitPrice.value {
            order := Close;
            position := 0.0;
          }
        }
      }
    }

    /** `stop`: called once at the end of the run. */
    method Stop() returns (order: Order)
      requires Valid()
      modifies this
      ensures Valid()
      ensures Snapshot() == OnStop(old(Snapshot())).state
      ensures order == OnStop(old(Snapshot())).order
    {
      order := NoOrder;
      if position != 0.0 {
        order := Close;
        position := 0.0;
      }
    }
  }
}
