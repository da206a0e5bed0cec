/** The StopLossTakeProfit indicator: stop-loss and take-profit prices placed a multiple of
    the Average True Range away from an entry price. */
module AtrStopTake {

  import opened Wrappers
  import Arith

  const DefaultSlMult: real := 1.5
  const DefaultTpMult: real := 3.0

  /** A stop-loss price and a take-profit price. */
  datatype Bracket = Bracket(stopLoss: real, takeProfit: real)

  /** Both distances are non-negative when the ATR and the multipliers are. */
  lemma DistancesNonNegative(atr: real, slMult: real, tpMult: real)
    ensures atr >= 0.0 && slMult >= 0.0 && tpMult >= 0.0 ==> Arith.Mul(atr, slMult) >= 0.0 && Arith.Mul(atr, tpMult) >= 0.0
  {
    if atr >= 0.0 && slMult >= 0.0 && tpMult >= 0.0 {
      Arith.MulNonNegative(atr, slMult);
      Arith.MulNonNegative(atr, tpMult);
    }
  }

  /** Levels for a long entry: the entry lies `slMult` ATRs above the stop and `tpMult`
      ATRs below the target, so with non-negative factors the stop is under the entry and
      the target over it. */
  function LongBracket(entry: real, atr: real, slMult: real, tpMult: real): (b: Bracket)
    ensures b.stopLoss + Arith.Mul(atr, slMult) == entry == b.takeProfit - Arith.Mul(atr, tpMult)
    ensures atr >= 0.0 && slMult >= 0.0 && tpMult >= 0.0 ==> b.stopLoss <= entry <= b.takeProfit
  {
    DistancesNonNegative(atr, slMult, tpMult);
    Bracket(entry - Arith.Mul(atr, slMult), entry + Arith.Mul(atr, tpMult))
  }

  /** Levels for a short entry: the entry lies `slMult` ATRs below the stop and `tpMult`
      ATRs above the target, so with non-negative factors the stop is over the entry and
      the target under it. */
  function ShortBracket(entry: real, atr: real, slMult: real, tpMult: real): (b: Bracket)
    ensures b.stopLoss - Arith.Mul(atr, slMult) == entry == b.takeProfit + Arith.Mul(atr, tpMult)
    ensures atr >= 0.0 && slMult >= 0.0 && tpMult >= 0.0 ==> b.takeProfit <= entry <= b.stopLoss
  {
    DistancesNonNegative(atr, slMult, tpMult);
    Bracket(entry + Arith.Mul(atr, slMult), entry - Arith.Mul(atr, tpMult))
  }

  /** With a non-negative ATR and multipliers the entry lies between the two levels, on
      the side each direction expects. */
  lemma BracketsEncloseEntry(entry: real, atr: real, slMult: real, tpMult: real)
    requires atr >= 0.0 && slMult >= 0.0 && tpMult >= 0.0
    ensures var b := LongBracket(entry, atr, slMult, tpMult);
      b.stopLoss <= entry <= b.takeProfit
    ensures var b := ShortBracket(entry, atr, slMult, tpMult);
      b.takeProfit <= entry <= b.stopLoss
  {
    Arith.MulNonNegative(atr, slMult);
    Arith.MulNonNegative(atr, tpMult);
  }

  /** The short levels are the long levels mirrored about the entry price: the stop
      distance and the target distance are the same in both directions. */
  lemma BracketsMirror(entry: real, atr: real, slMult: real, tpMult: real)
    ensures var l, s := LongBracket(entry, atr, slMult, tpMult), ShortBracket(entry, atr, slMult, tpMult);
      && entry - l.stopLoss == s.stopLoss - entry == atr * slMult
      && l.takeProfit - entry == entry - s.takeProfit == atr * tpMult
  {
  }

  /** With the default multipliers the target is twice as far from the entry as the stop. */
  lemma DefaultRewardIsTwiceRisk(entry: real, atr: real)
    ensures var l := LongBracket(entry, atr, DefaultSlMult, DefaultTpMult);
      l.takeProfit - entry == 2.0 * (entry - l.stopLoss)
  {
  }

  /** The indicator object: its two output lines on the current bar (NaN, here None, until
      set) and its multipliers. The ATR value is passed in, as it comes from a library
      indicator. */
  class StopLossTakeProfit {
    const slMult: real
    const tpMult: real
    var stopLoss: Option<real>
    var takeProfit: Option<real>

    constructor(slMult: real, tpMult: real)
      ensures this.slMult == slMult && this.tpMult == tpMult
      ensures stopLoss == None && takeProfit == None
    {
      this.slMult := slMult;
      this.tpMult := tpMult;
      stopLoss := None;
      takeProfit := None;
    }

    /** Writes the levels for an entry in the given direction; any direction other than
        "long" or "short" leaves both lines as they were. */
    method SetLevels(entryPrice: real, direction: string, atr: real)
      modifies this
      ensures direction == "long" ==>
        var b := LongBracket(entryPrice, atr, slMult, tpMult);
        stopLoss == Some(b.stopLoss) && takeProfit == Some(b.takeProfit)
      ensures direction == "short" ==>
        var b := ShortBracket(entryPrice, atr, slMult, tpMult);
        stopLoss == Some(b.stopLoss) && takeProfit == Some(b.takeProfit)
      ensures direction != "long" && direction != "short" ==>
        stopLoss == old(stopLoss) && takeProfit == old(takeProfit)
    {
      if direction == "long" {
        stopLoss := Some(entryPrice - atr * slMult);
        takeProfit := Some(entryPrice + atr * tpMult);
      } else if direction == "short" {
        stopLoss := Some(entryPrice + atr * slMult);
        takeProfit := Some(entryPrice - atr * tpMult);
      }
    }
  }
}
