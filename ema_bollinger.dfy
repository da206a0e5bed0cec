/** The EMABollingerStrategy: buy when the short EMA is above the long EMA and the close is
    below the lower Bollinger band; once in the market, sell when the close is above the
    upper band or the short EMA has fallen below the long one. A submitted order blocks every
    further decision until the broker reports it completed. */
module EmaBollinger {

  import opened Wrappers
  import opened Orders

  /** The order size the strategy is configured with by default. */
  const DefaultSize: real := 100.0

  /** The statuses the broker reports for an order. */
  datatype Status =
    | Created | Submitted | Accepted | Partial | Completed
    | Canceled | Expired | Margin | Rejected

  /** `pending` is the order the strategy is waiting on (None when it waits on nothing);
      `position` stands for the broker's signed position. */
  datatype State = State(pending: Option<Order>, position: real)

  /** What `next` reads: the close, both EMAs and both Bollinger bands. */
  datatype Inputs = Inputs(close: real, emaShort: real, emaLong: real, bbTop: real, bbBot: real)

  datatype Outcome = Outcome(state: State, order: Order)

  function Initial(): State
  {
    State(None, 0.0)
  }

  /** Entry test while flat: EMAs in an uptrend and the close below the lower band. */
  predicate BuySignal(i: Inputs)
  {
    i.emaShort > i.emaLong && i.close < i.bbBot
  }

  /** Exit test while in the market: close above the upper band or EMAs in a downtrend. */
  predicate SellSignal(i: Inputs)
  {
    i.close > i.bbTop || i.emaShort < i.emaLong
  }

  /** One call of `next` with order size `size`: it places nothing, a buy of `size` or a
      sell of `size`; the position moves by what it places, and placing nothing changes
      nothing. */
  function Step(size: real, s: State, i: Inputs): (o: Outcome)
    ensures o.order == NoOrder || o.order == Buy(size) || o.order == Sell(size)
    ensures o.state.position == Filled(s.position, o.order)
    ensures o.order == NoOrder ==> o.state == s
  {
    if s.pending.Some? then Outcome(s, NoOrder)
    else if s.position == 0.0 then
      if BuySignal(i) then Outcome(State(Some(Buy(size)), Filled(s.position, Buy(size))), Buy(size))
      else Outcome(s, NoOrder)
    else if SellSignal(i) then Outcome(State(Some(Sell(size)), Filled(s.position, Sell(size))), Sell(size))
    else Outcome(s, NoOrder)
  }

  /** One call of `notify_order` reporting `status` for the pending order: the position is
      untouched, the pending order is kept or cleared, and a completion always clears it. */
  function Notify(s: State, status: Status): (r: State)
    ensures r.position == s.position
    ensures r.pending == s.pending || r.pending.None?
    ensures status == Completed ==> r.pending.None?
  {
    if status == Completed then s.(pending := None) else s
  }

  /** While an order is pending, a bar changes nothing and places nothing. */
  lemma PendingBlocks(size: real, s: State, i: Inputs)
    requires s.pending.Some?
    ensures Step(size, s, i) == Outcome(s, NoOrder)
  {
  }

  /** Flat and not waiting: a buy of `size` exactly when the buy test holds, and then it is
      recorded as pending and the position becomes `size`; otherwise nothing happens. */
  lemma FlatBuysOnSignal(size: real, s: State, i: Inputs)
    requires s.pending.None? && s.position == 0.0
    ensures var o := Step(size, s, i);
      && (o.order == Buy(size) <==> BuySignal(i))
      && (BuySignal(i) ==> o.state == State(Some(Buy(size)), size))
      && (!BuySignal(i) ==> o == Outcome(s, NoOrder))
  {
  }

  /** In the market and not waiting: a sell of `size` exactly when the sell test holds, and
      then it is recorded as pending; otherwise nothing happens. */
  lemma HeldSellsOnSignal(size: real, s: State, i: Inputs)
    requires s.pending.None? && s.position != 0.0
    ensures var o := Step(size, s, i);
      && (o.order == Sell(size) <==> SellSignal(i))
      && (SellSignal(i) ==> o.state == State(Some(Sell(size)), s.position - size))
      && (!SellSignal(i) ==> o == Outcome(s, NoOrder))
  {
  }

  /** Both EMA comparisons are strict: with equal EMAs no buy is placed, and an exit can
      only come from the upper band. */
  lemma EqualEmas(size: real, s: State, i: Inputs)
    requires i.emaShort == i.emaLong
    ensures Step(size, s, i).order != Buy(size)
    ensures s.pending.None? && s.position != 0.0 ==>
      (Step(size, s, i).order == Sell(size) <==> i.close > i.bbTop)
  {
  }

  /** Any order placed is the one now pending, and was placed while nothing was pending. */
  lemma OrdersAreRecorded(size: real, s: State, i: Inputs)
    ensures var o := Step(size, s, i);
      o.order != NoOrder ==> s.pending.None? && o.state.pending == Some(o.order)
  {
  }

  /** Only a `Completed` report clears the pending order; no report touches the position. */
  lemma OnlyCompletedClears(s: State, status: Status)
    ensures Notify(s, status).pending.None? <==> s.pending.None? || status == Completed
    ensures Notify(s, status).position == s.position
    ensures status != Completed ==> Notify(s, status) == s
  {
  }

  /** From the initial state with the default size, the first bar buys 100 units exactly when
      the buy test holds. */
  lemma DefaultFirstOrder(i: Inputs)
    ensures Step(DefaultSize, Initial(), i).order == Buy(100.0) <==> BuySignal(i)
    ensures Step(DefaultSize, Initial(), i).order != Sell(100.0)
  {
  }

  /** The position is flat or holds exactly one order's size. */
  predicate PositionInSize(size: real, s: State)
  {
    s.position == 0.0 || s.position == size
  }

  /** A bar or a report keeps the position flat or at one order's size. */
  lemma PositionInvariant(size: real, s: State, i: Inputs, status: Status)
    requires PositionInSize(size, s)
    ensures PositionInSize(size, Step(size, s, i).state)
    ensures PositionInSize(size, Notify(s, status))
  {
  }

  /** What the strategy sees over a run: bars and order reports, in the order they arrive. */
  datatype Event = BarEvent(inputs: Inputs) | Notification(status: Status)

  /** The state after handling `events` in order. */
  function Run(size: real, s: State, events: seq<Event>): State
    decreases |events|
  {
    if events == [] then s
    else
      var next := match events[0]
        case BarEvent(i) => Step(size, s, i).state
        case Notification(st) => Notify(s, st);
      Run(size, next, events[1..])
  }

  /** The orders placed while handling `events`, one entry per bar. */
  function Placed(size: real, s: State, events: seq<Event>): seq<Order>
    decreases |events|
  {
    if events == [] then []
    else match events[0]
      case BarEvent(i) => [Step(size, s, i).order] + Placed(size, Step(size, s, i).state, events[1..])
      case Notification(st) => Placed(size, Notify(s, st), events[1..])
  }

  /** Number of real orders (not `NoOrder`) in `orders`. */
  function OrderCount(orders: seq<Order>): nat
  {
    if orders == [] then 0
    else (if orders[0] == NoOrder then 0 else 1) + OrderCount(orders[1..])
  }

  /** No `Completed` report among `events`. */
  predicate NoCompletion(events: seq<Event>)
  {
    forall k :: 0 <= k < |events| ==> events[k] != Notification(Completed)
  }

  /** Without a `Completed` report, a pending order stays pending and blocks every bar: the
      state never changes and no order is placed. A `Canceled`, `Expired`, `Margin` or
      `Rejected` report therefore leaves the strategy waiting for good. */
  lemma {:induction false} PendingUntilCompleted(size: real, s: State, events: seq<Event>)
    requires s.pending.Some? && NoCompletion(events)
    ensures Run(size, s, events) == s
    ensures OrderCount(Placed(size, s, events)) == 0
    decreases |events|
  {
    if events != [] {
      assert events[0] != Notification(Completed);
      assert NoCompletion(events[1..]) by {
        forall k | 0 <= k < |events[1..]| ensures events[1..][k] != Notification(Completed) {
          assert events[1..][k] == events[k + 1];
        }
      }
      match events[0]
      case BarEvent(i) =>
        PendingBlocks(size, s, i);
        PendingUntilCompleted(size, s, events[1..]);
      case Notification(st) =>
        PendingUntilCompleted(size, s, events[1..]);
    }
  }

  /** Between two `Completed` reports at most one order is placed, whatever the bars. */
  lemma {:induction false} AtMostOneOrderPerCompletion(size: real, s: State, events: seq<Event>)
    requires NoCompletion(events)
    ensures OrderCount(Placed(size, s, events)) <= 1
    ensures s.pending.Some? ==> OrderCount(Placed(size, s, events)) == 0
    decreases |events|
  {
    if s.pending.Some? {
      PendingUntilCompleted(size, s, events);
    } else if events != [] {
      assert events[0] != Notification(Completed);
      assert NoCompletion(events[1..]) by {
        forall k | 0 <= k < |events[1..]| ensures events[1..][k] != Notification(Completed) {
          assert events[1..][k] == events[k + 1];
        }
      }
      match events[0]
      case BarEvent(i) =>
        var o := Step(size, s, i);
        AtMostOneOrderPerCompletion(size, o.state, events[1..]);
        if o.order != NoOrder {
          OrdersAreRecorded(size, s, i);
        }
        assert [o.order] + Placed(size, o.state, events[1..]) == Placed(size, s, events);
      case Notification(st) =>
        AtMostOneOrderPerCompletion(size, Notify(s, st), events[1..]);
    }
  }

  /** The strategy object; `position` stands for the broker's position. */
  class EMABollingerStrategy {
    const size: real
    var order: Option<Order>
    var position: real

    function Snapshot(): State
      reads this
    {
      State(order, position)
    }

    ghost predicate Valid()
      reads this
    {
      PositionInSize(size, Snapshot())
    }

    constructor(size: real)
      ensures this.size == size && Snapshot() == Initial() && Valid()
    {
      this.size := size;
      order := None;
      position := 0.0;
    }

    /** `next`: one bar, returning the order it places. */
    method Next(i: Inputs) returns (placed: Order)
      requires Valid()
      modifies this
      ensures Valid()
      ensures Snapshot() == Step(size, old(Snapshot()), i).state
      ensures placed == Step(size, old(Snapshot()), i).order
    {
      placed := NoOrder;
      if order.Some? {
        return;
      }
      if position == 0.0 {
        if i.emaShort > i.emaLong && i.close < i.bbBot {
          placed := Buy(size);
          order := Some(placed);
          position := position + size;
        }
      } else {
        if i.close > i.bbTop || i.emaShort < i.emaLong {
          placed := Sell(size);
          order := Some(placed);
          position := position - size;
        }
      }
    }

    /** `notify_order`: the broker reports `status` for the pending order. */
    method NotifyOrder(status: Status)
      requires Valid()
      modifies this
      ensures Valid()
      ensures Snapshot() == Notify(old(Snapshot()), status)
    {
      if status == Completed {
        order := None;
      }
    }
  }
}
