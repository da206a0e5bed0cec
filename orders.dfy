/** The order a strategy may emit on one bar, and its effect on the signed position. */
module Orders {

  /** `NoOrder` when the bar leaves the market alone; one value per bar means at most
      one buy, sell or close per bar by construction. */
  datatype Order = NoOrder | Buy(size: real) | Sell(size: real) | Close

  /** Signed position once the order has filled. Fills are assumed to complete before
      the strategy's next bar is evaluated. */
  function Filled(position: real, o: Order): (p: real)
    ensures o == NoOrder ==> p == position
    ensures o.Buy? ==> p - position == o.size
    ensures o.Sell? ==> position - p == o.size
    ensures o.Close? ==> p == 0.0
  {
    match o
    case NoOrder => position
    case Buy(size) => position + size
    case Sell(size) => position - size
    case Close => 0.0
  }

  /** A sell undoes a buy of the same size, and a buy undoes a sell. */
  lemma OppositeOrdersCancel(position: real, size: real)
    ensures Filled(Filled(position, Buy(size)), Sell(size)) == position
    ensures Filled(Filled(position, Sell(size)), Buy(size)) == position
  {
  }

  /** Closing is idempotent: a second close leaves the position flat. */
  lemma CloseIdempotent(position: real)
    ensures Filled(Filled(position, Close), Close) == Filled(position, Close) == 0.0
  {
  }
}
