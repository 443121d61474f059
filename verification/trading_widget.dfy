/** The quick-trade form of components/TradingWidget.tsx: validation of the
    form, then a buy goes to the portfolio and a sell changes nothing.
    The number inputs deliver an empty string or a number, so each field is
    `None` (empty) or `Some(parsed value)`. */
module TradingWidget {
  import opened Common
  import opened Market
  import Portfolio

  datatype TradeType = BuyOrder | SellOrder

  datatype TradeError = SignInRequired | MissingFields | NotPositive

  /** A validated order, as handed to the dispatch. */
  datatype Order = Order(kind: TradeType, coin: Coin, amount: real, price: real)

  /** `handleTrade` up to the dispatch: the checks in source order. */
  function Validate(signedIn: bool, feed: seq<Coin>, selectedId: string,
                    amount: Option<real>, price: Option<real>, kind: TradeType)
    : (r: Result<Order, TradeError>)
    ensures r == Failure(SignInRequired) <==> !signedIn
    ensures r == Failure(MissingFields) <==>
      signedIn && (!Listed(feed, selectedId) || amount.None? || price.None?)
    ensures r == Failure(NotPositive) <==>
      && signedIn && Listed(feed, selectedId) && amount.Some? && price.Some?
      && (amount.value <= 0.0 || price.value <= 0.0)
    // an accepted order carries the selected coin and the entered, positive values
    ensures r.Success? ==>
      && r.value.amount > 0.0 && r.value.price > 0.0
      && amount == Some(r.value.amount) && price == Some(r.value.price)
      && r.value.kind == kind && Some(r.value.coin) == FindCoin(feed, selectedId)
  {
    if !signedIn then Failure(SignInRequired)
    else
      match FindCoin(feed, selectedId)
      case None => Failure(MissingFields)
      case Some(c) =>
        if amount.None? || price.None? then Failure(MissingFields)
        else if amount.value <= 0.0 || price.value <= 0.0 then Failure(NotPositive)
        else Success(Order(kind, c, amount.value, price.value))
  }

  /** The portfolio after submitting the form: only a valid buy changes it,
      through exactly one `addToPortfolio` with the entered amount and price. */
  function HandleTrade(ps: seq<Portfolio.Position>, signedIn: bool, feed: seq<Coin>, selectedId: string,
                       amount: Option<real>, price: Option<real>, kind: TradeType)
    : (r: seq<Portfolio.Position>)
    requires Portfolio.CostBasisPositive(ps)
    ensures var v := Validate(signedIn, feed, selectedId, amount, price, kind);
      if v.Success? && kind == BuyOrder then r == Portfolio.Buy(ps, v.value.coin, v.value.amount, v.value.price)
      else r == ps
  {
    match Validate(signedIn, feed, selectedId, amount, price, kind)
    case Failure(_) => ps
    case Success(order) =>
      if order.kind == BuyOrder then Portfolio.Buy(ps, order.coin, order.amount, order.price)
      else ps
  }
}
