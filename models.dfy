/** The shared domain vocabulary: order sides, types and statuses, and the
    immutable records every connector produces. Decimal amounts are exact
    rationals (`real`). Record fields with a default in the source carry the
    same default here. */
module Models {
  import opened Wrappers
  import opened Exceptions

  type Decimal = real

  datatype OrderSide = Buy | Sell
  datatype OrderType = MarketOrder | LimitOrder
  datatype OrderStatus = Pending | Open | PartiallyFilled | Filled | Cancelled | Rejected | Expired

  /** The string value of each enumeration member. */
  function SideValue(s: OrderSide): string {
    match s
    case Buy => "buy"
    case Sell => "sell"
  }

  function TypeValue(t: OrderType): string {
    match t
    case MarketOrder => "market"
    case LimitOrder => "limit"
  }

  function StatusValue(s: OrderStatus): string {
    match s
    case Pending => "pending"
    case Open => "open"
    case PartiallyFilled => "partially_filled"
    case Filled => "filled"
    case Cancelled => "cancelled"
    case Rejected => "rejected"
    case Expired => "expired"
  }

  /** `OrderSide(value)`: the member whose value is `value`, if any. */
  function ParseSide(value: string): (r: Option<OrderSide>)
    ensures r.Some? <==> value in {"buy", "sell"}
    ensures r.Some? ==> SideValue(r.value) == value
  {
    if value == "buy" then Some(Buy)
    else if value == "sell" then Some(Sell)
    else None
  }

  function ParseType(value: string): (r: Option<OrderType>)
    ensures r.Some? <==> value in {"market", "limit"}
    ensures r.Some? ==> TypeValue(r.value) == value
  {
    if value == "market" then Some(MarketOrder)
    else if value == "limit" then Some(LimitOrder)
    else None
  }

  const StatusValues: set<string> :=
    {"pending", "open", "partially_filled", "filled", "cancelled", "rejected", "expired"}

  function ParseStatus(value: string): (r: Option<OrderStatus>)
    ensures r.Some? <==> value in StatusValues
    ensures r.Some? ==> StatusValue(r.value) == value
  {
    if value == "pending" then Some(Pending)
    else if value == "open" then Some(Open)
    else if value == "partially_filled" then Some(PartiallyFilled)
    else if value == "filled" then Some(Filled)
    else if value == "cancelled" then Some(Cancelled)
    else if value == "rejected" then Some(Rejected)
    else if value == "expired" then Some(Expired)
    else None
  }

  /** Each member is recovered from its string value. */
  lemma EnumRoundTrip(side: OrderSide, t: OrderType, status: OrderStatus)
    ensures ParseSide(SideValue(side)) == Some(side)
    ensures ParseType(TypeValue(t)) == Some(t)
    ensures ParseStatus(StatusValue(status)) == Some(status)
  {
  }

  const AllStatuses: set<OrderStatus> :=
    {Pending, Open, PartiallyFilled, Filled, Cancelled, Rejected, Expired}

  /** The status enumeration has exactly seven members, with seven distinct
      string values. */
  lemma {:induction false} SevenStatuses()
    ensures forall s: OrderStatus :: s in AllStatuses
    ensures |AllStatuses| == 7
    ensures (set s | s in AllStatuses :: StatusValue(s)) == StatusValues
    ensures |StatusValues| == 7
  {
    forall s: OrderStatus ensures s in AllStatuses {
      match s
      case Pending => case Open => case PartiallyFilled => case Filled =>
      case Cancelled => case Rejected => case Expired =>
    }
  }

  /** Python truthiness of an optional decimal: `x if x else None`, so a
      missing value and zero both become `None`. */
  function NonZero(x: Option<Decimal>): (r: Option<Decimal>)
    ensures r.Some? <==> x.Some? && x.value != 0.0
    ensures r.Some? ==> r == x
  {
    if x.Some? && x.value != 0.0 then x else None
  }

  datatype Balance = Balance(
    currency: string,
    free: Decimal := 0.0,
    used: Decimal := 0.0,
    total: Decimal := 0.0)

  datatype Position = Position(
    symbol: string,
    quantity: Decimal,
    entryPrice: Decimal,
    currentPrice: Decimal := 0.0,
    unrealizedPnl: Decimal := 0.0,
    side: OrderSide,
    connectorName: string := "")

  datatype Order = Order(
    orderId: string,
    symbol: string,
    side: OrderSide,
    orderType: OrderType,
    quantity: Decimal,
    price: Option<Decimal> := None,
    filledQuantity: Decimal := 0.0,
    status: OrderStatus := Pending,
    connectorName: string := "")

  datatype Market = Market(
    symbol: string,
    baseCurrency: string,
    quoteCurrency: string,
    minOrderSize: Decimal := 0.0,
    precision: int := 8,
    active: bool := true)

  datatype Ticker = Ticker(
    symbol: string,
    bid: Option<Decimal> := None,
    ask: Option<Decimal> := None,
    last: Option<Decimal> := None,
    volume24h: Option<Decimal> := None)

  datatype OrderBookEntry = OrderBookEntry(price: Decimal, quantity: Decimal)

  datatype OrderBook = OrderBook(
    symbol: string,
    bids: seq<OrderBookEntry> := [],
    asks: seq<OrderBookEntry> := [])

  datatype Signal = Signal(
    strategyName: string,
    symbol: string,
    side: OrderSide,
    quantity: Decimal,
    orderType: OrderType := MarketOrder,
    price: Option<Decimal> := None,
    reason: string := "",
    confidence: real := 0.0)

  /** The field constraint `0.0 <= confidence <= 1.0`. */
  predicate ValidConfidence(confidence: real) { 0.0 <= confidence <= 1.0 }

  /** Constructing a `Signal`: the record, or a validation error on
      `confidence` when it lies outside the closed unit interval. */
  function NewSignal(
    strategyName: string,
    symbol: string,
    side: OrderSide,
    quantity: Decimal,
    orderType: OrderType := MarketOrder,
    price: Option<Decimal> := None,
    reason: string := "",
    confidence: real := 0.0): (r: Result<Signal, Error>)
    ensures r.Ok? <==> ValidConfidence(confidence)
    ensures r.Ok? ==> r.value.confidence == confidence && r.value.strategyName == strategyName
    ensures r.Ok? ==> r.value.symbol == symbol && r.value.side == side && r.value.quantity == quantity
    ensures r.Ok? ==> r.value.orderType == orderType && r.value.price == price && r.value.reason == reason
    ensures r.Err? ==> r.error == ValidationError("confidence")
  {
    if ValidConfidence(confidence) then
      Ok(Signal(strategyName, symbol, side, quantity, orderType, price, reason, confidence))
    else Err(ValidationError("confidence"))
  }

  /** Both ends of the confidence interval are accepted; values beyond
      them are rejected. */
  lemma ConfidenceBounds(strategyName: string, symbol: string, side: OrderSide, quantity: Decimal)
    ensures NewSignal(strategyName, symbol, side, quantity, confidence := 0.0).Ok?
    ensures NewSignal(strategyName, symbol, side, quantity, confidence := 1.0).Ok?
    ensures NewSignal(strategyName, symbol, side, quantity, confidence := 1.5).Err?
    ensures NewSignal(strategyName, symbol, side, quantity, confidence := -0.1).Err?
  {
  }

  /** The defaults of the records: zero amounts, a pending order with no
      price and nothing filled, eight-digit active markets, an empty ticker
      and book, and a market-order signal with zero confidence. */
  lemma RecordDefaults(currency: string, id: string, symbol: string, side: OrderSide,
                       t: OrderType, q: Decimal)
    ensures var b := Balance(currency); b.free == b.used == b.total == 0.0
    ensures var o := Order(id, symbol, side, t, q);
      o.status == Pending && o.filledQuantity == 0.0 && o.price == None
    ensures var m := Market(symbol, "", ""); m.minOrderSize == 0.0 && m.precision == 8 && m.active
    ensures var k := Ticker(symbol); k.bid == k.ask == k.last == k.volume24h == None
    ensures var ob := OrderBook(symbol); ob.bids == [] && ob.asks == []
    ensures var s := Signal(id, symbol, side, q); s.orderType == MarketOrder && ValidConfidence(s.confidence)
  {
  }
}
