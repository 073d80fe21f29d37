/** The stock-brokerage connector. The brokerage client library is not part
    of this model: each call into it is a parameter holding the value it
    returned or the text of the error it raised. Every call the source makes
    through the `client` property sits inside a `try` that catches all
    errors, so the "not initialized" connector error reaches the caller
    re-wrapped, its message nested inside the operation's own. */
module AlpacaConnector {
  import opened Wrappers
  import opened Models
  import opened Exceptions
  import Text

  const Name := "alpaca"

  /** The error the `client` property raises before `initialize()`. */
  const NotInitialized := ConnectorError(Name, NotInitializedDetail)

  /** The venue's status vocabulary (`_ALPACA_STATUS_MAP`). */
  const StatusTable: map<string, OrderStatus> := map[
    "new" := Open,
    "accepted" := Open,
    "pending_new" := Pending,
    "partially_filled" := PartiallyFilled,
    "filled" := Filled,
    "done_for_day" := Filled,
    "canceled" := Cancelled,
    "expired" := Expired,
    "rejected" := Rejected,
    "replaced" := Cancelled]

  /** The `status` attribute of an order object: missing, a member of the
      library's status enumeration (carrying its value), or any other object
      (carrying its string form). */
  datatype StatusField = Absent | Member(value: string) | Other(text: string)

  /** An order object as the library returns it. `side` and `orderType` are
      the string forms of those attributes. */
  datatype VenueOrder = VenueOrder(
    id: string,
    symbol: string,
    side: string,
    orderType: string,
    qty: Decimal,
    limitPrice: Option<Decimal>,
    filledQty: Option<Decimal>,
    status: StatusField)

  /** The status string looked up: an enumeration member's value as is, any
      other status lower-cased, and "new" when there is none. */
  function StatusKey(f: StatusField): string {
    match f
    case Absent => "new"
    case Member(v) => v
    case Other(t) => Text.Lower(t)
  }

  function StatusOf(f: StatusField): (st: OrderStatus)
    ensures StatusKey(f) in StatusTable ==> st == StatusTable[StatusKey(f)]
    ensures StatusKey(f) !in StatusTable ==> st == Open
  {
    if StatusKey(f) in StatusTable then StatusTable[StatusKey(f)] else Open
  }

  /** `_map_order`. */
  function MapOrder(o: VenueOrder): (r: Order)
    ensures r.orderId == o.id && r.symbol == o.symbol && r.quantity == o.qty
    ensures r.side == Buy <==> Text.Lower(o.side) == "buy"
    ensures r.orderType == LimitOrder <==> Text.Lower(o.orderType) == "limit"
    ensures r.price == NonZero(o.limitPrice)
    ensures r.filledQuantity == o.filledQty.GetOr(0.0)
    ensures r.status == StatusOf(o.status)
    ensures r.connectorName == Name
  {
    Order(
      orderId := o.id,
      symbol := o.symbol,
      side := if Text.Lower(o.side) == "buy" then Buy else Sell,
      orderType := if Text.Lower(o.orderType) == "limit" then LimitOrder else MarketOrder,
      quantity := o.qty,
      price := NonZero(o.limitPrice),
      filledQuantity := o.filledQty.GetOr(0.0),
      status := StatusOf(o.status),
      connectorName := Name)
  }

  /** Every venue status in the table, and OPEN for anything else. */
  lemma StatusMapping(f: StatusField)
    ensures StatusKey(f) in {"new", "accepted"} ==> StatusOf(f) == Open
    ensures StatusKey(f) == "pending_new" ==> StatusOf(f) == Pending
    ensures StatusKey(f) == "partially_filled" ==> StatusOf(f) == PartiallyFilled
    ensures StatusKey(f) in {"filled", "done_for_day"} ==> StatusOf(f) == Filled
    ensures StatusKey(f) in {"canceled", "replaced"} ==> StatusOf(f) == Cancelled
    ensures StatusKey(f) == "expired" ==> StatusOf(f) == Expired
    ensures StatusKey(f) == "rejected" ==> StatusOf(f) == Rejected
    ensures StatusKey(f) !in StatusTable ==> StatusOf(f) == Open
    ensures f == Absent ==> StatusOf(f) == Open
  {
  }

  /** Unlike the other venues, this one can report every one of the seven
      statuses. */
  lemma StatusTableCoversAll()
    ensures StatusTable.Values == AllStatuses
  {
    assert StatusTable["new"] == Open && StatusTable["pending_new"] == Pending;
    assert StatusTable["partially_filled"] == PartiallyFilled && StatusTable["filled"] == Filled;
    assert StatusTable["canceled"] == Cancelled && StatusTable["expired"] == Expired;
    assert StatusTable["rejected"] == Rejected;
  }

  /** A status given as text is looked up without regard to ASCII case. */
  lemma StatusIgnoresCase()
    ensures StatusOf(Other("FILLED")) == Filled
    ensures StatusOf(Other("Partially_Filled")) == PartiallyFilled
  {
    assert Text.Lower("FILLED") == "filled";
    assert Text.Lower("Partially_Filled") == "partially_filled";
  }

  datatype TimeInForce = Gtc | Day

  /** The two request kinds the library accepts. */
  datatype OrderRequest =
    | LimitOrderRequest(symbol: string, qty: Decimal, side: OrderSide, timeInForce: TimeInForce, limitPrice: Decimal)
    | MarketOrderRequest(symbol: string, qty: Decimal, side: OrderSide, timeInForce: TimeInForce)

  /** The request `place_order` builds: a limit order needs a price and is
      good until cancelled; a market order is a day order without a price. */
  function BuildRequest(symbol: string, side: OrderSide, orderType: OrderType, quantity: Decimal,
                        price: Option<Decimal>): (r: Result<OrderRequest, Error>)
    ensures r.Err? <==> orderType == LimitOrder && price == None
    ensures r.Err? ==> r.error == OrderError("Limit orders require a price")
    ensures r.Ok? ==> r.value.symbol == symbol && r.value.qty == quantity && r.value.side == side
    ensures r.Ok? ==> (r.value.LimitOrderRequest? <==> orderType == LimitOrder)
    ensures r.Ok? && r.value.LimitOrderRequest? ==> r.value.timeInForce == Gtc && price == Some(r.value.limitPrice)
    ensures r.Ok? && r.value.MarketOrderRequest? ==> r.value.timeInForce == Day
  {
    match orderType
    case LimitOrder =>
      if price == None then Err(OrderError("Limit orders require a price"))
      else Ok(LimitOrderRequest(symbol, quantity, side, Gtc, price.value))
    case MarketOrder => Ok(MarketOrderRequest(symbol, quantity, side, Day))
  }

  /** The account fields the balance is built from. */
  datatype Account = Account(cash: Decimal, portfolioValue: Decimal)

  /** A position object as the library returns it. */
  datatype VenuePosition = VenuePosition(
    symbol: string,
    qty: Decimal,
    avgEntryPrice: Decimal,
    currentPrice: Decimal,
    unrealizedPl: Decimal,
    side: string)

  function Abs(x: Decimal): Decimal { if x < 0.0 then -x else x }

  function PositionOf(p: VenuePosition): (r: Position)
    ensures r.symbol == p.symbol && r.quantity == Abs(p.qty) && r.quantity >= 0.0
    ensures r.side == Buy <==> p.side == "long"
    ensures r.entryPrice == p.avgEntryPrice && r.currentPrice == p.currentPrice
    ensures r.unrealizedPnl == p.unrealizedPl && r.connectorName == Name
  {
    Position(p.symbol, Abs(p.qty), p.avgEntryPrice, p.currentPrice, p.unrealizedPl,
             if p.side == "long" then Buy else Sell, Name)
  }

  /** The client session: the credentials it was built with and whether it
      trades on the paper account. */
  datatype Client = Client(apiKey: string, apiSecret: string, paper: bool)

  class Connector {
    const apiKey: string
    const apiSecret: string
    const paper: bool
    var client: Option<Client>

    constructor (apiKey: string := "", apiSecret: string := "", paper: bool := true)
      ensures this.apiKey == apiKey && this.apiSecret == apiSecret && this.paper == paper
      ensures client == None
    {
      this.apiKey := apiKey;
      this.apiSecret := apiSecret;
      this.paper := paper;
      client := None;
    }

    /** `initialize()`: `constructed` is the outcome of building the library
        client; on failure the connector keeps its previous client. */
    method Initialize(constructed: Result<(), string>) returns (r: Result<(), Error>)
      modifies this
      ensures constructed.Ok? ==> r == Ok(()) && client == Some(Client(apiKey, apiSecret, paper))
      ensures constructed.Err? ==>
        r == Err(ConnectorError(Name, "Failed to initialize: " + constructed.error)) && client == old(client)
    {
      if constructed.Err? {
        return Err(ConnectorError(Name, "Failed to initialize: " + constructed.error));
      }
      client := Some(Client(apiKey, apiSecret, paper));
      r := Ok(());
    }

    /** The reason a library call failed: the nested "not initialized"
        message when there is no client, otherwise the library's error. */
    function FailureText<T>(outcome: Result<T, string>): (reason: Option<string>)
      reads this
      ensures reason == None <==> client != None && outcome.Ok?
      ensures client == None ==> reason == Some(NotInitialized.Message())
      ensures client != None && outcome.Err? ==> reason == Some(outcome.error)
    {
      if client == None then Some(NotInitialized.Message())
      else if outcome.Err? then Some(outcome.error)
      else None
    }

    /** `get_balance()`: a single USD balance whose free part is the cash,
        whose total is the portfolio value, and whose used part is the rest. */
    function GetBalance(fetched: Result<Account, string>): (r: Result<seq<Balance>, Error>)
      reads this
      ensures client == None ==>
        r == Err(ConnectorError(Name, "Failed to fetch account: " + NotInitialized.Message()))
      ensures client != None && fetched.Err? ==>
        r == Err(ConnectorError(Name, "Failed to fetch account: " + fetched.error))
      ensures r.Ok? ==> client != None && fetched.Ok? && |r.value| == 1
      ensures r.Ok? ==> r.value[0].currency == "USD" && r.value[0].free == fetched.value.cash
      ensures r.Ok? ==> r.value[0].total == fetched.value.portfolioValue
      ensures r.Ok? ==> r.value[0].free + r.value[0].used == r.value[0].total
    {
      match FailureText(fetched)
      case Some(reason) => Err(ConnectorError(Name, "Failed to fetch account: " + reason))
      case None =>
        var a := fetched.value;
        Ok([Balance("USD", a.cash, a.portfolioValue - a.cash, a.portfolioValue)])
    }

    /** `get_positions()`: every position the venue reports, in order. */
    function GetPositions(fetched: Result<seq<VenuePosition>, string>): (r: Result<seq<Position>, Error>)
      reads this
      ensures client == None ==>
        r == Err(ConnectorError(Name, "Failed to fetch positions: " + NotInitialized.Message()))
      ensures client != None && fetched.Err? ==>
        r == Err(ConnectorError(Name, "Failed to fetch positions: " + fetched.error))
      ensures r.Ok? ==> client != None && fetched.Ok? && |r.value| == |fetched.value|
      ensures r.Ok? ==> forall i :: 0 <= i < |r.value| ==> r.value[i] == PositionOf(fetched.value[i])
    {
      match FailureText(fetched)
      case Some(reason) => Err(ConnectorError(Name, "Failed to fetch positions: " + reason))
      case None =>
        var ps := fetched.value;
        Ok(seq(|ps|, i requires 0 <= i < |ps| => PositionOf(ps[i])))
    }

    /** `get_markets()`: not backed by the venue; no markets. */
    function GetMarkets(): seq<Market> {
      []
    }

    /** `get_ticker(symbol)`: not backed by the venue; the symbol only. */
    function GetTicker(symbol: string): Ticker {
      Ticker(symbol, None, None, None)
    }

    /** `get_orderbook(symbol)`: not backed by the venue; an empty book. */
    function GetOrderbook(symbol: string): OrderBook {
      OrderBook(symbol)
    }

    /** `place_order(...)`: a limit order without a price fails before the
        client is touched; otherwise the built request goes to `submit`, the
        library's submission call, and its reply is mapped. */
    function PlaceOrder(symbol: string, side: OrderSide, orderType: OrderType, quantity: Decimal,
                        price: Option<Decimal>, submit: OrderRequest -> Result<VenueOrder, string>)
      : (r: Result<Order, Error>)
      reads this
      ensures orderType == LimitOrder && price == None ==> r == Err(OrderError("Limit orders require a price"))
      ensures !(orderType == LimitOrder && price == None) && client == None ==>
        r == Err(OrderError("Failed to place order on " + Name + ": " + NotInitialized.Message()))
      ensures !(orderType == LimitOrder && price == None) && client != None ==>
        var sent := BuildRequest(symbol, side, orderType, quantity, price).value;
        && (submit(sent).Err? ==> r == Err(OrderError("Failed to place order on " + Name + ": " + submit(sent).error)))
        && (submit(sent).Ok? ==> r == Ok(MapOrder(submit(sent).value)))
    {
      match BuildRequest(symbol, side, orderType, quantity, price)
      case Err(e) => Err(e)
      case Ok(request) =>
        if client == None then Err(OrderError("Failed to place order on " + Name + ": " + NotInitialized.Message()))
        else match submit(request)
          case Err(e) => Err(OrderError("Failed to place order on " + Name + ": " + e))
          case Ok(o) => Ok(MapOrder(o))
    }

    /** `cancel_order(order_id)`: true once the venue confirms. */
    function CancelOrder(orderId: string, cancelled: Result<(), string>): (r: Result<bool, Error>)
      reads this
      ensures r.Ok? <==> client != None && cancelled.Ok?
      ensures r.Ok? ==> r.value
      ensures r.Err? ==> r.error == OrderError("Failed to cancel order " + orderId + ": " + FailureText(cancelled).value, Some(orderId))
    {
      match FailureText(cancelled)
      case Some(reason) => Err(OrderError("Failed to cancel order " + orderId + ": " + reason, Some(orderId)))
      case None => Ok(true)
    }

    /** `get_order(order_id)`. */
    function GetOrder(orderId: string, fetched: Result<VenueOrder, string>): (r: Result<Order, Error>)
      reads this
      ensures r.Ok? <==> client != None && fetched.Ok?
      ensures r.Ok? ==> r.value == MapOrder(fetched.value)
      ensures r.Err? ==> r.error == OrderError("Failed to fetch order " + orderId + ": " + FailureText(fetched).value, Some(orderId))
    {
      match FailureText(fetched)
      case Some(reason) => Err(OrderError("Failed to fetch order " + orderId + ": " + reason, Some(orderId)))
      case None => Ok(MapOrder(fetched.value))
    }

    /** `get_order_history()`: every order mapped, in the venue's order. */
    function GetOrderHistory(fetched: Result<seq<VenueOrder>, string>): (r: Result<seq<Order>, Error>)
      reads this
      ensures r.Ok? <==> client != None && fetched.Ok?
      ensures r.Ok? ==> |r.value| == |fetched.value|
      ensures r.Ok? ==> forall i :: 0 <= i < |r.value| ==> r.value[i] == MapOrder(fetched.value[i])
      ensures r.Err? ==> r.error == ConnectorError(Name, "Failed to fetch order history: " + FailureText(fetched).value)
    {
      match FailureText(fetched)
      case Some(reason) => Err(ConnectorError(Name, "Failed to fetch order history: " + reason))
      case None =>
        var os := fetched.value;
        Ok(seq(|os|, i requires 0 <= i < |os| => MapOrder(os[i])))
    }

    /** `close()`: forgets the client, whether or not there was one. */
    method Close()
      modifies this
      ensures client == None
    {
      client := None;
    }
  }

  /** The venue-less reads answer the same with or without a client. */
  lemma StubReads(c: Connector, symbol: string)
    ensures c.GetMarkets() == []
    ensures var t := c.GetTicker(symbol);
      t.symbol == symbol && t.bid == None && t.ask == None && t.last == None && t.volume24h == None
    ensures var b := c.GetOrderbook(symbol); b.symbol == symbol && b.bids == [] && b.asks == []
  {
  }

  /** A limit order without a price never reaches the venue: the outcome is
      the same whatever the submission call would do and whether or not the
      connector is initialized. */
  lemma LimitNeedsPrice(c: Connector, symbol: string, side: OrderSide, q: Decimal,
                        submit1: OrderRequest -> Result<VenueOrder, string>,
                        submit2: OrderRequest -> Result<VenueOrder, string>)
    ensures c.PlaceOrder(symbol, side, LimitOrder, q, None, submit1)
         == c.PlaceOrder(symbol, side, LimitOrder, q, None, submit2)
    ensures c.PlaceOrder(symbol, side, LimitOrder, q, None, submit1).Err?
    ensures c.PlaceOrder(symbol, side, LimitOrder, q, None, submit1).error.Message() == "Limit orders require a price"
  {
  }

  /** Before `initialize()`, the balance fails with a connector error whose
      detail carries, in turn, the whole "not initialized" message. */
  lemma NotInitializedIsWrapped(c: Connector, fetched: Result<Account, string>)
    requires c.client == None
    ensures c.GetBalance(fetched).Err?
    ensures var outer := ParseConnectorMessage(c.GetBalance(fetched).error.Message());
      outer == Some((Name, "Failed to fetch account: " + NotInitialized.Message()))
    ensures ParseConnectorMessage(NotInitialized.Message()) == Some((Name, NotInitializedDetail))
  {
    ConnectorMessageRoundTrip(Name, "Failed to fetch account: " + NotInitialized.Message());
    ConnectorMessageRoundTrip(Name, NotInitializedDetail);
  }
}
