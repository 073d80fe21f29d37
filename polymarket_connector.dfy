/** The prediction-market connector. The order-book client library is not
    part of this model: each call into it is a parameter holding the value
    it returned or the text of the error it raised. As for the brokerage
    connector, calls through the `client` property sit inside `try` blocks
    that catch every error, so "not initialized" reaches the caller nested
    in the operation's own message. */
module PolymarketConnector {
  import opened Wrappers
  import opened Models
  import opened Exceptions
  import Text

  const Name := "polymarket"

  /** The error the `client` property raises before `initialize()`. */
  const NotInitialized := ConnectorError(Name, NotInitializedDetail)

  /** One market as the venue lists it; `None` marks a missing key. */
  datatype MarketPayload = MarketPayload(
    conditionId: Option<string>,
    question: Option<string>,
    active: Option<bool>)

  /** A market: the condition id is the symbol, the question (or, without
      one, the condition id) the base; every market is quoted in USDC with
      a minimum size of 1 and two decimals. */
  function MarketOf(m: MarketPayload): (r: Market)
    ensures r.symbol == m.conditionId.GetOr("")
    ensures r.baseCurrency == (if m.question.Some? then m.question.value else r.symbol)
    ensures r.quoteCurrency == "USDC" && r.minOrderSize == 1.0 && r.precision == 2
    ensures r.active == m.active.GetOr(true)
  {
    var conditionId := m.conditionId.GetOr("");
    Market(conditionId, m.question.GetOr(conditionId), "USDC", 1.0, 2, m.active.GetOr(true))
  }

  function Markets(ms: seq<MarketPayload>): (r: seq<Market>)
    ensures |r| == |ms|
    ensures forall i :: 0 <= i < |r| ==> r[i] == MarketOf(ms[i])
  {
    if ms == [] then [] else Markets(ms[..|ms| - 1]) + [MarketOf(ms[|ms| - 1])]
  }

  /** A price level of the venue's book. */
  datatype Level = Level(price: Decimal, size: Decimal)

  datatype Book = Book(bids: seq<Level>, asks: seq<Level>)

  /** The price at the head of one side of the book. */
  function BestPrice(levels: seq<Level>): (r: Option<Decimal>)
    ensures r.Some? <==> |levels| > 0
    ensures r.Some? ==> r.value == levels[0].price
  {
    if levels == [] then None else Some(levels[0].price)
  }

  function Entries(levels: seq<Level>): (r: seq<OrderBookEntry>)
    ensures |r| == |levels|
    ensures forall i :: 0 <= i < |r| ==> r[i].price == levels[i].price && r[i].quantity == levels[i].size
  {
    seq(|levels|, i requires 0 <= i < |levels| => OrderBookEntry(levels[i].price, levels[i].size))
  }

  /** The venue's two time-in-force kinds used here: good-till-cancelled
      and fill-or-kill. */
  datatype ClobOrderType = Gtc | Fok

  /** The arguments of the signed order. */
  datatype OrderArgs = OrderArgs(price: Decimal, size: Decimal, side: string, tokenId: string)

  /** What `place_order` asks the venue for: nothing without a price;
      otherwise the symbol as token, the side in upper case, and a
      good-till-cancelled order exactly when it is a limit order. */
  function Request(symbol: string, side: OrderSide, orderType: OrderType, quantity: Decimal,
                   price: Option<Decimal>): (r: Option<(OrderArgs, ClobOrderType)>)
    ensures r.Some? <==> price.Some?
    ensures r.Some? ==> r.value.0 == OrderArgs(price.value, quantity, Text.Upper(SideValue(side)), symbol)
    ensures r.Some? ==> (r.value.1 == Gtc <==> orderType == LimitOrder)
  {
    match price
    case None => None
    case Some(p) =>
      assert Text.Upper("buy") == "BUY" && Text.Upper("sell") == "SELL";
      Some((OrderArgs(p, quantity, if side == Buy then "BUY" else "SELL", symbol),
            if orderType == LimitOrder then Gtc else Fok))
  }

  /** The reply to a posted order; `None` marks a missing key. */
  datatype PostReply = PostReply(orderID: Option<string>, id: Option<string>)

  /** `result.get("orderID", result.get("id", "unknown"))`. */
  function PlacedId(reply: PostReply): (r: string)
    ensures reply.orderID.Some? ==> r == reply.orderID.value
    ensures reply.orderID.None? && reply.id.Some? ==> r == reply.id.value
    ensures reply.orderID.None? && reply.id.None? ==> r == "unknown"
  {
    reply.orderID.GetOr(reply.id.GetOr("unknown"))
  }

  /** An order record as the venue reports it; `None` marks a missing key. */
  datatype OrderRecord = OrderRecord(
    id: Option<string>,
    assetId: Option<string>,
    side: Option<string>,
    originalSize: Option<Decimal>,
    price: Option<Decimal>,
    sizeMatched: Option<Decimal>,
    status: Option<string>)

  /** A queried order: a limit order that is OPEN while the venue calls it
      "live" and FILLED otherwise. Missing amounts read as 0, so the price
      is always present. */
  function RecordOrder(rec: OrderRecord, defaultId: string, defaultSymbol: string): (r: Order)
    ensures r.orderId == rec.id.GetOr(defaultId) && r.symbol == rec.assetId.GetOr(defaultSymbol)
    ensures r.side == Buy <==> Text.Upper(rec.side.GetOr("")) == "BUY"
    ensures r.orderType == LimitOrder
    ensures r.status == Open <==> rec.status == Some("live")
    ensures r.status == Open || r.status == Filled
    ensures r.quantity == rec.originalSize.GetOr(0.0) && r.filledQuantity == rec.sizeMatched.GetOr(0.0)
    ensures r.price == Some(rec.price.GetOr(0.0))
    ensures r.connectorName == Name
  {
    Order(
      orderId := rec.id.GetOr(defaultId),
      symbol := rec.assetId.GetOr(defaultSymbol),
      side := if Text.Upper(rec.side.GetOr("")) == "BUY" then Buy else Sell,
      orderType := LimitOrder,
      quantity := rec.originalSize.GetOr(0.0),
      price := Some(rec.price.GetOr(0.0)),
      filledQuantity := rec.sizeMatched.GetOr(0.0),
      status := if rec.status == Some("live") then Open else Filled,
      connectorName := Name)
  }

  /** The side is read without regard to ASCII case. */
  lemma SideIgnoresCase(rec: OrderRecord, id: string, symbol: string)
    requires rec.side == Some("buy") || rec.side == Some("Buy")
    ensures RecordOrder(rec, id, symbol).side == Buy
  {
    assert Text.Upper("buy") == "BUY";
    assert Text.Upper("Buy") == "BUY";
  }

  /** The library client: where it connects, the key it signs with, the
      chain, and whether API credentials were derived and installed. */
  datatype Client = Client(host: string, key: string, chainId: int, credentialsSet: bool)

  /** The balance-allowance reply; `None` marks a missing `balance`. */
  datatype BalanceReply = BalanceReply(balance: Option<Decimal>)

  class Connector {
    const privateKey: string
    const chainId: int
    const host: string
    var client: Option<Client>

    constructor (privateKey: string := "", chainId: int := 137, host: string := "https://clob.polymarket.com")
      ensures this.privateKey == privateKey && this.chainId == chainId && this.host == host
      ensures client == None
    {
      this.privateKey := privateKey;
      this.chainId := chainId;
      this.host := host;
      client := None;
    }

    /** `initialize()`: `constructed` is the outcome of building the client
        and `derived` that of deriving its API credentials. The client is
        stored before the credentials are derived, so it stays set, without
        credentials, when deriving them fails. */
    method Initialize(constructed: Result<(), string>, derived: Result<(), string>) returns (r: Result<(), Error>)
      modifies this
      ensures constructed.Err? ==>
        r == Err(ConnectorError(Name, "Failed to initialize: " + constructed.error)) && client == old(client)
      ensures constructed.Ok? ==> client == Some(Client(host, privateKey, chainId, derived.Ok?))
      ensures constructed.Ok? && derived.Err? ==>
        r == Err(ConnectorError(Name, "Failed to initialize: " + derived.error))
      ensures constructed.Ok? && derived.Ok? ==> r == Ok(())
    {
      if constructed.Err? {
        return Err(ConnectorError(Name, "Failed to initialize: " + constructed.error));
      }
      client := Some(Client(host, privateKey, chainId, false));
      if derived.Err? {
        return Err(ConnectorError(Name, "Failed to initialize: " + derived.error));
      }
      client := Some(client.value.(credentialsSet := true));
      r := Ok(());
    }

    /** The reason a library call failed: the nested "not initialized"
        message when there is no client, otherwise the library's error. */
    function FailureText<T>(outcome: Result<T, string>): (reason: Option<string>)
      reads this
      ensures reason == None <==> client != None && outcome.Ok?
      ensures client == None ==> reason == Some(NotInitialized.Message())
      ensures client != None && outcome.Err? ==> reason == Some(outcome.error)
    {
      if client == None then Some(NotInitialized.Message())
      else if outcome.Err? then Some(outcome.error)
      else None
    }

    /** `get_balance()`: one USDC balance, all of it free. */
    function GetBalance(fetched: Result<BalanceReply, string>): (r: Result<seq<Balance>, Error>)
      reads this
      ensures r.Err? <==> FailureText(fetched).Some?
      ensures r.Err? ==> r.error == ConnectorError(Name, "Failed to fetch balance: " + FailureText(fetched).value)
      ensures r.Ok? ==> |r.value| == 1 && r.value[0].currency == "USDC"
      ensures r.Ok? ==> r.value[0].free == r.value[0].total == fetched.value.balance.GetOr(0.0)
      ensures r.Ok? ==> r.value[0].used == 0.0
    {
      match FailureText(fetched)
      case Some(reason) => Err(ConnectorError(Name, "Failed to fetch balance: " + reason))
      case None =>
        var amount := fetched.value.balance.GetOr(0.0);
        Ok([Balance("USDC", amount, 0.0, amount)])
    }

    /** `get_positions()`: outcome-token holdings are not reported. */
    function GetPositions(): (r: seq<Position>) {
      []
    }

    /** `get_markets()`: one market per listed entry, in order. */
    method GetMarkets(fetched: Result<seq<MarketPayload>, string>) returns (r: Result<seq<Market>, Error>)
      ensures r.Err? <==> FailureText(fetched).Some?
      ensures r.Err? ==> r.error == ConnectorError(Name, "Failed to fetch markets: " + FailureText(fetched).value)
      ensures r.Ok? ==> r.value == Markets(fetched.value)
    {
      var reason := FailureText(fetched);
      if reason.Some? {
        return Err(ConnectorError(Name, "Failed to fetch markets: " + reason.value));
      }
      var ms := fetched.value;
      var markets: seq<Market> := [];
      for i := 0 to |ms|
        invariant markets == Markets(ms[..i])
      {
        assert ms[..i + 1][..i] == ms[..i];
        markets := markets + [MarketOf(ms[i])];
      }
      assert ms[..|ms|] == ms;
      r := Ok(markets);
    }

    /** `get_ticker(symbol)`: best bid and ask from the head of the book,
        and the bid again as the last price. */
    function GetTicker(symbol: string, fetched: Result<Book, string>): (r: Result<Ticker, Error>)
      reads this
      ensures r.Err? <==> FailureText(fetched).Some?
      ensures r.Err? ==> r.error == ConnectorError(Name, "Failed to fetch ticker for " + symbol + ": " + FailureText(fetched).value)
      ensures r.Ok? ==> r.value.symbol == symbol && r.value.volume24h == None
      ensures r.Ok? ==> r.value.bid == BestPrice(fetched.value.bids) && r.value.ask == BestPrice(fetched.value.asks)
      ensures r.Ok? ==> r.value.last == r.value.bid
    {
      match FailureText(fetched)
      case Some(reason) => Err(ConnectorError(Name, "Failed to fetch ticker for " + symbol + ": " + reason))
      case None =>
        var bid := BestPrice(fetched.value.bids);
        Ok(Ticker(symbol, bid, BestPrice(fetched.value.asks), bid))
    }

    /** `get_orderbook(symbol)`: both sides in the venue's order. */
    function GetOrderbook(symbol: string, fetched: Result<Book, string>): (r: Result<OrderBook, Error>)
      reads this
      ensures r.Err? <==> FailureText(fetched).Some?
      ensures r.Err? ==> r.error == ConnectorError(Name, "Failed to fetch order book for " + symbol + ": " + FailureText(fetched).value)
      ensures r.Ok? ==> r.value.symbol == symbol
      ensures r.Ok? ==> r.value.bids == Entries(fetched.value.bids) && r.value.asks == Entries(fetched.value.asks)
    {
      match FailureText(fetched)
      case Some(reason) => Err(ConnectorError(Name, "Failed to fetch order book for " + symbol + ": " + reason))
      case None => Ok(OrderBook(symbol, Entries(fetched.value.bids), Entries(fetched.value.asks)))
    }

    /** `place_order(...)`: no order without a price; otherwise the request
        goes to `post`, the library's sign-and-post calls, and the placed
        order echoes what was asked, OPEN, under the id the venue gave. */
    function PlaceOrder(symbol: string, side: OrderSide, orderType: OrderType, quantity: Decimal,
                        price: Option<Decimal>, post: (OrderArgs, ClobOrderType) -> Result<PostReply, string>)
      : (r: Result<Order, Error>)
      reads this
      ensures price == None ==> r == Err(OrderError("Polymarket requires a price for all orders"))
      ensures price != None && client == None ==>
        r == Err(OrderError("Failed to place order on " + Name + ": " + NotInitialized.Message()))
      ensures price != None && client != None ==>
        var sent := Request(symbol, side, orderType, quantity, price).value;
        var reply := post(sent.0, sent.1);
        && (reply.Err? ==> r == Err(OrderError("Failed to place order on " + Name + ": " + reply.error)))
        && (reply.Ok? ==> r == Ok(Order(PlacedId(reply.value), symbol, side, orderType, quantity, price,
                                         0.0, Open, Name)))
    {
      match Request(symbol, side, orderType, quantity, price)
      case None => Err(OrderError("Polymarket requires a price for all orders"))
      case Some(sent) =>
        if client == None then Err(OrderError("Failed to place order on " + Name + ": " + NotInitialized.Message()))
        else match post(sent.0, sent.1)
          case Err(e) => Err(OrderError("Failed to place order on " + Name + ": " + e))
          case Ok(reply) =>
            Ok(Order(PlacedId(reply), symbol, side, orderType, quantity, price, 0.0, Open, Name))
    }

    /** `cancel_order(order_id)`: true once the venue confirms. */
    function CancelOrder(orderId: string, cancelled: Result<(), string>): (r: Result<bool, Error>)
      reads this
      ensures r.Ok? <==> client != None && cancelled.Ok?
      ensures r.Ok? ==> r.value
      ensures r.Err? ==> r.error == OrderError("Failed to cancel order " + orderId + ": " + FailureText(cancelled).value, Some(orderId))
    {
      match FailureText(cancelled)
      case Some(reason) => Err(OrderError("Failed to cancel order " + orderId + ": " + reason, Some(orderId)))
      case None => Ok(true)
    }

    /** `get_order(order_id, symbol)`: the id and symbol asked for stand in
        for missing ones. */
    function GetOrder(orderId: string, symbol: Option<string>, fetched: Result<OrderRecord, string>)
      : (r: Result<Order, Error>)
      reads this
      ensures r.Ok? <==> client != None && fetched.Ok?
      ensures r.Ok? ==> r.value == RecordOrder(fetched.value, orderId, symbol.GetOr(""))
      ensures r.Err? ==> r.error == OrderError("Failed to fetch order " + orderId + ": " + FailureText(fetched).value, Some(orderId))
    {
      match FailureText(fetched)
      case Some(reason) => Err(OrderError("Failed to fetch order " + orderId + ": " + reason, Some(orderId)))
      case None => Ok(RecordOrder(fetched.value, orderId, symbol.GetOr("")))
    }

    /** `get_order_history()`: every record mapped, in the venue's order. */
    function GetOrderHistory(fetched: Result<seq<OrderRecord>, string>): (r: Result<seq<Order>, Error>)
      reads this
      ensures r.Ok? <==> client != None && fetched.Ok?
      ensures r.Ok? ==> |r.value| == |fetched.value|
      ensures r.Ok? ==> forall i :: 0 <= i < |r.value| ==> r.value[i] == RecordOrder(fetched.value[i], "", "")
      ensures r.Err? ==> r.error == ConnectorError(Name, "Failed to fetch order history: " + FailureText(fetched).value)
    {
      match FailureText(fetched)
      case Some(reason) => Err(ConnectorError(Name, "Failed to fetch order history: " + reason))
      case None =>
        var rs := fetched.value;
        Ok(seq(|rs|, i requires 0 <= i < |rs| => RecordOrder(rs[i], "", "")))
    }

    /** `close()`: forgets the client unconditionally. */
    method Close()
      modifies this
      ensures client == None
    {
      client := None;
    }
  }

  /** Without a price nothing is sent, whatever the order type, the venue's
      behaviour or the connector's state. */
  lemma PriceAlwaysRequired(c: Connector, symbol: string, side: OrderSide, t: OrderType, q: Decimal,
                            post1: (OrderArgs, ClobOrderType) -> Result<PostReply, string>,
                            post2: (OrderArgs, ClobOrderType) -> Result<PostReply, string>)
    ensures c.PlaceOrder(symbol, side, t, q, None, post1) == c.PlaceOrder(symbol, side, t, q, None, post2)
    ensures c.PlaceOrder(symbol, side, t, q, None, post1).Err?
    ensures c.PlaceOrder(symbol, side, t, q, None, post1).error.OrderError?
  {
  }

  /** Positions are never reported, with or without a client. */
  lemma PositionsNeverReported(c: Connector)
    ensures c.GetPositions() == []
  {
  }

  /** A market order becomes fill-or-kill, a limit order good-till-cancelled. */
  lemma TimeInForceChoice(symbol: string, side: OrderSide, q: Decimal, p: Decimal)
    ensures Request(symbol, side, MarketOrder, q, Some(p)).value.1 == Fok
    ensures Request(symbol, side, LimitOrder, q, Some(p)).value.1 == Gtc
  {
  }

  /** The outcome of a queried order is OPEN or FILLED, never anything else. */
  lemma BinaryStatus(c: Connector, rs: seq<OrderRecord>)
    requires c.client != None
    ensures forall o :: o in c.GetOrderHistory(Ok(rs)).value ==> o.status in {Open, Filled}
  {
  }
}
