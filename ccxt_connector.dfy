/** The crypto-exchange connector. The exchange client library is not part of
    this model: each call into it is a parameter holding either the payload it
    returned or the text of the error it raised. */
module CcxtConnector {
  import opened Wrappers
  import opened Models
  import opened Exceptions

  const Name := "ccxt"

  /** The venue's status vocabulary (`_CCXT_STATUS_MAP`). */
  const StatusTable: map<string, OrderStatus> := map[
    "open" := Open,
    "closed" := Filled,
    "canceled" := Cancelled,
    "cancelled" := Cancelled,
    "expired" := Expired,
    "rejected" := Rejected]

  /** The `status` entry of an order payload: absent, present but null, or text. */
  datatype StatusField = Absent | Null | Text(s: string)

  /** An order as the exchange library reports it. Amounts that are missing
      or null are `None`. */
  datatype OrderPayload = OrderPayload(
    id: string,
    symbol: string,
    side: string,
    orderType: Option<string>,
    status: StatusField,
    filled: Option<Decimal>,
    amount: Option<Decimal>,
    price: Option<Decimal>)

  /** `data.get("status", "open")`: a missing status reads as "open", a null
      one as no string at all. */
  function StatusString(f: StatusField): Option<string> {
    match f
    case Absent => Some("open")
    case Null => None
    case Text(s) => Some(s)
  }

  /** The table lookup with OPEN for anything the table does not know. */
  function TableStatus(s: Option<string>): (st: OrderStatus)
    ensures st != PartiallyFilled && st != Pending
    ensures s.Some? && s.value in StatusTable ==> st == StatusTable[s.value]
    ensures !(s.Some? && s.value in StatusTable) ==> st == Open
  {
    if s.Some? && s.value in StatusTable then StatusTable[s.value] else Open
  }

  /** The status of a mapped order: an open order with `0 < filled < amount`
      is partially filled; otherwise the table decides. */
  function StatusOf(f: StatusField, filled: Decimal, amount: Decimal): (st: OrderStatus)
    ensures st == PartiallyFilled <==> StatusString(f) == Some("open") && 0.0 < filled < amount
    ensures st != PartiallyFilled ==> st == TableStatus(StatusString(f))
  {
    if StatusString(f) == Some("open") && 0.0 < filled && filled < amount then PartiallyFilled
    else TableStatus(StatusString(f))
  }

  /** `_map_order`: an unknown side is a `ValueError` raised by the enum. */
  function MapOrder(p: OrderPayload): (r: Result<Order, Error>)
    ensures r.Ok? <==> p.side in {"buy", "sell"}
    ensures r.Err? ==> r.error.OtherError?
    ensures r.Ok? ==>
      && r.value.orderId == p.id && r.value.symbol == p.symbol
      && SideValue(r.value.side) == p.side
      && (r.value.orderType == LimitOrder <==> p.orderType == Some("limit"))
      && r.value.quantity == p.amount.GetOr(0.0)
      && r.value.filledQuantity == p.filled.GetOr(0.0)
      && r.value.price == NonZero(p.price)
      && r.value.status == StatusOf(p.status, p.filled.GetOr(0.0), p.amount.GetOr(0.0))
      && r.value.connectorName == Name
  {
    var filled := p.filled.GetOr(0.0);
    var amount := p.amount.GetOr(0.0);
    match ParseSide(p.side)
    case None => Err(OtherError("'" + p.side + "' is not a valid OrderSide"))
    case Some(side) =>
      var t := if p.orderType == Some("limit") then LimitOrder else MarketOrder;
      Ok(Order(p.id, p.symbol, side, t, amount, NonZero(p.price), filled,
               StatusOf(p.status, filled, amount), Name))
  }

  /** The mapping reads nothing but the payload: the same status, filled and
      amount give the same status, on every call. */
  lemma MapOrderStatusDeterministic(p: OrderPayload, q: OrderPayload)
    requires p.status == q.status && p.filled.GetOr(0.0) == q.filled.GetOr(0.0)
    requires p.amount.GetOr(0.0) == q.amount.GetOr(0.0)
    requires MapOrder(p).Ok? && MapOrder(q).Ok?
    ensures MapOrder(p).value.status == MapOrder(q).value.status
  {
  }

  /** An open (or status-less) order with some but not all of its amount
      filled is partially filled, with the filled amount carried over. */
  lemma PartialFill(p: OrderPayload)
    requires p.status == Text("open") || p.status == Absent
    requires p.side in {"buy", "sell"}
    requires 0.0 < p.filled.GetOr(0.0) < p.amount.GetOr(0.0)
    ensures MapOrder(p).Ok?
    ensures MapOrder(p).value.status == PartiallyFilled
    ensures MapOrder(p).value.filledQuantity == p.filled.value
  {
  }

  /** Outside the partial-fill case each venue status maps through the table;
      an unknown or null status is OPEN. */
  lemma TableStatuses(f: StatusField, filled: Decimal, amount: Decimal)
    ensures f == Text("closed") ==> StatusOf(f, filled, amount) == Filled
    ensures f == Text("canceled") || f == Text("cancelled") ==> StatusOf(f, filled, amount) == Cancelled
    ensures f == Text("expired") ==> StatusOf(f, filled, amount) == Expired
    ensures f == Text("rejected") ==> StatusOf(f, filled, amount) == Rejected
    ensures f == Null ==> StatusOf(f, filled, amount) == Open
    ensures f.Text? && f.s !in StatusTable ==> StatusOf(f, filled, amount) == Open
    ensures (f == Text("open") || f == Absent) && !(0.0 < filled < amount) ==> StatusOf(f, filled, amount) == Open
  {
  }

  /** The venue never reports a pending order, and every other status can
      arise. */
  lemma StatusRange(f: StatusField, filled: Decimal, amount: Decimal)
    ensures StatusOf(f, filled, amount) != Pending
    ensures StatusOf(Text("open"), 1.0, 2.0) == PartiallyFilled
    ensures forall s :: s in StatusTable.Values ==> s in {Open, Filled, Cancelled, Expired, Rejected}
    ensures StatusTable.Values == {Open, Filled, Cancelled, Expired, Rejected}
  {
    assert StatusTable["open"] == Open && StatusTable["closed"] == Filled;
    assert StatusTable["canceled"] == Cancelled && StatusTable["expired"] == Expired;
    assert StatusTable["rejected"] == Rejected;
  }

  /** The example from the unit tests: open, 5 of 10 filled. */
  lemma PartialFillExample()
    ensures var o := MapOrder(OrderPayload("order-2", "ETH/USDT", "sell", Some("limit"), Text("open"),
                                           Some(5.0), Some(10.0), Some(3000.0)));
      o.Ok? && o.value.status == PartiallyFilled && o.value.filledQuantity == 5.0
      && o.value.side == Sell && o.value.price == Some(3000.0)
  {
  }

  /** The markets entry for one symbol. */
  datatype MarketPayload = MarketPayload(
    base: Option<string>,
    quote: Option<string>,
    minAmount: Option<Decimal>,
    amountPrecision: Option<int>,
    active: Option<bool>)

  function MarketOf(symbol: string, m: MarketPayload): (r: Market)
    ensures r.symbol == symbol && r.precision != 0
    ensures r.baseCurrency == m.base.GetOr("") && r.quoteCurrency == m.quote.GetOr("")
    ensures r.minOrderSize == (if m.minAmount.Some? then m.minAmount.value else 0.0)
    ensures m.amountPrecision.Some? && m.amountPrecision.value != 0 ==> r.precision == m.amountPrecision.value
    ensures m.amountPrecision.None? || m.amountPrecision == Some(0) ==> r.precision == 8
    ensures r.active <==> m.active != Some(false)
  {
    Market(symbol, m.base.GetOr(""), m.quote.GetOr(""),
           NonZero(m.minAmount).GetOr(0.0),
           if m.amountPrecision.None? || m.amountPrecision.value == 0 then 8 else m.amountPrecision.value,
           m.active.GetOr(true))
  }

  /** The markets list, one entry per loaded symbol in the venue's order. */
  function Markets(entries: seq<(string, MarketPayload)>): (r: seq<Market>)
    ensures |r| == |entries|
    ensures forall i :: 0 <= i < |r| ==> r[i] == MarketOf(entries[i].0, entries[i].1)
  {
    if entries == [] then []
    else Markets(entries[..|entries| - 1]) + [MarketOf(entries[|entries| - 1].0, entries[|entries| - 1].1)]
  }

  /** The fetched balance: entries of `total` in the venue's order, and the
      `free` and `used` tables. */
  datatype BalancePayload = BalancePayload(
    total: seq<(string, Option<Decimal>)>,
    free: map<string, Option<Decimal>>,
    used: map<string, Option<Decimal>>)

  /** `table.get(currency, 0) or 0`. */
  function AmountIn(table: map<string, Option<Decimal>>, currency: string): Decimal {
    if currency in table then table[currency].GetOr(0.0) else 0.0
  }

  /** A `total` entry the connector reports: present and positive. */
  predicate Held(entry: (string, Option<Decimal>)) {
    entry.1.Some? && entry.1.value > 0.0
  }

  function BalanceOf(data: BalancePayload, entry: (string, Option<Decimal>)): Balance
    requires Held(entry)
  {
    Balance(entry.0, AmountIn(data.free, entry.0), AmountIn(data.used, entry.0), entry.1.value)
  }

  /** The balances of the held entries among `entries`, in order. */
  function Balances(data: BalancePayload, entries: seq<(string, Option<Decimal>)>): (r: seq<Balance>)
    ensures |r| <= |entries|
    ensures forall b :: b in r ==>
      && b.total > 0.0
      && (b.currency, Some(b.total)) in entries
      && b.free == AmountIn(data.free, b.currency)
      && b.used == AmountIn(data.used, b.currency)
  {
    if entries == [] then []
    else
      var last := entries[|entries| - 1];
      var before := Balances(data, entries[..|entries| - 1]);
      before + (if Held(last) then [BalanceOf(data, last)] else [])
  }

  /** The reported currencies are exactly those whose total is positive. */
  lemma {:induction false} BalanceCurrencies(data: BalancePayload, entries: seq<(string, Option<Decimal>)>)
    ensures (set b | b in Balances(data, entries) :: b.currency)
         == (set e | e in entries && Held(e) :: e.0)
  {
    if entries != [] {
      var init := entries[..|entries| - 1];
      var last := entries[|entries| - 1];
      BalanceCurrencies(data, init);
      assert entries == init + [last];
      var r := Balances(data, entries);
      var before := Balances(data, init);
      assert r == before + (if Held(last) then [BalanceOf(data, last)] else []);
      assert (set e | e in entries && Held(e) :: e.0)
          == (set e | e in init && Held(e) :: e.0) + (if Held(last) then {last.0} else {});
      assert (set b | b in r :: b.currency)
          == (set b | b in before :: b.currency) + (if Held(last) then {last.0} else {});
    }
  }

  /** The balance example from the connector's unit tests: both currencies
      are held, each with its free amount. */
  lemma BalanceExample()
    ensures var data := BalancePayload([("BTC", Some(1.5)), ("USDT", Some(10000.0))],
                                       map["BTC" := Some(1.0), "USDT" := Some(8000.0)],
                                       map["BTC" := Some(0.5), "USDT" := Some(2000.0)]);
      var bs := Balances(data, data.total);
      |bs| == 2 && bs[0] == Balance("BTC", 1.0, 0.5, 1.5) && bs[1] == Balance("USDT", 8000.0, 2000.0, 10000.0)
  {
    var data := BalancePayload([("BTC", Some(1.5)), ("USDT", Some(10000.0))],
                               map["BTC" := Some(1.0), "USDT" := Some(8000.0)],
                               map["BTC" := Some(0.5), "USDT" := Some(2000.0)]);
    assert data.total[..1] == [("BTC", Some(1.5))];
    assert data.total[..1][..0] == [];
  }

  /** An open position as the venue reports it. */
  datatype PositionPayload = PositionPayload(
    symbol: string,
    contracts: Option<Decimal>,
    entryPrice: Option<Decimal>,
    markPrice: Option<Decimal>,
    unrealizedPnl: Option<Decimal>,
    side: Option<string>)

  function Abs(x: Decimal): Decimal { if x < 0.0 then -x else x }

  predicate HasContracts(p: PositionPayload) { p.contracts.GetOr(0.0) != 0.0 }

  function PositionOf(p: PositionPayload): (r: Position)
    ensures HasContracts(p) ==> r.quantity > 0.0
    ensures r.quantity >= 0.0
    ensures r.quantity == p.contracts.GetOr(0.0) || r.quantity == -p.contracts.GetOr(0.0)
    ensures r.side == Buy <==> p.side == Some("long")
    ensures r.symbol == p.symbol && r.connectorName == Name
    ensures r.entryPrice == p.entryPrice.GetOr(0.0) && r.currentPrice == p.markPrice.GetOr(0.0)
    ensures r.unrealizedPnl == p.unrealizedPnl.GetOr(0.0)
  {
    Position(
      symbol := p.symbol,
      quantity := Abs(p.contracts.GetOr(0.0)),
      entryPrice := p.entryPrice.GetOr(0.0),
      currentPrice := p.markPrice.GetOr(0.0),
      unrealizedPnl := p.unrealizedPnl.GetOr(0.0),
      side := if p.side == Some("long") then Buy else Sell,
      connectorName := Name)
  }

  /** The positions with a non-zero number of contracts, in order. */
  function Positions(ps: seq<PositionPayload>): (r: seq<Position>)
    ensures |r| <= |ps|
    ensures forall q :: q in r ==> q.quantity > 0.0 && q.connectorName == Name
    ensures forall q :: q in r ==> exists p :: p in ps && HasContracts(p) && q == PositionOf(p)
    ensures forall p :: p in ps && HasContracts(p) ==> PositionOf(p) in r
  {
    if ps == [] then []
    else
      var last := ps[|ps| - 1];
      assert ps == ps[..|ps| - 1] + [last];
      Positions(ps[..|ps| - 1]) + (if HasContracts(last) then [PositionOf(last)] else [])
  }

  /** An order book as the venue reports it: (price, amount) pairs, best first. */
  datatype BookPayload = BookPayload(bids: seq<(Decimal, Decimal)>, asks: seq<(Decimal, Decimal)>)

  function Entries(levels: seq<(Decimal, Decimal)>): (r: seq<OrderBookEntry>)
    ensures |r| == |levels|
    ensures forall i :: 0 <= i < |r| ==> r[i].price == levels[i].0 && r[i].quantity == levels[i].1
  {
    seq(|levels|, i requires 0 <= i < |levels| => OrderBookEntry(levels[i].0, levels[i].1))
  }

  /** The ticker fields the venue reports, `None` when missing. */
  datatype TickerPayload = TickerPayload(
    bid: Option<Decimal>,
    ask: Option<Decimal>,
    last: Option<Decimal>,
    quoteVolume: Option<Decimal>)

  /** The arguments of the venue's order-creation call: type and side as
      their string values, the price as given. */
  datatype CreateRequest = CreateRequest(
    symbol: string,
    orderType: string,
    side: string,
    amount: Decimal,
    price: Option<Decimal>)

  /** The live session of the exchange library: the exchange it talks to,
      the credentials it was given, whether it is in sandbox mode, and the
      markets table once loaded. */
  datatype Exchange = Exchange(
    id: string,
    credentials: Option<(string, string)>,
    sandbox: bool,
    markets: Option<seq<(string, MarketPayload)>>)

  class Connector {
    const exchangeId: string
    const apiKey: string
    const apiSecret: string
    const testnet: bool
    var exchange: Option<Exchange>

    constructor (exchangeId: string := "binance", apiKey: string := "", apiSecret: string := "",
                 testnet: bool := true)
      ensures this.exchangeId == exchangeId && this.apiKey == apiKey
      ensures this.apiSecret == apiSecret && this.testnet == testnet
      ensures exchange == None
    {
      this.exchangeId := exchangeId;
      this.apiKey := apiKey;
      this.apiSecret := apiSecret;
      this.testnet := testnet;
      exchange := None;
    }

    /** The `exchange` property: the session, or a "not initialized"
        connector error before `initialize()`. */
    function Session(): (r: Result<Exchange, Error>)
      reads this
      ensures r.Err? <==> exchange == None
      ensures r.Err? ==> r.error == ConnectorError(Name, NotInitializedDetail)
      ensures r.Ok? ==> exchange == Some(r.value)
    {
      match exchange
      case None => Err(ConnectorError(Name, NotInitializedDetail))
      case Some(e) => Ok(e)
    }

    /** `initialize()`: `supported` holds the exchange ids the library
        provides, `constructed` the outcome of building the exchange object,
        `sandboxed` the outcome of switching it to the test network (asked
        for only when `testnet` is set) and `loaded` the outcome of loading
        the markets table. The first two run outside any handler, so their
        failures leave as they are raised; only the markets failure becomes a
        `ConnectorError`. The session is kept once the object is built, even
        when a later step fails. */
    method Initialize(supported: set<string>, constructed: Result<(), string>,
                      sandboxed: Result<(), string>,
                      loaded: Result<seq<(string, MarketPayload)>, string>)
      returns (r: Result<(), Error>)
      modifies this
      ensures exchangeId !in supported ==>
        r == Err(ConnectorError(Name, "Unknown exchange: " + exchangeId)) && exchange == old(exchange)
      ensures exchangeId in supported && constructed.Err? ==>
        r == Err(OtherError(constructed.error)) && exchange == old(exchange)
      ensures exchangeId in supported && constructed.Ok? ==>
        && exchange.Some? && exchange.value.id == exchangeId
        && exchange.value.credentials == (if apiKey != "" then Some((apiKey, apiSecret)) else None)
      ensures exchangeId in supported && constructed.Ok? && testnet && sandboxed.Err? ==>
        r == Err(OtherError(sandboxed.error)) && !exchange.value.sandbox && exchange.value.markets == None
      ensures exchangeId in supported && constructed.Ok? && (!testnet || sandboxed.Ok?) ==>
        && exchange.value.sandbox == testnet
        && exchange.value.markets == (if loaded.Ok? then Some(loaded.value) else None)
        && r == (if loaded.Ok? then Ok(())
                 else Err(ConnectorError(Name, "Failed to load markets: " + loaded.error)))
    {
      if exchangeId !in supported {
        return Err(ConnectorError(Name, "Unknown exchange: " + exchangeId));
      }
      if constructed.Err? {
        return Err(OtherError(constructed.error));
      }
      var credentials := if apiKey != "" then Some((apiKey, apiSecret)) else None;
      exchange := Some(Exchange(exchangeId, credentials, false, None));
      if testnet {
        if sandboxed.Err? {
          return Err(OtherError(sandboxed.error));
        }
        exchange := Some(exchange.value.(sandbox := true));
      }
      match loaded
      case Err(e) =>
        r := Err(ConnectorError(Name, "Failed to load markets: " + e));
      case Ok(markets) =>
        exchange := Some(exchange.value.(markets := Some(markets)));
        r := Ok(());
    }

    /** `get_balance()`: one balance per currency whose total is positive,
        in the venue's order. */
    method GetBalance(fetched: Result<BalancePayload, string>) returns (r: Result<seq<Balance>, Error>)
      ensures exchange == None ==> r == Err(ConnectorError(Name, NotInitializedDetail))
      ensures exchange != None && fetched.Err? ==>
        r == Err(ConnectorError(Name, "Failed to fetch balance: " + fetched.error))
      ensures exchange != None && fetched.Ok? ==> r == Ok(Balances(fetched.value, fetched.value.total))
    {
      var session := Session();
      if session.Err? {
        return Err(session.error);
      }
      if fetched.Err? {
        return Err(ConnectorError(Name, "Failed to fetch balance: " + fetched.error));
      }
      var data := fetched.value;
      var balances: seq<Balance> := [];
      var i := 0;
      while i < |data.total|
        invariant 0 <= i <= |data.total|
        invariant balances == Balances(data, data.total[..i])
      {
        assert data.total[..i + 1][..i] == data.total[..i];
        var entry := data.total[i];
        if Held(entry) {
          balances := balances + [Balance(entry.0, AmountIn(data.free, entry.0),
                                          AmountIn(data.used, entry.0), entry.1.value)];
        }
        i := i + 1;
      }
      assert data.total[..|data.total|] == data.total;
      r := Ok(balances);
    }

    /** `get_positions()`: positions with contracts, and an empty list when
        the venue cannot report positions. */
    method GetPositions(fetched: Result<seq<PositionPayload>, string>) returns (r: Result<seq<Position>, Error>)
      ensures exchange == None ==> r == Err(ConnectorError(Name, NotInitializedDetail))
      ensures exchange != None && fetched.Err? ==> r == Ok([])
      ensures exchange != None && fetched.Ok? ==> r == Ok(Positions(fetched.value))
    {
      var session := Session();
      if session.Err? {
        return Err(session.error);
      }
      if fetched.Err? {
        return Ok([]);
      }
      var ps := fetched.value;
      var positions: seq<Position> := [];
      for i := 0 to |ps|
        invariant positions == Positions(ps[..i])
      {
        assert ps[..i + 1][..i] == ps[..i];
        if !HasContracts(ps[i]) {
          continue;
        }
        positions := positions + [PositionOf(ps[i])];
      }
      assert ps[..|ps|] == ps;
      r := Ok(positions);
    }

    /** `get_markets()`: one market per loaded symbol. A session whose
        markets were never loaded has no table to read. */
    method GetMarkets() returns (r: Result<seq<Market>, Error>)
      ensures exchange == None ==> r == Err(ConnectorError(Name, NotInitializedDetail))
      ensures exchange != None && exchange.value.markets == None ==> r.Err? && r.error.OtherError?
      ensures exchange != None && exchange.value.markets != None ==>
        r == Ok(Markets(exchange.value.markets.value))
    {
      var session := Session();
      if session.Err? {
        return Err(session.error);
      }
      if session.value.markets.None? {
        return Err(OtherError("'NoneType' object has no attribute 'items'"));
      }
      var entries := session.value.markets.value;
      var markets: seq<Market> := [];
      for i := 0 to |entries|
        invariant markets == Markets(entries[..i])
      {
        assert entries[..i + 1][..i] == entries[..i];
        markets := markets + [MarketOf(entries[i].0, entries[i].1)];
      }
      assert entries[..|entries|] == entries;
      r := Ok(markets);
    }

    /** `get_ticker(symbol)`: each field is the venue's value, or `None` when
        that value is missing or zero. */
    function GetTicker(symbol: string, fetched: Result<TickerPayload, string>): (r: Result<Ticker, Error>)
      reads this
      ensures exchange == None ==> r == Err(ConnectorError(Name, NotInitializedDetail))
      ensures exchange != None && fetched.Err? ==>
        r == Err(ConnectorError(Name, "Failed to fetch ticker for " + symbol + ": " + fetched.error))
      ensures r.Ok? ==> exchange != None && fetched.Ok? && r.value.symbol == symbol
      ensures r.Ok? ==> r.value.bid == NonZero(fetched.value.bid) && r.value.ask == NonZero(fetched.value.ask)
      ensures r.Ok? ==> r.value.last == NonZero(fetched.value.last)
      ensures r.Ok? ==> r.value.volume24h == NonZero(fetched.value.quoteVolume)
    {
      match Session()
      case Err(e) => Err(e)
      case Ok(_) =>
        match fetched
        case Err(e) => Err(ConnectorError(Name, "Failed to fetch ticker for " + symbol + ": " + e))
        case Ok(t) => Ok(Ticker(symbol, NonZero(t.bid), NonZero(t.ask), NonZero(t.last), NonZero(t.quoteVolume)))
    }

    /** `get_orderbook(symbol)`: bids and asks in the venue's order. */
    function GetOrderbook(symbol: string, fetched: Result<BookPayload, string>): (r: Result<OrderBook, Error>)
      reads this
      ensures exchange == None ==> r == Err(ConnectorError(Name, NotInitializedDetail))
      ensures exchange != None && fetched.Err? ==>
        r == Err(ConnectorError(Name, "Failed to fetch order book for " + symbol + ": " + fetched.error))
      ensures r.Ok? ==> exchange != None && fetched.Ok? && r.value.symbol == symbol
      ensures r.Ok? ==> |r.value.bids| == |fetched.value.bids| && |r.value.asks| == |fetched.value.asks|
      ensures r.Ok? ==> forall i :: 0 <= i < |r.value.bids| ==>
        r.value.bids[i] == OrderBookEntry(fetched.value.bids[i].0, fetched.value.bids[i].1)
      ensures r.Ok? ==> forall i :: 0 <= i < |r.value.asks| ==>
        r.value.asks[i] == OrderBookEntry(fetched.value.asks[i].0, fetched.value.asks[i].1)
    {
      match Session()
      case Err(e) => Err(e)
      case Ok(_) =>
        match fetched
        case Err(e) => Err(ConnectorError(Name, "Failed to fetch order book for " + symbol + ": " + e))
        case Ok(b) => Ok(OrderBook(symbol, Entries(b.bids), Entries(b.asks)))
    }

    /** `place_order(...)`: the order is sent as given (this venue does not
        check that a limit order has a price) and the venue's reply mapped.
        `create` stands for the venue's order-creation call. */
    function PlaceOrder(symbol: string, side: OrderSide, orderType: OrderType, quantity: Decimal,
                        price: Option<Decimal>, create: CreateRequest -> Result<OrderPayload, string>)
      : (r: Result<Order, Error>)
      reads this
      ensures exchange == None ==> r == Err(ConnectorError(Name, NotInitializedDetail))
      ensures exchange != None ==>
        var sent := CreateRequest(symbol, TypeValue(orderType), SideValue(side), quantity, price);
        && (create(sent).Err? ==> r == Err(OrderError("Failed to place order on " + Name + ": " + create(sent).error)))
        && (create(sent).Ok? ==> r == MapOrder(create(sent).value))
    {
      match Session()
      case Err(e) => Err(e)
      case Ok(_) =>
        match create(CreateRequest(symbol, TypeValue(orderType), SideValue(side), quantity, price))
        case Err(e) => Err(OrderError("Failed to place order on " + Name + ": " + e))
        case Ok(p) => MapOrder(p)
    }

    /** `cancel_order(order_id)`: true once the venue confirms. */
    function CancelOrder(orderId: string, cancelled: Result<(), string>): (r: Result<bool, Error>)
      reads this
      ensures exchange == None ==> r == Err(ConnectorError(Name, NotInitializedDetail))
      ensures exchange != None && cancelled.Err? ==>
        r == Err(OrderError("Failed to cancel order " + orderId + ": " + cancelled.error, Some(orderId)))
      ensures exchange != None && cancelled.Ok? ==> r == Ok(true)
    {
      match Session()
      case Err(e) => Err(e)
      case Ok(_) =>
        match cancelled
        case Err(e) => Err(OrderError("Failed to cancel order " + orderId + ": " + e, Some(orderId)))
        case Ok(_) => Ok(true)
    }

    /** `get_order(order_id)`: the venue's current view of the order. */
    function GetOrder(orderId: string, fetched: Result<OrderPayload, string>): (r: Result<Order, Error>)
      reads this
      ensures exchange == None ==> r == Err(ConnectorError(Name, NotInitializedDetail))
      ensures exchange != None && fetched.Err? ==>
        r == Err(OrderError("Failed to fetch order " + orderId + ": " + fetched.error, Some(orderId)))
      ensures exchange != None && fetched.Ok? ==> r == MapOrder(fetched.value)
    {
      match Session()
      case Err(e) => Err(e)
      case Ok(_) =>
        match fetched
        case Err(e) => Err(OrderError("Failed to fetch order " + orderId + ": " + e, Some(orderId)))
        case Ok(p) => MapOrder(p)
    }

    /** `get_order_history()`: every order mapped, in the venue's order. */
    function GetOrderHistory(fetched: Result<seq<OrderPayload>, string>): (r: Result<seq<Order>, Error>)
      reads this
      ensures exchange == None ==> r == Err(ConnectorError(Name, NotInitializedDetail))
      ensures exchange != None && fetched.Err? ==>
        r == Err(ConnectorError(Name, "Failed to fetch order history: " + fetched.error))
      ensures exchange != None && fetched.Ok? ==> r == MapOrders(fetched.value)
    {
      match Session()
      case Err(e) => Err(e)
      case Ok(_) =>
        match fetched
        case Err(e) => Err(ConnectorError(Name, "Failed to fetch order history: " + e))
        case Ok(ps) => MapOrders(ps)
    }

    /** `close()`: ends the session and forgets it; nothing to do without
        one. If the library fails to close, its error propagates and the
        session is kept. */
    method Close(closed: Result<(), string>) returns (r: Result<(), Error>)
      modifies this
      ensures old(exchange) == None ==> r == Ok(()) && exchange == None
      ensures old(exchange) != None && closed.Ok? ==> r == Ok(()) && exchange == None
      ensures old(exchange) != None && closed.Err? ==> r == Err(OtherError(closed.error)) && exchange == old(exchange)
    {
      if exchange != None {
        if closed.Err? {
          return Err(OtherError(closed.error));
        }
        exchange := None;
      }
      r := Ok(());
    }
  }

  /** The list comprehension over `_map_order`: the first payload that does
      not map stops it. */
  function MapOrders(ps: seq<OrderPayload>): (r: Result<seq<Order>, Error>)
    ensures r.Ok? <==> forall i :: 0 <= i < |ps| ==> MapOrder(ps[i]).Ok?
    ensures r.Ok? ==> |r.value| == |ps| && forall i :: 0 <= i < |ps| ==> r.value[i] == MapOrder(ps[i]).value
  {
    if ps == [] then Ok([])
    else match MapOrder(ps[0])
      case Err(e) => Err(e)
      case Ok(o) =>
        match MapOrders(ps[1..])
        case Err(e) => Err(e)
        case Ok(os) =>
          assert forall i :: 1 <= i < |ps| ==> ps[i] == ps[1..][i - 1];
          Ok([o] + os)
  }

  /** No price check: a limit order without a price goes to the venue as it
      is, and the venue's reply decides the outcome. */
  lemma LimitWithoutPriceReachesVenue(c: Connector, symbol: string, side: OrderSide, q: Decimal,
                                      create: CreateRequest -> Result<OrderPayload, string>)
    requires c.exchange != None
    ensures var sent := CreateRequest(symbol, "limit", SideValue(side), q, None);
      && (create(sent).Ok? ==> c.PlaceOrder(symbol, side, LimitOrder, q, None, create) == MapOrder(create(sent).value))
      && (create(sent).Err? ==> c.PlaceOrder(symbol, side, LimitOrder, q, None, create).error.OrderError?)
  {
  }
}
