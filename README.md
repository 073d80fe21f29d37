# Trading bot normalisation layer, in Dafny

This project models the core of a multi-venue trading bot. That core is the layer that turns three unrelated venues into one vocabulary:
- a crypto exchange reached through an exchange library ("ccxt");
- a stock brokerage ("alpaca");
- a prediction market's order book ("polymarket").

It proves properties of that layer. The model covers:

- **Error taxonomy** (`Exceptions`): connector, order, config and validation errors. It covers their fields and the `"[venue] detail"` message format, which can be parsed back.
- **Domain records** (`Models`):
  - the side, type and status enumerations with their string values;
  - balances, positions, orders, markets, tickers and order books, with the source's default values;
  - signals, with their confidence bound.
- **Configuration**:
  - `Settings`: the default value of every settings record, and the validator that turns `"ccxt, alpaca"` into a list of names.
  - `Loader`: the recursive merge of configuration tables (`DeepMerge`, proved against `Merged`), and the left fold of that merge over configuration files (`LoadConfig`, proved against `Loaded`).
- **Connectors** (`CcxtConnector`, `AlpacaConnector`, `PolymarketConnector`): each venue is a class whose only mutable field is its session. The model covers:
  - how each venue's payloads are mapped to the shared records, including each venue's status table;
  - the request each `place_order` builds;
  - every error message and where it is raised;
  - the session lifecycle: use before `initialize()`, partial initialization, and `close()`.

  Loops in the source (`get_balance`, `get_positions`, `get_markets`) are methods with loop invariants, proved against specification functions.
- **Engine** (`Engine.TradingEngine`), a class with the following parts:
  - its connector map, which is keyed by connector name;
  - `initialize`, which tolerates connector errors only;
  - `register_strategy` and `start`;
  - one evaluation round of a strategy loop, which covers routing, dry run and abort-on-failure;
  - `stop`, which never fails;
  - the fan-out reads `get_all_balances` and `get_all_positions`.

Amounts are exact rationals (`real`). Every call into a venue library, a strategy or the file system is a parameter of the operation that makes it. The parameter holds the value the call returned or the text of the error it raised; where the arguments matter, it is a function of the request sent. The modules are:
- `Wrappers` (`Option`, `Result`);
- `Text` (Python's `str.strip`, `str.split` and ASCII case mapping);
- `Exceptions`, `Models`, `Settings`, `Loader`;
- `CcxtConnector`, `AlpacaConnector`, `PolymarketConnector`;
- `Engine`.

Two behaviours of the code that a reader might not expect. The model keeps both as written:
- Unlike the alpaca and polymarket connectors, the ccxt connector sends a LIMIT order without a price to the venue (`CcxtConnector.LimitWithoutPriceReachesVenue`).
- Signals are routed by looking up the signal's `strategy_name` as a connector name (`Engine.Dispatch`).

## Model

| member | source | states |
|---|---|---|
| Text.Strip | src/tradingbot/config/settings.py:42 | `str.strip()`: the result is an infix of the input whose cut-off ends are all whitespace and which has no whitespace at either end; it is empty iff the input is all whitespace; an already-stripped string is unchanged |
| Text.StripPadded | src/tradingbot/config/settings.py:42 | stripping undoes any whitespace padding around a stripped string |
| Text.TrimStartPadded | src/tradingbot/config/settings.py:42 | leading whitespace before a non-whitespace start is exactly what is removed at the front |
| Text.TrimEndPadded | src/tradingbot/config/settings.py:42 | trailing whitespace after a non-whitespace end is exactly what is removed at the back |
| Text.TrimStart | src/tradingbot/config/settings.py:42 | removes exactly a leading run of whitespace and leaves a string that does not start with whitespace |
| Text.TrimStartStep | src/tradingbot/config/settings.py:42 | a leading whitespace character joins the blank prefix of the rest |
| Text.TrimEnd | src/tradingbot/config/settings.py:42 | removes exactly a trailing run of whitespace and leaves a string that does not end with whitespace |
| Text.TrimEndStep | src/tradingbot/config/settings.py:42 | a trailing whitespace character joins the blank suffix of the rest |
| Text.Split | src/tradingbot/config/settings.py:42 | `str.split(",")`: at least one piece, and no piece contains the separator |
| Text.IndexOf | src/tradingbot/config/settings.py:42 | the first occurrence of a character, or none iff it does not occur |
| Text.IndexOfFirst | src/tradingbot/config/settings.py:42 | any occurrence with no earlier occurrence is the one found |
| Text.JoinSplit | src/tradingbot/config/settings.py:42 | joining the split pieces with the separator gives back the string |
| Text.SplitCons | src/tradingbot/config/settings.py:42 | a separator-free piece followed by the separator is split off as the first piece |
| Text.SplitJoin | src/tradingbot/config/settings.py:42 | splitting a join of separator-free pieces gives back the pieces |
| Text.Lower | src/tradingbot/connectors/alpaca_connector.py:183 | ASCII lower-casing maps every character and keeps the length |
| Text.Upper | src/tradingbot/connectors/polymarket_connector.py:186 | ASCII upper-casing maps every character and keeps the length |
| Text.LowerOfLowercase | src/tradingbot/connectors/alpaca_connector.py:183 | lower-casing a string without capitals changes nothing |
| Exceptions.ParseConnectorMessage | src/tradingbot/core/exceptions.py:11-13 | any venue and detail it recovers re-form the message exactly |
| Exceptions.ConnectorMessageRoundTrip | src/tradingbot/core/exceptions.py:11-13 | a connector error's `"[venue] detail"` message gives back its venue and detail when the venue name has no `]` |
| Exceptions.OrderErrorFields | src/tradingbot/core/exceptions.py:16-21 | an order error's message is its text, its order id defaults to none, and it is a trading-bot error |
| Exceptions.TradingBotErrorKinds | src/tradingbot/core/exceptions.py:4-25 | connector, order and config errors are trading-bot errors; validation and foreign errors are not |
| Models.ParseSide | src/tradingbot/core/models.py:10-12 | `OrderSide(value)` succeeds iff the value is "buy" or "sell", and gives the member with that value |
| Models.ParseType | src/tradingbot/core/models.py:15-17 | `OrderType(value)` succeeds iff the value is "market" or "limit", and gives the member with that value |
| Models.ParseStatus | src/tradingbot/core/models.py:20-27 | `OrderStatus(value)` succeeds iff the value is one of the seven status strings, and gives the member with that value |
| Models.EnumRoundTrip | src/tradingbot/core/models.py:10-27 | every member is recovered from its string value |
| Models.SevenStatuses | src/tradingbot/core/models.py:20-27 | there are exactly seven statuses with seven distinct string values |
| Models.NonZero | src/tradingbot/connectors/ccxt_connector.py:147-150 | Python's `x if x else None` on an optional amount: present iff present and non-zero, and then unchanged |
| Models.NewSignal | src/tradingbot/core/models.py:89-97 | a signal is built iff its confidence lies in [0, 1], carrying every given field, otherwise a validation error on `confidence` |
| Models.ConfidenceBounds | src/tradingbot/core/models.py:97 | the bounds 0 and 1 are accepted, 1.5 and -0.1 rejected |
| Models.RecordDefaults | src/tradingbot/core/models.py:30-97 | default field values: zero amounts, PENDING orders, precision 8, active markets, empty tickers and books, MARKET signals with a valid confidence |
| Settings.Kept | src/tradingbot/config/settings.py:42 | every position it lists is that of a non-blank piece (the `if s.strip()` filter) |
| Settings.KeptIncreasing | src/tradingbot/config/settings.py:42 | the kept positions are in increasing order, so the comprehension's order is kept |
| Settings.KeptAll | src/tradingbot/config/settings.py:42 | no non-blank piece is missed by `Kept` |
| Settings.KeptEvery | src/tradingbot/config/settings.py:42 | when no piece is blank, every piece is kept, in place |
| Settings.KeptSnoc | src/tradingbot/config/settings.py:42 | one more piece adds its position exactly when it is not blank |
| Settings.StripNonBlank | src/tradingbot/config/settings.py:42 | one name per non-blank piece, each non-empty and with no whitespace at either end |
| Settings.StripNonBlankComplete | src/tradingbot/config/settings.py:42 | the stripped form of every non-blank piece is among the names |
| Settings.StripNonBlankSnoc | src/tradingbot/config/settings.py:42 | one more piece adds its stripped form exactly when it is not blank, after the earlier names |
| Settings.ParseConnectors | src/tradingbot/config/settings.py:38-43 | a list passes through unchanged; a string becomes the stripped non-blank pieces of its `split(",")`, in order, all of them clean names |
| Settings.ParsePieces | src/tradingbot/config/settings.py:38-43 | a string joined from comma-free pieces parses to those pieces stripped, blanks dropped |
| Settings.StripPaddedNames | src/tradingbot/config/settings.py:42 | clean names padded with whitespace are stripped back to the names, none dropped |
| Settings.ParsePaddedNames | src/tradingbot/config/settings.py:38-43 | clean names written with whitespace around them and joined by commas parse back to the names |
| Settings.ParseBlankPieceIgnored | src/tradingbot/config/settings.py:38-43 | two clean names padded with whitespace, with a blank piece between them, parse to the two names: the shape of `" ccxt , , alpaca "` |
| Settings.PaddedPiecesStripped | src/tradingbot/config/settings.py:42 | two padded names around a blank piece strip to the two names |
| Settings.StripNonBlankOuter | src/tradingbot/config/settings.py:42 | of three pieces with a blank middle one, the outer two stripped are the names |
| Settings.KeptBlankBetween | src/tradingbot/config/settings.py:42 | of three pieces with a blank middle one, positions 0 and 2 are kept |
| Settings.PaddedNameStripped | src/tradingbot/config/settings.py:42 | a padded clean name is not blank and strips back to the name |
| Settings.StripNonBlankNoComma | src/tradingbot/config/settings.py:42 | stripping comma-free pieces leaves comma-free names |
| Settings.StripKeepsOut | src/tradingbot/config/settings.py:42 | stripping introduces no character |
| Settings.ParseJoinedNames | src/tradingbot/config/settings.py:38-43 | a comma-joined list of clean names parses back to that list |
| Settings.StripNonBlankClean | src/tradingbot/config/settings.py:42 | clean names pass the strip-and-drop step unchanged |
| Settings.Defaults | src/tradingbot/config/settings.py:7-51 | every settings default: INFO, dry run on, all three venues enabled, binance on testnet, paper trading, chain 137 and the public order-book host |
| Settings.DefaultConnectorsFromText | src/tradingbot/config/settings.py:36-43 | the string `"ccxt,alpaca,polymarket"` parses to the default list |
| Settings.DefaultNamesJoined | src/tradingbot/config/settings.py:36 | the default list joins to `"ccxt,alpaca,polymarket"` |
| Settings.DefaultNamesClean | src/tradingbot/config/settings.py:36 | the default names are clean |
| Loader.DeepMerge | src/tradingbot/config/loader.py:13-21 | the copy-then-overwrite loop, with its recursion on nested tables, computes `Merged` |
| Loader.MergedKeys | src/tradingbot/config/loader.py:13-21 | the merge holds exactly the keys of both tables |
| Loader.MergedValues | src/tradingbot/config/loader.py:16-20 | an override value wins unless both sides are tables, where the merge recurses; keys only in the base keep their value |
| Loader.MergedEmpty | src/tradingbot/config/loader.py:13-21 | the empty table is a left and right identity |
| Loader.MergedSelf | src/tradingbot/config/loader.py:13-21 | merging a table into itself changes nothing |
| Loader.MergedTwice | src/tradingbot/config/loader.py:13-21 | applying the same override twice is the same as once |
| Loader.NestedMergeExample | tests/unit/test_config.py:16-20 | the nested example: inner tables merge key by key |
| Loader.LoadConfig | src/tradingbot/config/loader.py:30-36 | the loop over the files computes `Loaded`, the left fold of the merge over existing files |
| Loader.LoadedNothing | src/tradingbot/config/loader.py:30-36 | with no existing file the configuration is empty |
| Loader.LoadedSingle | src/tradingbot/config/loader.py:30-36 | a single file gives its own table |
| Loader.LastFileWins | src/tradingbot/config/loader.py:31 | a non-table value in the last file is the final value |
| Loader.MissingFileSkipped | src/tradingbot/config/loader.py:34 | a missing file changes nothing |
| CcxtConnector.TableStatus | src/tradingbot/connectors/ccxt_connector.py:24-31 | the table's status for known strings and OPEN otherwise, never PENDING or PARTIALLY_FILLED |
| CcxtConnector.StatusOf | src/tradingbot/connectors/ccxt_connector.py:214-221 | PARTIALLY_FILLED iff the status reads "open" and `0 < filled < amount`, otherwise the table's status |
| CcxtConnector.MapOrder | src/tradingbot/connectors/ccxt_connector.py:213-234 | succeeds iff the side is "buy" or "sell"; carries id, symbol, side, amount and filled; LIMIT iff the type is "limit"; price only when non-zero; the status of `StatusOf` |
| CcxtConnector.MapOrderStatusDeterministic | src/tradingbot/connectors/ccxt_connector.py:213-221 | the mapped status depends only on status, filled and amount |
| CcxtConnector.PartialFill | src/tradingbot/connectors/ccxt_connector.py:214-219 | an open or status-less order with `0 < filled < amount` is PARTIALLY_FILLED with that filled amount |
| CcxtConnector.TableStatuses | src/tradingbot/connectors/ccxt_connector.py:24-31 | closed→FILLED, canceled/cancelled→CANCELLED, expired, rejected; null or unknown→OPEN; open without partial fill→OPEN |
| CcxtConnector.StatusRange | src/tradingbot/connectors/ccxt_connector.py:24-31 | the venue never yields PENDING; the table's image is exactly OPEN, FILLED, CANCELLED, EXPIRED, REJECTED |
| CcxtConnector.PartialFillExample | tests/unit/test_connectors.py:92-105 | the test's order (5 of 10 filled, open) maps to PARTIALLY_FILLED with filled 5 |
| CcxtConnector.MarketOf | src/tradingbot/connectors/ccxt_connector.py:127-135 | symbol, base and quote kept (missing → ""); min size is the payload's, 0 when missing; precision is the payload's when non-zero, and 8 when it is missing or 0 (`... or 8`); active unless the payload says false |
| CcxtConnector.Markets | src/tradingbot/connectors/ccxt_connector.py:124-137 | one market per loaded symbol, in order |
| CcxtConnector.Balances | src/tradingbot/connectors/ccxt_connector.py:85-98 | each balance comes from a `total` entry with a positive amount, with free and used looked up (0 when missing) |
| CcxtConnector.BalanceCurrencies | src/tradingbot/connectors/ccxt_connector.py:85-98 | the reported currencies are exactly those with a positive total |
| CcxtConnector.BalanceExample | tests/unit/test_connectors.py:37-50 | the test's two-currency balance gives both currencies with their free, used and total amounts |
| CcxtConnector.PositionOf | src/tradingbot/connectors/ccxt_connector.py:108-121 | the quantity is the absolute number of contracts (positive when there are any); symbol, entry price, mark price and unrealized pnl carried (0 when missing); the venue name; the side is BUY iff the venue says "long" |
| CcxtConnector.Positions | src/tradingbot/connectors/ccxt_connector.py:106-122 | exactly the mapped positions with non-zero contracts, each with a positive quantity |
| CcxtConnector.Entries | src/tradingbot/connectors/ccxt_connector.py:161-162 | one book entry per level, in order, with its price and amount |
| CcxtConnector.Connector.constructor | src/tradingbot/connectors/ccxt_connector.py:39-50 | keeps the arguments (defaults binance, no key, testnet) and starts without a session |
| CcxtConnector.Connector.Session | src/tradingbot/connectors/ccxt_connector.py:52-56 | the session, or the "not initialized" connector error iff there is none |
| CcxtConnector.Connector.Initialize | src/tradingbot/connectors/ccxt_connector.py:58-77 | unknown exchange → "Unknown exchange" with the session untouched; a failure building the exchange object propagates unwrapped with the session untouched; otherwise a session with credentials iff a key is set; a failed sandbox switch propagates unwrapped with the session kept; else sandbox iff testnet, and the session is kept even when loading the markets fails ("Failed to load markets") |
| CcxtConnector.Connector.GetBalance | src/tradingbot/connectors/ccxt_connector.py:79-98 | "not initialized" propagates unwrapped; a fetch error becomes "Failed to fetch balance"; otherwise the loop computes `Balances` |
| CcxtConnector.Connector.GetPositions | src/tradingbot/connectors/ccxt_connector.py:100-122 | "not initialized" propagates; a fetch failure gives no positions; otherwise the loop computes `Positions` |
| CcxtConnector.Connector.GetMarkets | src/tradingbot/connectors/ccxt_connector.py:124-137 | "not initialized" propagates; unloaded markets are an error; otherwise the loop computes `Markets` |
| CcxtConnector.Connector.GetTicker | src/tradingbot/connectors/ccxt_connector.py:139-151 | each field is present only when the venue's value is present and non-zero; errors become "Failed to fetch ticker for …" |
| CcxtConnector.Connector.GetOrderbook | src/tradingbot/connectors/ccxt_connector.py:153-163 | bids and asks keep the venue's order and length; errors become "Failed to fetch order book for …" |
| CcxtConnector.Connector.PlaceOrder | src/tradingbot/connectors/ccxt_connector.py:165-184 | the venue receives type and side as their string values and the price as given; a venue error becomes an order error; the reply is mapped |
| CcxtConnector.Connector.CancelOrder | src/tradingbot/connectors/ccxt_connector.py:186-191 | true on confirmation, otherwise an order error carrying the order id |
| CcxtConnector.Connector.GetOrder | src/tradingbot/connectors/ccxt_connector.py:193-198 | the mapped reply, otherwise an order error carrying the order id |
| CcxtConnector.Connector.GetOrderHistory | src/tradingbot/connectors/ccxt_connector.py:200-205 | every order mapped, otherwise "Failed to fetch order history" |
| CcxtConnector.Connector.Close | src/tradingbot/connectors/ccxt_connector.py:207-211 | no-op without a session; otherwise closes and forgets it, keeping it if closing raises |
| CcxtConnector.MapOrders | src/tradingbot/connectors/ccxt_connector.py:205 | succeeds iff every order maps; then one order per payload, in order |
| CcxtConnector.LimitWithoutPriceReachesVenue | src/tradingbot/connectors/ccxt_connector.py:165-184 | a LIMIT order without a price is sent as is; the venue's answer decides the outcome |
| AlpacaConnector.StatusOf | src/tradingbot/connectors/alpaca_connector.py:182-197 | table lookup of the status key (the enum value, else the lower-cased text, else "new"), OPEN when unknown |
| AlpacaConnector.MapOrder | src/tradingbot/connectors/alpaca_connector.py:182-199 | BUY iff the lower-cased side is "buy"; LIMIT iff the type is "limit"; price only when the limit price is non-zero; filled defaults to 0 |
| AlpacaConnector.StatusMapping | src/tradingbot/connectors/alpaca_connector.py:28-39 | the ten table entries, OPEN for unknown strings and for a missing status |
| AlpacaConnector.StatusTableCoversAll | src/tradingbot/connectors/alpaca_connector.py:28-39 | this venue can report all seven statuses |
| AlpacaConnector.StatusIgnoresCase | src/tradingbot/connectors/alpaca_connector.py:183 | a textual status is looked up case-insensitively |
| AlpacaConnector.BuildRequest | src/tradingbot/connectors/alpaca_connector.py:128-147 | fails ("Limit orders require a price") iff LIMIT without a price; LIMIT builds a GTC request with the price, MARKET a DAY request |
| AlpacaConnector.PositionOf | src/tradingbot/connectors/alpaca_connector.py:95-103 | quantity is the absolute quantity; BUY iff the side is "long"; the other fields are carried over |
| AlpacaConnector.Connector.constructor | src/tradingbot/connectors/alpaca_connector.py:47-56 | keeps the arguments (paper by default) and starts without a client |
| AlpacaConnector.Connector.Initialize | src/tradingbot/connectors/alpaca_connector.py:64-71 | a client with the credentials and paper flag, or "Failed to initialize" with the client untouched |
| AlpacaConnector.Connector.FailureText | src/tradingbot/connectors/alpaca_connector.py:58-62 | a call fails iff there is no client or the library raises; without a client the reason is the whole "not initialized" message |
| AlpacaConnector.Connector.GetBalance | src/tradingbot/connectors/alpaca_connector.py:73-86 | exactly one USD balance with free = cash, total = portfolio value, and free + used = total |
| AlpacaConnector.Connector.GetPositions | src/tradingbot/connectors/alpaca_connector.py:88-105 | every venue position mapped, in order; errors become "Failed to fetch positions" |
| AlpacaConnector.Connector.PlaceOrder | src/tradingbot/connectors/alpaca_connector.py:120-155 | the price check comes first and is re-raised as is; otherwise the built request is submitted and the reply mapped, other failures wrapped as order errors |
| AlpacaConnector.Connector.CancelOrder | src/tradingbot/connectors/alpaca_connector.py:157-162 | true iff initialized and confirmed; otherwise an order error carrying the order id |
| AlpacaConnector.Connector.GetOrder | src/tradingbot/connectors/alpaca_connector.py:164-169 | the mapped order iff initialized and fetched; otherwise an order error carrying the order id |
| AlpacaConnector.Connector.GetOrderHistory | src/tradingbot/connectors/alpaca_connector.py:171-176 | every order mapped in order, otherwise "Failed to fetch order history" |
| AlpacaConnector.Connector.Close | src/tradingbot/connectors/alpaca_connector.py:178-180 | the client is gone, whatever the state |
| AlpacaConnector.StubReads | src/tradingbot/connectors/alpaca_connector.py:107-118 | no markets, a ticker with the symbol only, and an empty book, with or without a client |
| AlpacaConnector.LimitNeedsPrice | src/tradingbot/connectors/alpaca_connector.py:130-153 | a LIMIT order without a price fails with that message whatever the venue would do |
| AlpacaConnector.NotInitializedIsWrapped | src/tradingbot/connectors/alpaca_connector.py:58-77 | before `initialize()` the balance error's detail holds the full "not initialized" message |
| PolymarketConnector.MarketOf | src/tradingbot/connectors/polymarket_connector.py:89-101 | symbol is the condition id; base is the question, else the condition id; USDC, min size 1, precision 2; active defaults to true |
| PolymarketConnector.Markets | src/tradingbot/connectors/polymarket_connector.py:88-102 | one market per listed entry, in order |
| PolymarketConnector.BestPrice | src/tradingbot/connectors/polymarket_connector.py:107-108 | the head level's price, absent iff that side is empty |
| PolymarketConnector.Entries | src/tradingbot/connectors/polymarket_connector.py:126-127 | one entry per level, in order, with price and size |
| PolymarketConnector.Request | src/tradingbot/connectors/polymarket_connector.py:138-149 | nothing without a price; otherwise the order arguments (side "BUY"/"SELL", symbol as token) and GTC iff LIMIT |
| PolymarketConnector.PlacedId | src/tradingbot/connectors/polymarket_connector.py:157 | "orderID", else "id", else "unknown" |
| PolymarketConnector.RecordOrder | src/tradingbot/connectors/polymarket_connector.py:183-194 | a LIMIT order, OPEN iff the status is "live", else FILLED; BUY iff the upper-cased side is "BUY"; id and symbol fall back to the given defaults; missing amounts read as 0 |
| PolymarketConnector.SideIgnoresCase | src/tradingbot/connectors/polymarket_connector.py:186 | "buy" and "Buy" are BUY |
| PolymarketConnector.Connector.constructor | src/tradingbot/connectors/polymarket_connector.py:32-41 | keeps the arguments (chain 137, public host) and starts without a client |
| PolymarketConnector.Connector.Initialize | src/tradingbot/connectors/polymarket_connector.py:49-60 | a failed construction leaves the client untouched; once constructed, the client stays set even when credential derivation fails |
| PolymarketConnector.Connector.FailureText | src/tradingbot/connectors/polymarket_connector.py:43-47 | a call fails iff there is no client or the library raises; without a client the reason is the whole "not initialized" message |
| PolymarketConnector.Connector.GetBalance | src/tradingbot/connectors/polymarket_connector.py:62-76 | one USDC balance with free = total = the balance (0 if missing) and used = 0 |
| PolymarketConnector.Connector.GetMarkets | src/tradingbot/connectors/polymarket_connector.py:82-102 | the loop computes `Markets`; errors become "Failed to fetch markets" |
| PolymarketConnector.Connector.GetTicker | src/tradingbot/connectors/polymarket_connector.py:104-116 | bid and ask from the head of the book; last equals bid; no volume |
| PolymarketConnector.Connector.GetOrderbook | src/tradingbot/connectors/polymarket_connector.py:118-128 | both sides keep the venue's order and length |
| PolymarketConnector.Connector.PlaceOrder | src/tradingbot/connectors/polymarket_connector.py:130-168 | no price → order error before anything else; otherwise the request is posted and the placed order echoes symbol, side, type, quantity and price, OPEN, under the venue's id |
| PolymarketConnector.Connector.CancelOrder | src/tradingbot/connectors/polymarket_connector.py:170-175 | true iff initialized and confirmed; otherwise an order error carrying the order id |
| PolymarketConnector.Connector.GetOrder | src/tradingbot/connectors/polymarket_connector.py:177-194 | the record mapped with the asked id and symbol as fallbacks |
| PolymarketConnector.Connector.GetOrderHistory | src/tradingbot/connectors/polymarket_connector.py:196-215 | every record mapped in order with empty fallbacks |
| PolymarketConnector.Connector.Close | src/tradingbot/connectors/polymarket_connector.py:217-219 | the client is gone, whatever the state |
| PolymarketConnector.PriceAlwaysRequired | src/tradingbot/connectors/polymarket_connector.py:138-139 | without a price the outcome is an order error, the same whatever the type, the venue or the state |
| PolymarketConnector.PositionsNeverReported | src/tradingbot/connectors/polymarket_connector.py:78-80 | no positions, with or without a client |
| PolymarketConnector.TimeInForceChoice | src/tradingbot/connectors/polymarket_connector.py:149 | MARKET becomes fill-or-kill and LIMIT good-till-cancelled |
| PolymarketConnector.BinaryStatus | src/tradingbot/connectors/polymarket_connector.py:210 | queried orders are only ever OPEN or FILLED |
| Engine.Planned | src/tradingbot/core/engine.py:31-54 | a venue is built iff it is enabled and its credential is set, from that venue's settings, in the order ccxt, alpaca, polymarket, with distinct names |
| Engine.DefaultsPlanNothing | src/tradingbot/core/engine.py:31-54 | with default settings no connector is built |
| Engine.InitStep | src/tradingbot/core/engine.py:58-63 | a connector that comes up is stored under its name; a connector error drops it; other errors propagate; keys stay their connectors' names |
| Engine.InitAll | src/tradingbot/core/engine.py:27-63 | initialization never removes a connector and keeps keys equal to names |
| Engine.InitAllSnoc | src/tradingbot/core/engine.py:27-63 | initializing one more venue is one more step, or nothing after an error |
| Engine.InitAllOutcome | src/tradingbot/core/engine.py:58-63 | initialization succeeds iff every venue comes up or fails with a connector error |
| Engine.InitAllKeys | src/tradingbot/core/engine.py:58-63 | the map gains exactly the names of the venues that came up |
| Engine.InitAllKeysBound | src/tradingbot/core/engine.py:58-63 | whatever the outcome, the map gains only names of venues that came up |
| Engine.UpSnoc | src/tradingbot/core/engine.py:58-63 | one venue later, the names of the venues that came up gain that venue's name exactly when it came up |
| Engine.FailedConnectorAbsent | src/tradingbot/core/engine.py:58-63 | a venue that fails to come up is not in the map unless it was already, even when a later venue aborts initialization |
| Engine.Names | src/tradingbot/core/engine.py:72-75 | one task name per strategy, in order |
| Engine.RequestOf | src/tradingbot/core/engine.py:87-93 | the signal's symbol, side, type and quantity, and its price only when non-zero |
| Engine.Dispatch | src/tradingbot/core/engine.py:83-97 | the signals handled in order: in dry run every event is a log line, otherwise none is; a failed order is the last event of the round |
| Engine.Round | src/tradingbot/core/engine.py:81-98 | a failed strategy evaluation is the round's only event; otherwise the signals are dispatched, and a failure is always the last event |
| Engine.Submissions | src/tradingbot/core/engine.py:87-93 | lists exactly the venue and request of the `Submitted` events |
| Engine.Routable | src/tradingbot/core/engine.py:85 | every routable signal names a connected venue |
| Engine.SubmissionsAppend | src/tradingbot/core/engine.py:84-96 | the orders of two event runs are the orders of each, in sequence |
| Engine.DryRunPlacesNothing | src/tradingbot/core/engine.py:84-96 | in dry-run mode nothing is sent and every signal is logged, in order |
| Engine.SubmissionsFollowSignals | src/tradingbot/core/engine.py:84-96 | outside dry run the orders sent are a prefix of the routable signals, and all of them when no order fails |
| Engine.SubmittedToConnected | src/tradingbot/core/engine.py:85-87 | an order is only sent to a venue in the connector map |
| Engine.UnroutedSignalsIgnored | src/tradingbot/core/engine.py:85-86 | signals naming no connected venue produce nothing outside dry run |
| Engine.FailedStops | src/tradingbot/core/engine.py:108-112 | exactly the strategies whose stop failed are reported |
| Engine.TradingEngine.constructor | src/tradingbot/core/engine.py:20-25 | default settings when none are given; empty maps and lists; not running |
| Engine.TradingEngine.InitConnector | src/tradingbot/core/engine.py:58-63 | one `InitStep` on the connector map; nothing else changes |
| Engine.TradingEngine.Initialize | src/tradingbot/core/engine.py:27-56 | the three guarded initializations compute `InitAll` over `Planned` |
| Engine.TradingEngine.RegisterStrategy | src/tradingbot/core/engine.py:65-66 | appends the strategy |
| Engine.TradingEngine.Start | src/tradingbot/core/engine.py:68-77 | running; one task per strategy iff all initialize; on failure the error of the first strategy that fails, with the tasks of the strategies before it launched |
| Engine.TradingEngine.RunRound | src/tradingbot/core/engine.py:81-98 | the loop over the signals computes `Round` (a failed evaluation is reported; the first failed order ends the round); every order goes to the connector whose name the signal gives |
| Engine.TradingEngine.Stop | src/tradingbot/core/engine.py:101-121 | not running, no tasks, the connector map kept; every strategy stopped and every connector closed whatever fails |
| Engine.TradingEngine.Gather | src/tradingbot/core/engine.py:123-143 | the key set equals the connector map's; connector errors give `[]`; other errors propagate |
| Engine.TradingEngine.GetAllBalances | src/tradingbot/core/engine.py:123-132 | the fan-out of `get_balance` |
| Engine.TradingEngine.GetAllPositions | src/tradingbot/core/engine.py:134-143 | the fan-out of `get_positions` |
| Engine.FailureIsolated | src/tradingbot/core/engine.py:126-131 | one venue's failure leaves the other venues' entries unchanged |

## Left out

- Floating-point conversions (`float(...)`, `Decimal(str(...))`) are not modelled: amounts are exact rationals, and a venue amount given as text is taken as already parsed.
- Timestamps (`created_at`) and the opaque `raw_data` payload of orders are not modelled.
- The venue libraries (exchange library, brokerage client, order-book client), the thread-pool helper, `asyncio` scheduling, task cancellation, the one-second sleep between rounds, and logging are not modelled. Each library call is a parameter holding its outcome.
- Reading TOML files and the environment (`load_toml`, pydantic's environment parsing) are not modelled: a file is its parsed table, or `None` when missing.
- Text.Lower and Text.Upper map ASCII letters only, where Python maps all of Unicode. They agree with Python on every comparison the model makes: a string upper-cases to "BUY", or lower-cases to "buy", "limit" or a status key, only if the ASCII mapping gives the same.
- CcxtConnector.Connector.Initialize: the `hasattr(..., "set_sandbox_mode")` test is taken to hold, as it does for every exchange class of the library.
- CcxtConnector.Connector: every failure of the exchange library inside the connector's handlers is taken to be a `ccxt.BaseError`, so it is always wrapped. A library failure of another class would propagate unwrapped in the source. Only the two unguarded calls of `initialize` model that path.
- CcxtConnector.MarketOf: the ccxt precision is taken as an integer; a present but null `active` key is read as absent.
- The `symbol` argument that `cancel_order`, `get_order` and `get_order_history` pass to the venue libraries is not modelled. It affects only what the venue returns, which is a parameter here. The polymarket `get_order` fallback that uses it is modelled.
- `is_running` and `connected_exchanges` are not modelled: they are plain reads of `running` and of the connector map's keys.
- Engine.TradingEngine.RunRound models one pass of `_strategy_loop`. The repetition while the engine runs is not modelled.
- Engine.TradingEngine.Start does not model the strategies receiving the connector map: each strategy's initialization is given only as its outcome.
- Engine.TradingEngine.Gather: when several venues raise errors other than connector errors, the source propagates the first in the map's iteration order. The model only states that one of them propagates.
- Engine.TradingEngine.Stop: errors that are not `Exception` subclasses (task cancellation) are not modelled.
- Engine.Dispatch: routing by `signal.strategy_name` is modelled as written, even though it is likely unintended.
- AlpacaConnector.MapOrder: the side and type are taken as the string forms the library gives. Whether `str()` of the library's enumerations gives the bare value is outside this model.
- The bodies of `BaseConnector` and `BaseStrategy` (src/tradingbot/core/base.py) are protocols; they are not part of this model.
