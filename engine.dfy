/** The trading engine: builds and initializes the enabled connectors, runs
    one evaluation round of a strategy, stops everything, and fans reads out
    to every connected venue. Connectors and strategies are seen only
    through their interface: what each of their calls returns, or the error
    it raises, is a parameter. */
module Engine {
  import opened Wrappers
  import opened Models
  import opened Exceptions
  import opened Settings
  import CcxtConnector
  import AlpacaConnector
  import PolymarketConnector

  /** A connector as the engine builds it, with the arguments it was
      constructed from. */
  datatype Venue =
    | CcxtVenue(exchangeId: string, apiKey: string, apiSecret: string, testnet: bool)
    | AlpacaVenue(apiKey: string, apiSecret: string, paper: bool)
    | PolymarketVenue(privateKey: string, chainId: int, host: string)
  {
    /** The connector's `name` attribute. */
    function Name(): string {
      match this
      case CcxtVenue(_, _, _, _) => CcxtConnector.Name
      case AlpacaVenue(_, _, _) => AlpacaConnector.Name
      case PolymarketVenue(_, _, _) => PolymarketConnector.Name
    }
  }

  function CcxtVenueOf(s: AppSettings): Venue {
    CcxtVenue(s.ccxt.exchange, s.ccxt.apiKey, s.ccxt.apiSecret, s.ccxt.testnet)
  }

  function AlpacaVenueOf(s: AppSettings): Venue {
    AlpacaVenue(s.alpaca.apiKey, s.alpaca.apiSecret, s.alpaca.paper)
  }

  function PolymarketVenueOf(s: AppSettings): Venue {
    PolymarketVenue(s.polymarket.privateKey, s.polymarket.chainId, s.polymarket.host)
  }

  predicate CcxtWanted(s: AppSettings) { "ccxt" in s.enabledConnectors && s.ccxt.apiKey != "" }
  predicate AlpacaWanted(s: AppSettings) { "alpaca" in s.enabledConnectors && s.alpaca.apiKey != "" }
  predicate PolymarketWanted(s: AppSettings) { "polymarket" in s.enabledConnectors && s.polymarket.privateKey != "" }

  /** The connectors `initialize()` builds, in the order it builds them: a
      venue is built exactly when it is enabled and its credential is set. */
  function Planned(s: AppSettings): (plan: seq<Venue>)
    ensures CcxtVenueOf(s) in plan <==> CcxtWanted(s)
    ensures AlpacaVenueOf(s) in plan <==> AlpacaWanted(s)
    ensures PolymarketVenueOf(s) in plan <==> PolymarketWanted(s)
    ensures forall v :: v in plan ==> v in {CcxtVenueOf(s), AlpacaVenueOf(s), PolymarketVenueOf(s)}
    ensures forall i, j :: 0 <= i < j < |plan| ==> plan[i].Name() != plan[j].Name()
    ensures CcxtWanted(s) ==> plan[0] == CcxtVenueOf(s)
    ensures PolymarketWanted(s) ==> plan[|plan| - 1] == PolymarketVenueOf(s)
  {
    (if CcxtWanted(s) then [CcxtVenueOf(s)] else [])
    + (if AlpacaWanted(s) then [AlpacaVenueOf(s)] else [])
    + (if PolymarketWanted(s) then [PolymarketVenueOf(s)] else [])
  }

  /** Out of the box no credential is set, so nothing is built. */
  lemma DefaultsPlanNothing()
    ensures Planned(AppSettings()) == []
  {
  }

  /** Every key of the connector map is the name of the connector under it. */
  predicate NamedBy(m: map<string, Venue>) {
    forall k :: k in m ==> m[k].Name() == k
  }

  /** The errors the engine absorbs: only connector errors. */
  predicate Tolerated<T>(o: Result<T, Error>) {
    o.Ok? || o.error.ConnectorError?
  }

  /** `_init_connector`: a connector that initializes is stored under its
      name; one that raises a connector error is dropped; any other error
      propagates. */
  function InitStep(m: map<string, Venue>, v: Venue, init: Venue -> Result<(), Error>)
    : (r: (Result<(), Error>, map<string, Venue>))
    ensures r.0.Ok? <==> Tolerated(init(v))
    ensures r.0.Err? ==> r.0.error == init(v).error
    ensures init(v).Ok? ==> r.1 == m[v.Name() := v]
    ensures init(v).Err? ==> r.1 == m
    ensures NamedBy(m) ==> NamedBy(r.1)
  {
    match init(v)
    case Ok(_) => (Ok(()), m[v.Name() := v])
    case Err(e) => (if e.ConnectorError? then Ok(()) else Err(e), m)
  }

  /** Initializing `plan` in order from map `m`: the first error that is not
      a connector error ends it. */
  function InitAll(m: map<string, Venue>, plan: seq<Venue>, init: Venue -> Result<(), Error>)
    : (r: (Result<(), Error>, map<string, Venue>))
    ensures m.Keys <= r.1.Keys
    ensures NamedBy(m) ==> NamedBy(r.1)
  {
    if plan == [] then (Ok(()), m)
    else
      var before := InitAll(m, plan[..|plan| - 1], init);
      if before.0.Err? then before else InitStep(before.1, plan[|plan| - 1], init)
  }

  /** Initializing one more connector after `plan`. */
  lemma InitAllSnoc(m: map<string, Venue>, plan: seq<Venue>, v: Venue, init: Venue -> Result<(), Error>)
    ensures var before := InitAll(m, plan, init);
      InitAll(m, plan + [v], init) == if before.0.Err? then before else InitStep(before.1, v, init)
  {
    assert (plan + [v])[..|plan|] == plan;
  }

  /** Initialization succeeds exactly when every connector either comes up
      or fails with a connector error. */
  lemma {:induction false} InitAllOutcome(m: map<string, Venue>, plan: seq<Venue>, init: Venue -> Result<(), Error>)
    ensures InitAll(m, plan, init).0.Ok? <==> forall v :: v in plan ==> Tolerated(init(v))
  {
    if plan != [] {
      var init' := plan[..|plan| - 1];
      InitAllOutcome(m, init', init);
      assert plan == init' + [plan[|plan| - 1]];
    }
  }

  /** When initialization succeeds, the map gains exactly the names of the
      connectors that came up. */
  lemma {:induction false} InitAllKeys(m: map<string, Venue>, plan: seq<Venue>, init: Venue -> Result<(), Error>)
    requires InitAll(m, plan, init).0.Ok?
    ensures InitAll(m, plan, init).1.Keys == m.Keys + (set v | v in plan && init(v).Ok? :: v.Name())
  {
    if plan != [] {
      var front := plan[..|plan| - 1];
      var last := plan[|plan| - 1];
      assert plan == front + [last];
      var before := InitAll(m, front, init);
      assert before.0.Ok? && InitAll(m, plan, init) == InitStep(before.1, last, init);
      InitAllKeys(m, front, init);
      UpSnoc(front, last, init);
    }
  }

  /** The names of the connectors that came up, one connector later. */
  lemma UpSnoc(front: seq<Venue>, last: Venue, init: Venue -> Result<(), Error>)
    ensures (set v | v in front + [last] && init(v).Ok? :: v.Name())
      == (set v | v in front && init(v).Ok? :: v.Name()) + (if init(last).Ok? then {last.Name()} else {})
  {
    var up := set v | v in front + [last] && init(v).Ok? :: v.Name();
    forall x | x in up
      ensures x in (set v | v in front && init(v).Ok? :: v.Name()) + (if init(last).Ok? then {last.Name()} else {})
    {
      var v :| v in front + [last] && init(v).Ok? && v.Name() == x;
      if v != last { assert v in front; }
    }
  }

  /** Whatever the outcome, the map gains only names of connectors that
      came up. */
  lemma {:induction false} InitAllKeysBound(m: map<string, Venue>, plan: seq<Venue>, init: Venue -> Result<(), Error>)
    ensures InitAll(m, plan, init).1.Keys <= m.Keys + (set v | v in plan && init(v).Ok? :: v.Name())
  {
    if plan != [] {
      var front := plan[..|plan| - 1];
      var last := plan[|plan| - 1];
      assert plan == front + [last];
      InitAllKeysBound(m, front, init);
      assert (set v | v in front && init(v).Ok? :: v.Name())
          <= (set v | v in plan && init(v).Ok? :: v.Name());
      if init(last).Ok? {
        assert last.Name() in (set v | v in plan && init(v).Ok? :: v.Name());
      }
    }
  }

  /** A planned connector that fails to come up does not appear in the map,
      unless it was already there, whether or not a later connector ends
      initialization with an error. */
  lemma FailedConnectorAbsent(s: AppSettings, m: map<string, Venue>, init: Venue -> Result<(), Error>, v: Venue)
    requires v in Planned(s) && init(v).Err? && v.Name() !in m
    ensures v.Name() !in InitAll(m, Planned(s), init).1
  {
    InitAllKeysBound(m, Planned(s), init);
  }

  /** A strategy, known by its name. */
  datatype Strategy = Strategy(name: string)

  function Names(ss: seq<Strategy>): (r: seq<string>)
    ensures |r| == |ss| && forall i :: 0 <= i < |ss| ==> r[i] == ss[i].name
  {
    seq(|ss|, i requires 0 <= i < |ss| => ss[i].name)
  }

  /** The arguments of one `place_order` call; the price is dropped when the
      signal's price is missing or zero. */
  datatype PlaceRequest = PlaceRequest(
    symbol: string,
    side: OrderSide,
    orderType: OrderType,
    quantity: Decimal,
    price: Option<Decimal>)

  function RequestOf(sig: Signal): (r: PlaceRequest)
    ensures r.symbol == sig.symbol && r.side == sig.side && r.orderType == sig.orderType
    ensures r.quantity == sig.quantity && r.price == NonZero(sig.price)
  {
    PlaceRequest(sig.symbol, sig.side, sig.orderType, sig.quantity, NonZero(sig.price))
  }

  /** What an evaluation round does, in order: an order sent to a named
      connector, a signal logged in dry-run mode, or an error that ended the
      round. */
  datatype Event =
    | Submitted(connector: string, request: PlaceRequest)
    | DryRunLogged(signal: Signal)
    | RoundFailed(error: Error)

  /** The signals of one round handled in order. A signal goes to the
      connector named by its `strategy_name`, unless in dry-run mode; in
      dry-run mode every signal is logged; the first failed order ends the
      round. */
  function Dispatch(connectors: map<string, Venue>, dryRun: bool, signals: seq<Signal>,
                    place: (Venue, PlaceRequest) -> Result<Order, Error>): (r: seq<Event>)
    ensures dryRun ==> forall e :: e in r ==> e.DryRunLogged?
    ensures !dryRun ==> forall e :: e in r ==> !e.DryRunLogged?
    ensures forall i :: 0 <= i < |r| && r[i].RoundFailed? ==> i == |r| - 1
  {
    if signals == [] then []
    else
      var sig := signals[0];
      var rest := Dispatch(connectors, dryRun, signals[1..], place);
      if sig.strategyName in connectors && !dryRun then
        var request := RequestOf(sig);
        [Submitted(sig.strategyName, request)]
        + match place(connectors[sig.strategyName], request)
          case Err(e) => [RoundFailed(e)]
          case Ok(_) => rest
      else if dryRun then [DryRunLogged(sig)] + rest
      else rest
  }

  /** One round: a failed evaluation is reported and the round ends. */
  function Round(connectors: map<string, Venue>, dryRun: bool, evaluated: Result<seq<Signal>, Error>,
                 place: (Venue, PlaceRequest) -> Result<Order, Error>): (r: seq<Event>)
    ensures evaluated.Err? ==> r == [RoundFailed(evaluated.error)]
    ensures forall i :: 0 <= i < |r| && r[i].RoundFailed? ==> i == |r| - 1
  {
    match evaluated
    case Err(e) => [RoundFailed(e)]
    case Ok(signals) => Dispatch(connectors, dryRun, signals, place)
  }

  /** The orders sent, in order. */
  function Submissions(events: seq<Event>): (r: seq<(string, PlaceRequest)>)
    ensures forall o :: o in r ==> Submitted(o.0, o.1) in events
    ensures forall e :: e in events && e.Submitted? ==> (e.connector, e.request) in r
  {
    if events == [] then []
    else (if events[0].Submitted? then [(events[0].connector, events[0].request)] else [])
         + Submissions(events[1..])
  }

  /** The signals that name a connected venue, as the orders they stand for. */
  function Routable(connectors: map<string, Venue>, signals: seq<Signal>): (r: seq<(string, PlaceRequest)>)
    ensures |r| <= |signals|
    ensures forall e :: e in r ==> e.0 in connectors
  {
    if signals == [] then []
    else (if signals[0].strategyName in connectors then [(signals[0].strategyName, RequestOf(signals[0]))] else [])
         + Routable(connectors, signals[1..])
  }

  lemma {:induction false} SubmissionsAppend(a: seq<Event>, b: seq<Event>)
    ensures Submissions(a + b) == Submissions(a) + Submissions(b)
  {
    if a == [] {
      assert a + b == b;
    } else {
      assert (a + b)[0] == a[0];
      assert (a + b)[1..] == a[1..] + b;
      SubmissionsAppend(a[1..], b);
    }
  }

  /** In dry-run mode no order is sent and every signal is logged, in order. */
  lemma {:induction false} DryRunPlacesNothing(connectors: map<string, Venue>, signals: seq<Signal>,
                                               place: (Venue, PlaceRequest) -> Result<Order, Error>)
    ensures Dispatch(connectors, true, signals, place) == seq(|signals|, i requires 0 <= i < |signals| => DryRunLogged(signals[i]))
    ensures Submissions(Dispatch(connectors, true, signals, place)) == []
  {
    if signals != [] {
      DryRunPlacesNothing(connectors, signals[1..], place);
      var d := Dispatch(connectors, true, signals, place);
      assert d == [DryRunLogged(signals[0])] + Dispatch(connectors, true, signals[1..], place);
      SubmissionsAppend([DryRunLogged(signals[0])], Dispatch(connectors, true, signals[1..], place));
    }
  }

  /** Outside dry-run mode the orders sent are a prefix of the routable
      signals, each to the connector its signal names, and all of them when
      no order fails. */
  lemma {:induction false} SubmissionsFollowSignals(connectors: map<string, Venue>, signals: seq<Signal>,
                                                    place: (Venue, PlaceRequest) -> Result<Order, Error>)
    ensures Submissions(Dispatch(connectors, false, signals, place)) <= Routable(connectors, signals)
    ensures (forall v, req :: place(v, req).Ok?) ==>
      Submissions(Dispatch(connectors, false, signals, place)) == Routable(connectors, signals)
  {
    if signals != [] {
      var sig := signals[0];
      var rest := Dispatch(connectors, false, signals[1..], place);
      SubmissionsFollowSignals(connectors, signals[1..], place);
      if sig.strategyName in connectors {
        var request := RequestOf(sig);
        var tail := match place(connectors[sig.strategyName], request)
          case Err(e) => [RoundFailed(e)]
          case Ok(_) => rest;
        assert Dispatch(connectors, false, signals, place) == [Submitted(sig.strategyName, request)] + tail;
        SubmissionsAppend([Submitted(sig.strategyName, request)], tail);
        assert Submissions([RoundFailed(Error.OtherError(""))]) == [];
      }
    }
  }

  /** An order is only ever sent to a connected venue. */
  lemma {:induction false} SubmittedToConnected(connectors: map<string, Venue>, dryRun: bool, signals: seq<Signal>,
                                                place: (Venue, PlaceRequest) -> Result<Order, Error>)
    ensures forall e :: e in Dispatch(connectors, dryRun, signals, place) && e.Submitted? ==> e.connector in connectors
  {
    if signals != [] {
      SubmittedToConnected(connectors, dryRun, signals[1..], place);
    }
  }

  /** Signals that name no connected venue are dropped silently outside
      dry-run mode. */
  lemma {:induction false} UnroutedSignalsIgnored(connectors: map<string, Venue>, signals: seq<Signal>,
                                                  place: (Venue, PlaceRequest) -> Result<Order, Error>)
    requires forall i :: 0 <= i < |signals| ==> signals[i].strategyName !in connectors
    ensures Dispatch(connectors, false, signals, place) == []
  {
    if signals != [] {
      UnroutedSignalsIgnored(connectors, signals[1..], place);
    }
  }

  /** The strategies whose `stop()` fails, in order. */
  function FailedStops(ss: seq<Strategy>, stop: Strategy -> Result<(), Error>): (r: seq<string>)
    ensures |r| <= |ss|
    ensures forall n :: n in r ==> exists s :: s in ss && s.name == n && stop(s).Err?
    ensures forall s :: s in ss && stop(s).Err? ==> s.name in r
  {
    if ss == [] then []
    else
      var last := ss[|ss| - 1];
      assert ss == ss[..|ss| - 1] + [last];
      FailedStops(ss[..|ss| - 1], stop) + (if stop(last).Err? then [last.name] else [])
  }

  /** The per-venue outcome of a fan-out read: the venue's answer, nothing
      for a venue that raised a connector error, and the first other error
      met (in the map's iteration order, which the model leaves open). */
  ghost predicate FannedOut<T>(connectors: map<string, Venue>, fetch: Venue -> Result<seq<T>, Error>,
                               r: Result<map<string, seq<T>>, Error>)
  {
    && (r.Ok? <==> forall k :: k in connectors ==> Tolerated(fetch(connectors[k])))
    && (r.Ok? ==> r.value.Keys == connectors.Keys)
    && (r.Ok? ==> forall k :: k in r.value ==>
          r.value[k] == (if fetch(connectors[k]).Ok? then fetch(connectors[k]).value else []))
    && (r.Err? ==> exists k :: k in connectors && !Tolerated(fetch(connectors[k])) && r.error == fetch(connectors[k]).error)
  }

  class TradingEngine {
    const settings: AppSettings
    var connectors: map<string, Venue>
    var strategies: seq<Strategy>
    /** One evaluation loop per started strategy, known by its name. */
    var tasks: seq<string>
    var running: bool

    predicate Valid()
      reads this
    {
      NamedBy(connectors)
    }

    /** `TradingEngine(settings)`: default settings when none are given. */
    constructor (settings: Option<AppSettings>)
      ensures this.settings == settings.GetOr(AppSettings())
      ensures connectors == map[] && strategies == [] && tasks == [] && !running
      ensures Valid()
    {
      this.settings := settings.GetOr(AppSettings());
      connectors := map[];
      strategies := [];
      tasks := [];
      running := false;
    }

    method InitConnector(v: Venue, init: Venue -> Result<(), Error>) returns (r: Result<(), Error>)
      requires Valid()
      modifies this
      ensures Valid()
      ensures (r, connectors) == InitStep(old(connectors), v, init)
      ensures strategies == old(strategies) && tasks == old(tasks) && running == old(running)
    {
      match init(v)
      case Ok(_) =>
        connectors := connectors[v.Name() := v];
        r := Ok(());
      case Err(e) =>
        r := if e.ConnectorError? then Ok(()) else Err(e);
    }

    /** `initialize()`: the three venues in turn; an error that is not a
        connector error ends it. */
    method Initialize(init: Venue -> Result<(), Error>) returns (r: Result<(), Error>)
      requires Valid()
      modifies this
      ensures Valid()
      ensures (r, connectors) == InitAll(old(connectors), Planned(settings), init)
      ensures strategies == old(strategies) && tasks == old(tasks) && running == old(running)
    {
      var s := settings;
      ghost var done: seq<Venue> := [];
      r := Ok(());
      if CcxtWanted(s) {
        InitAllSnoc(old(connectors), done, CcxtVenueOf(s), init);
        r := InitConnector(CcxtVenueOf(s), init);
        done := done + [CcxtVenueOf(s)];
      }
      if AlpacaWanted(s) {
        InitAllSnoc(old(connectors), done, AlpacaVenueOf(s), init);
        if r.Ok? {
          r := InitConnector(AlpacaVenueOf(s), init);
        }
        done := done + [AlpacaVenueOf(s)];
      }
      if PolymarketWanted(s) {
        InitAllSnoc(old(connectors), done, PolymarketVenueOf(s), init);
        if r.Ok? {
          r := InitConnector(PolymarketVenueOf(s), init);
        }
        done := done + [PolymarketVenueOf(s)];
      }
      assert done == Planned(s);
    }

    /** `register_strategy(strategy)`. */
    method RegisterStrategy(strategy: Strategy)
      modifies this
      ensures strategies == old(strategies) + [strategy]
      ensures connectors == old(connectors) && tasks == old(tasks) && running == old(running)
    {
      strategies := strategies + [strategy];
    }

    /** `start()`: marks the engine running and launches one loop per
        strategy once that strategy has initialized; a strategy that fails
        to initialize ends it, leaving the loops already launched. */
    method Start(init: Strategy -> Result<(), Error>) returns (r: Result<(), Error>)
      requires Valid()
      modifies this
      ensures Valid() && running
      ensures connectors == old(connectors) && strategies == old(strategies)
      ensures r.Ok? <==> forall i :: 0 <= i < |strategies| ==> init(strategies[i]).Ok?
      ensures r.Ok? ==> tasks == old(tasks) + Names(strategies)
      ensures r.Err? ==> exists n :: (0 <= n < |strategies| && init(strategies[n]).Err?
        && r.error == init(strategies[n]).error
        && (forall j :: 0 <= j < n ==> init(strategies[j]).Ok?)
        && tasks == old(tasks) + Names(strategies[..n]))
    {
      running := true;
      for i := 0 to |strategies|
        invariant running && connectors == old(connectors) && strategies == old(strategies)
        invariant tasks == old(tasks) + Names(strategies[..i])
        invariant forall j :: 0 <= j < i ==> init(strategies[j]).Ok?
      {
        var outcome := init(strategies[i]);
        if outcome.Err? {
          return Err(outcome.error);
        }
        assert Names(strategies[..i + 1]) == Names(strategies[..i]) + [strategies[i].name];
        tasks := tasks + [strategies[i].name];
      }
      assert strategies[..|strategies|] == strategies;
      r := Ok(());
    }

    /** One pass of the body of `_strategy_loop`: `evaluated` is what the
        strategy's `evaluate()` gave, `place` what each connector's
        `place_order` gives. */
    method RunRound(evaluated: Result<seq<Signal>, Error>, place: (Venue, PlaceRequest) -> Result<Order, Error>)
      returns (events: seq<Event>)
      requires Valid()
      ensures events == Round(connectors, settings.dryRun, evaluated, place)
      ensures forall e :: e in events && e.Submitted? ==>
        e.connector in connectors && connectors[e.connector].Name() == e.connector
    {
      if evaluated.Err? {
        return [RoundFailed(evaluated.error)];
      }
      var signals := evaluated.value;
      var dryRun := settings.dryRun;
      SubmittedToConnected(connectors, dryRun, signals, place);
      events := [];
      var i := 0;
      while i < |signals|
        invariant 0 <= i <= |signals|
        invariant Dispatch(connectors, dryRun, signals, place)
               == events + Dispatch(connectors, dryRun, signals[i..], place)
      {
        var sig := signals[i];
        assert signals[i..][1..] == signals[i + 1..];
        if sig.strategyName in connectors && !dryRun {
          var request := RequestOf(sig);
          events := events + [Submitted(sig.strategyName, request)];
          var placed := place(connectors[sig.strategyName], request);
          if placed.Err? {
            events := events + [RoundFailed(placed.error)];
            return;
          }
        } else if dryRun {
          events := events + [DryRunLogged(sig)];
        }
        i := i + 1;
      }
    }

    /** `stop()`: never fails. Every strategy is stopped and every connector
        closed, whatever the others do; the connector map is kept. */
    method Stop(stopStrategy: Strategy -> Result<(), Error>, close: Venue -> Result<(), Error>)
      returns (failedStrategies: seq<string>, closed: set<string>, failedConnectors: set<string>)
      requires Valid()
      modifies this
      ensures Valid() && !running && tasks == []
      ensures connectors == old(connectors) && strategies == old(strategies)
      ensures failedStrategies == FailedStops(strategies, stopStrategy)
      ensures closed == connectors.Keys
      ensures failedConnectors == set k | k in connectors && close(connectors[k]).Err?
    {
      running := false;
      failedStrategies := [];
      for i := 0 to |strategies|
        invariant failedStrategies == FailedStops(strategies[..i], stopStrategy)
      {
        assert strategies[..i + 1][..i] == strategies[..i];
        if stopStrategy(strategies[i]).Err? {
          failedStrategies := failedStrategies + [strategies[i].name];
        }
      }
      assert strategies[..|strategies|] == strategies;
      closed, failedConnectors := {}, {};
      var pending := connectors.Keys;
      while pending != {}
        invariant pending <= connectors.Keys
        invariant closed == connectors.Keys - pending
        invariant failedConnectors == set k | k in closed && close(connectors[k]).Err?
        decreases pending
      {
        var name :| name in pending;
        if close(connectors[name]).Err? {
          failedConnectors := failedConnectors + {name};
        }
        closed := closed + {name};
        pending := pending - {name};
      }
      tasks := [];
    }

    /** The fan-out shared by the two aggregate reads. */
    method Gather<T>(fetch: Venue -> Result<seq<T>, Error>) returns (r: Result<map<string, seq<T>>, Error>)
      ensures FannedOut(connectors, fetch, r)
    {
      var result: map<string, seq<T>> := map[];
      var pending := connectors.Keys;
      while pending != {}
        invariant pending <= connectors.Keys
        invariant result.Keys == connectors.Keys - pending
        invariant forall k :: k in result ==> Tolerated(fetch(connectors[k]))
        invariant forall k :: k in result ==>
          result[k] == (if fetch(connectors[k]).Ok? then fetch(connectors[k]).value else [])
        decreases pending
      {
        var name :| name in pending;
        var outcome := fetch(connectors[name]);
        if outcome.Err? && !outcome.error.ConnectorError? {
          return Err(outcome.error);
        }
        result := result[name := if outcome.Ok? then outcome.value else []];
        pending := pending - {name};
      }
      r := Ok(result);
    }

    /** `get_all_balances()`: `fetch` is each connector's `get_balance`. */
    method GetAllBalances(fetch: Venue -> Result<seq<Balance>, Error>) returns (r: Result<map<string, seq<Balance>>, Error>)
      ensures FannedOut(connectors, fetch, r)
    {
      r := Gather(fetch);
    }

    /** `get_all_positions()`: `fetch` is each connector's `get_positions`. */
    method GetAllPositions(fetch: Venue -> Result<seq<Position>, Error>) returns (r: Result<map<string, seq<Position>>, Error>)
      ensures FannedOut(connectors, fetch, r)
    {
      r := Gather(fetch);
    }
  }

  /** One failing venue leaves the others' answers untouched: two fan-outs
      whose venues answer alike except at `bad` agree everywhere else. */
  lemma FailureIsolated<T>(connectors: map<string, Venue>, bad: string,
                           f1: Venue -> Result<seq<T>, Error>, f2: Venue -> Result<seq<T>, Error>,
                           r1: Result<map<string, seq<T>>, Error>, r2: Result<map<string, seq<T>>, Error>)
    requires forall k :: k in connectors && k != bad ==> f1(connectors[k]) == f2(connectors[k])
    requires FannedOut(connectors, f1, r1) && FannedOut(connectors, f2, r2)
    requires r1.Ok? && r2.Ok?
    ensures r1.value.Keys == r2.value.Keys
    ensures forall k :: k in r1.value && k != bad ==> r1.value[k] == r2.value[k]
  {
  }
}
