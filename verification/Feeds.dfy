/** What the clients of the two caches are sent, message by message, and how each event moves the
    dictionaries. */
module Feeds {
  import opened Prelude
  import opened EventLog
  import opened Aggregates
  import opened Engines
  import opened EventCache
  import opened CacheTheory
  import opened CacheRuns
  import opened CacheSteps
  import opened TradeCache
  import PairCache

  // ----- trades -----

  /** The row at place k gets this status and all else stays. */
  ghost predicate StatusSet(d: Table, id: int, status: Status, d': Table) {
    exists k :: 0 <= k < |d| && d[k].id == id && d' == d[k := Trade(id, d[k].terms, status)]
  }

  /** A creation adds its row at the end, if there is none of its id; an outcome sets the status of its row, if
      there is one. */
  ghost predicate Taken(d: Table, e: Event, d': Table) {
    match e
    case TradeCreated(id, terms) => d' == d + [Trade(id, terms, Pending)] && forall k :: 0 <= k < |d| ==> d[k].id != id
    case TradeCompleted(id) => StatusSet(d, id, Done, d')
    case TradeRejected(id, _) => StatusSet(d, id, Rejected, d')
    case _ => false
  }

  lemma SetsExactly(d: Table, id: int, status: Status, d': Table)
    requires DistinctIds(d)
    ensures SetStatus(d, id, status) == Some(d') <==> StatusSet(d, id, status, d')
  {
    if StatusSet(d, id, status, d') {
      var k :| 0 <= k < |d| && d[k].id == id && d' == d[k := Trade(id, d[k].terms, status)];
      IndexUnique(d, k);
    } else if Has(d, id) {
      var k := IndexOf(d, id);
      assert d[k].(status := status) == Trade(id, d[k].terms, status);
    }
  }

  /** The handler takes an event to d' exactly when it calls for it, and throws on every other. */
  lemma TakesExactly(d: Table, e: Entry, d': Table)
    requires DistinctIds(d)
    ensures UpdateTrades(d, e) == Some(d') <==> Taken(d, e.event, d')
  {
    match e.event {
      case TradeCreated(id, _) =>
        if exists k :: 0 <= k < |d| && d[k].id == id {
          var k :| 0 <= k < |d| && d[k].id == id;
          IndexUnique(d, k);
        }
      case TradeCompleted(id) => SetsExactly(d, id, Done, d');
      case TradeRejected(id, _) => SetsExactly(d, id, Rejected, d');
      case _ =>
    }
  }

  /** The one row of a trade's message is the row the dictionary now has. */
  ghost predicate IsRowOf(o: TradesDto, d: Table, id: int) {
    exists k :: 0 <= k < |d| && d[k].id == id && o == TradesDto([d[k]], false, false)
  }

  lemma SaysTheRow(d: Table, e: Entry)
    requires DistinctIds(d) && UpdateTrades(d, e).Some?
    ensures TradeDelta(UpdateTrades(d, e).value, e).Some?
    ensures IsRowOf(TradeDelta(UpdateTrades(d, e).value, e).value, UpdateTrades(d, e).value, TradeIdOf(e.event))
  {
    DeltaRow(d, e);
    var d' := UpdateTrades(d, e).value;
    assert d'[IndexOf(d', TradeIdOf(e.event))].id == TradeIdOf(e.event);
  }

  /** The ids of the trades of a log in the order of their creation. */
  function CreatedIn(log: Log): seq<int> {
    if log == [] then []
    else CreatedIn(Front(log)) + if Last(log).event.TradeCreated? then [Last(log).event.id] else []
  }

  ghost predicate RowsInOrder(d: Table, ids: seq<int>) {
    |d| == |ids| && forall k :: 0 <= k < |d| ==> d[k].id == ids[k]
  }

  lemma OrderStep(d: Table, e: Entry, d': Table, ids: seq<int>)
    requires Taken(d, e.event, d') && RowsInOrder(d, ids)
    ensures RowsInOrder(d', ids + if e.event.TradeCreated? then [e.event.id] else [])
  {
  }

  /** On a log of the engines the rows are in the order in which the trades were created. */
  lemma {:induction false} TradesInOrder(log: Log)
    requires WellFormed(log)
    ensures TableOf(log).Some? && DistinctIds(TableOf(log).value) && RowsInOrder(TableOf(log).value, CreatedIn(log))
  {
    Tabled(log);
    if log != [] {
      var prior, e := Front(log), Last(log);
      assert log == prior + [e];
      WellFormedFront(prior, e);
      TradesInOrder(prior);
      OrderSnoc(prior, e);
    }
  }

  lemma Tabled(log: Log)
    requires WellFormed(log)
    ensures TableOf(log).Some? && DistinctIds(TableOf(log).value)
  {
    TradesOf(log);
  }

  lemma OrderSnoc(log: Log, e: Entry)
    requires TableOf(log).Some? && DistinctIds(TableOf(log).value) && RowsInOrder(TableOf(log).value, CreatedIn(log))
    requires TableOf(log + [e]).Some?
    ensures RowsInOrder(TableOf(log + [e]).value, CreatedIn(log + [e]))
  {
    var d, d' := TableOf(log).value, TableOf(log + [e]).value;
    TableSnoc(log, e);
    assert CreatedIn(log + [e]) == CreatedIn(log) + if e.event.TradeCreated? then [e.event.id] else [] by {
      assert Front(log + [e]) == log;
    }
    if MatchesTrade(e) {
      TakesExactly(d, e, d');
      OrderStep(d, e, d', CreatedIn(log));
    }
  }

  lemma TableSnoc(log: Log, e: Entry)
    requires TableOf(log).Some?
    ensures TableOf(log + [e]) == if MatchesTrade(e) then UpdateTrades(TableOf(log).value, e) else TableOf(log)
  {
    assert Front(log + [e]) == log;
    var events := Select(TRADE_PROJECTION, log);
    if MatchesTrade(e) {
      FoldSnoc(TRADE_PROJECTION, events, e);
    } else {
      assert events + [] == events;
    }
  }

  // ----- what clients of trades are sent -----

  type Steps = seq<CacheRuns.Step<Entry>>

  function TradesAfter(steps: Steps): World<Entry, Table, TradesDto> {
    CacheRuns.Run(TRADE_PROJECTION, steps)
  }

  ghost predicate TradeClient(steps: Steps, i: nat) {
    !TradesAfter(steps).cache.failed && i in TradesAfter(steps).cache.clients
  }

  function MessagesTo(steps: Steps, i: nat): seq<TradesDto> {
    var clients := TradesAfter(steps).cache.clients;
    if i in clients then clients[i].received else []
  }

  /** Whoever subscribes is first shown all rows, marked as what they are: stale or not. */
  lemma TradesAtStart(steps: Steps, i: nat)
    requires TradeClient(steps, i) && TradesAfter(steps).cache.clients[i].phase.Scheduled?
    ensures var c := TradesAfter(steps).cache;
            MessagesTo(steps + [Start(i)], i) ==
              MessagesTo(steps, i) + [TradesDto(if c.stale && !c.published then [] else c.dict, true, c.stale)]
  {
    TradesLawful();
    StartTells(TRADE_PROJECTION, steps, i);
  }

  /** A subscriber that is not waiting for the loop is told by one empty, stale message that the
      connection went. */
  lemma TradesAtDisconnect(steps: Steps, i: nat)
    requires TradeClient(steps, i)
    ensures MessagesTo(steps + [Disconnect], i) ==
            MessagesTo(steps, i) + if TradesAfter(steps).cache.clients[i].phase.Scheduled? then [] else [TradesDto([], false, true)]
  {
    TradesLawful();
    DisconnectTells(TRADE_PROJECTION, steps);
    EveryRunIsOk(TRADE_PROJECTION, steps);
    var c := TradesAfter(steps).cache;
    assert ClientOk(TRADE_PROJECTION, c, c.clients[i]);
  }

  /** A live client is sent one row for each event of a trade: the row as the dictionary has it after that
      event, and nothing else. */
  lemma TradesAtEvent(steps: Steps, i: nat)
    requires TradeClient(steps, i) && TradesAfter(steps).cache.clients[i].phase.Live?
    requires var w := TradesAfter(steps);
             w.cache.gen > 0 && w.delivered < |w.log| && WellFormed(w.log)
    ensures var w, w' := TradesAfter(steps), TradesAfter(steps + [Deliver]);
            var e := w.log[w.delivered].event;
            if e.TradeCreated? || e.TradeCompleted? || e.TradeRejected? then
              && Taken(w.cache.dict, e, w'.cache.dict)
              && exists o :: IsRowOf(o, w'.cache.dict, e.id) && MessagesTo(steps + [Deliver], i) == MessagesTo(steps, i) + [o]
            else w'.cache == w.cache
  {
    TradesLawful();
    DeliverTells(TRADE_PROJECTION, steps);
    var w := TradesAfter(steps);
    var e := w.log[w.delivered];
    if MatchesTrade(e) {
      NextIsTaken(steps);
      var d' := UpdateTrades(w.cache.dict, e).value;
      TakesExactly(w.cache.dict, e, d');
      SaysTheRow(w.cache.dict, e);
      assert ValidTrades(TradeDelta(d', e).value);
    }
  }

  /** On a log of the engines the next event never throws. */
  lemma NextIsTaken(steps: Steps)
    requires var w := TradesAfter(steps);
             !w.cache.failed && w.delivered < |w.log| && WellFormed(w.log)
    ensures var w := TradesAfter(steps);
            && DistinctIds(w.cache.dict)
            && (MatchesTrade(w.log[w.delivered]) ==> UpdateTrades(w.cache.dict, w.log[w.delivered]).Some?)
  {
    TradesLawful();
    EveryRunIsOk(TRADE_PROJECTION, steps);
    var w := TradesAfter(steps);
    EntryIsTaken(w.log, w.delivered, w.cache.dict);
  }

  lemma EntryIsTaken(log: Log, n: nat, d: Table)
    requires WellFormed(log) && n < |log| && StateAt(TRADE_PROJECTION, log, n) == Some(d)
    ensures DistinctIds(d) && (MatchesTrade(log[n]) ==> UpdateTrades(d, log[n]).Some?)
  {
    assert log[..n + 1] == log[..n] + [log[n]];
    WellFormedPrefix(log, n);
    WellFormedPrefix(log, n + 1);
    Tabled(log[..n]);
    Tabled(log[..n + 1]);
    TableSnoc(log[..n], log[n]);
  }

  // ----- what clients of pairs are sent -----

  type PairTable = PairCache.Table

  type PairsDto = PairCache.PairsDto

  function PairsAfter(steps: Steps): World<Entry, PairTable, PairsDto> {
    CacheRuns.Run(PairCache.PAIR_PROJECTION, steps)
  }

  ghost predicate PairClient(steps: Steps, i: nat) {
    !PairsAfter(steps).cache.failed && i in PairsAfter(steps).cache.clients
  }

  function PairMessagesTo(steps: Steps, i: nat): seq<PairsDto> {
    var clients := PairsAfter(steps).cache.clients;
    if i in clients then clients[i].received else []
  }

  predicate IsEnabled(d: PairTable, x: string) {
    x in d.rows && d.rows[x].isEnabled
  }

  /** What clients are told about a pair: nothing of its sample rate or comment. */
  ghost predicate IsDtoOf(pair: PairCache.PairDto, d: PairTable, x: string) {
    x in d.rows && pair == PairCache.PairDto(x, d.rows[x].ratePrecision, d.rows[x].pipsPosition)
  }

  /** One addition for each enabled pair, and nothing else. */
  ghost predicate AddsTheEnabled(us: seq<PairCache.Update>, d: PairTable) {
    && (forall k :: 0 <= k < |us| ==> us[k].Added? && IsEnabled(d, us[k].pair.symbol) && IsDtoOf(us[k].pair, d, us[k].pair.symbol))
    && (forall x :: IsEnabled(d, x) ==> exists k :: 0 <= k < |us| && us[k].pair.symbol == x)
    && (forall j, k :: 0 <= j < k < |us| ==> us[j].pair.symbol != us[k].pair.symbol)
  }

  ghost predicate AddsAmong(us: seq<PairCache.Update>, order: seq<string>, d: PairTable) {
    && (forall k :: 0 <= k < |us| ==> us[k].Added? && IsEnabled(d, us[k].pair.symbol) && IsDtoOf(us[k].pair, d, us[k].pair.symbol)
                                      && us[k].pair.symbol in order)
    && (forall x :: IsEnabled(d, x) && x in order ==> exists k :: 0 <= k < |us| && us[k].pair.symbol == x)
    && (forall j, k :: 0 <= j < k < |us| ==> us[j].pair.symbol != us[k].pair.symbol)
  }

  lemma {:induction false} EnabledAreAdded(order: seq<string>, d: PairTable)
    requires Distinct(order)
    ensures AddsAmong(PairCache.EnabledAmong(order, d.rows), order, d)
  {
    if order != [] {
      var front, x := Front(order), Last(order);
      assert order == front + [x];
      assert x !in front by {
        assert forall k :: 0 <= k < |front| ==> order[k] == front[k] && order[k] != order[|front|];
      }
      EnabledAreAdded(front, d);
      var us := PairCache.EnabledAmong(front, d.rows);
      if IsEnabled(d, x) {
        AddOne(us, front, d, x);
      } else {
        assert us + [] == us;
        assert forall y :: y in order <==> y in front || y == x;
      }
    }
  }

  lemma AddOne(us: seq<PairCache.Update>, front: seq<string>, d: PairTable, x: string)
    requires AddsAmong(us, front, d) && x !in front && IsEnabled(d, x)
    ensures AddsAmong(us + [PairCache.Added(PairCache.DtoOf(x, d.rows[x]))], front + [x], d)
  {
    var us' := us + [PairCache.Added(PairCache.DtoOf(x, d.rows[x]))];
    forall y | IsEnabled(d, y) && y in front + [x] ensures exists k :: 0 <= k < |us'| && us'[k].pair.symbol == y {
      if y == x {
        assert us'[|us|].pair.symbol == y;
      } else {
        var k :| 0 <= k < |us| && us[k].pair.symbol == y;
        assert us'[k].pair.symbol == y;
      }
    }
  }

  /** On any log, in every run that has not thrown: the keys of the dictionary are in order, each once. */
  lemma {:induction false} KeysInOrder(events: seq<Entry>)
    requires Fold(PairCache.PAIR_PROJECTION, events).Some?
    ensures PairCache.OrderOk(Fold(PairCache.PAIR_PROJECTION, events).value)
  {
    if events != [] {
      KeysInOrder(Front(events));
      PairCache.OrderKept(Fold(PairCache.PAIR_PROJECTION, Front(events)).value, Last(events));
    }
  }

  /** Whoever subscribes is first shown the enabled pairs, each once, marked as what they are: stale or not. */
  lemma PairsAtStart(steps: Steps, i: nat)
    requires PairClient(steps, i) && PairsAfter(steps).cache.clients[i].phase.Scheduled?
    ensures var c := PairsAfter(steps).cache;
            exists us :: PairMessagesTo(steps + [Start(i)], i) == PairMessagesTo(steps, i) + [PairCache.PairsDto(us, true, c.stale)]
                         && if c.stale && !c.published then us == [] else AddsTheEnabled(us, c.dict)
  {
    var p := PairCache.PAIR_PROJECTION;
    PairCache.PairsLawful();
    StartTells(p, steps, i);
    EveryRunIsOk(p, steps);
    var c := PairsAfter(steps).cache;
    KeysInOrder(c.seen);
    EnabledAreAdded(c.dict.order, c.dict);
    AllAreAdded(c.dict);
    var us := if c.stale && !c.published then [] else PairCache.EnabledAmong(c.dict.order, c.dict.rows);
    assert PairMessagesTo(steps + [Start(i)], i) == PairMessagesTo(steps, i) + [PairCache.PairsDto(us, true, c.stale)];
  }

  lemma AllAreAdded(d: PairTable)
    requires PairCache.OrderOk(d)
    ensures AddsTheEnabled(PairCache.EnabledAmong(d.order, d.rows), d)
  {
    EnabledAreAdded(d.order, d);
    forall x | IsEnabled(d, x) ensures x in d.order {}
  }

  lemma PairsAtDisconnect(steps: Steps, i: nat)
    requires PairClient(steps, i)
    ensures PairMessagesTo(steps + [Disconnect], i) ==
            PairMessagesTo(steps, i)
            + if PairsAfter(steps).cache.clients[i].phase.Scheduled? then [] else [PairCache.PairsDto([], false, true)]
  {
    var p := PairCache.PAIR_PROJECTION;
    PairCache.PairsLawful();
    DisconnectTells(p, steps);
    EveryRunIsOk(p, steps);
    assert ClientOk(p, PairsAfter(steps).cache, PairsAfter(steps).cache.clients[i]);
  }

  /** An activation is told as one addition, a deactivation as one removal, and a creation or a change not at
      all. */
  ghost predicate PairSaid(e: Event, d: PairTable, said: seq<PairsDto>) {
    match e
    case PairActivated(x) =>
      exists pair :: IsDtoOf(pair, d, x) && d.rows[x].isEnabled && said == [PairCache.PairsDto([PairCache.Added(pair)], false, false)]
    case PairDeactivated(x) =>
      exists pair :: IsDtoOf(pair, d, x) && !d.rows[x].isEnabled && said == [PairCache.PairsDto([PairCache.Removed(pair)], false, false)]
    case _ => said == []
  }

  lemma PairsAtEvent(steps: Steps, i: nat)
    requires PairClient(steps, i) && PairsAfter(steps).cache.clients[i].phase.Live?
    requires var w := PairsAfter(steps);
             w.cache.gen > 0 && w.delivered < |w.log| && !PairsAfter(steps + [Deliver]).cache.failed
    ensures var w, w' := PairsAfter(steps), PairsAfter(steps + [Deliver]);
            exists said :: PairMessagesTo(steps + [Deliver], i) == PairMessagesTo(steps, i) + said
                           && PairSaid(w.log[w.delivered].event, w'.cache.dict, said)
  {
    var p := PairCache.PAIR_PROJECTION;
    PairCache.PairsLawful();
    DeliverTells(p, steps);
    var w, w' := PairsAfter(steps), PairsAfter(steps + [Deliver]);
    var e := w.log[w.delivered];
    if PairCache.MatchesPair(e) {
      var o := PairCache.PairDelta(w'.cache.dict, e).value;
      var said := if PairCache.ValidPairs(o) then [o] else [];
      DeltaSaid(w.cache.dict, e, w'.cache.dict, said);
      assert PairMessagesTo(steps + [Deliver], i) == PairMessagesTo(steps, i) + said;
    } else {
      assert PairMessagesTo(steps + [Deliver], i) == PairMessagesTo(steps, i) + [];
      assert PairSaid(e.event, w'.cache.dict, []);
    }
  }

  lemma DeltaSaid(d: PairTable, e: Entry, d': PairTable, said: seq<PairsDto>)
    requires PairCache.MatchesPair(e) && PairCache.UpdatePairs(d, e) == Some(d') && PairCache.PairDelta(d', e).Some?
    requires said == if PairCache.ValidPairs(PairCache.PairDelta(d', e).value) then [PairCache.PairDelta(d', e).value] else []
    ensures PairSaid(e.event, d', said)
  {
    if e.event.PairActivated? || e.event.PairDeactivated? {
      assert IsDtoOf(PairCache.DtoOf(e.event.symbol, d'.rows[e.event.symbol]), d', e.event.symbol);
    }
  }
}
