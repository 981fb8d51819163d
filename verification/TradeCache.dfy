/** The cache of trades: rows in the order of creation, one row a trade. */
module TradeCache {
  import opened Prelude
  import opened EventLog
  import opened Aggregates
  import opened Engines
  import opened EventCache
  import opened CacheTheory
  import opened CacheRuns

  datatype Trade = Trade(id: int, terms: Terms, status: Status)

  datatype TradesDto = TradesDto(trades: seq<Trade>, isStateOfTheWorld: bool, isStale: bool)

  type Table = seq<Trade>

  const NO_UPDATE := TradesDto([], false, false)

  /** The first row with this id, or the number of rows. */
  function IndexOf(d: Table, id: int): (i: nat)
    ensures i <= |d|
    ensures i < |d| ==> d[i].id == id
    ensures forall j :: 0 <= j < i ==> d[j].id != id
  {
    if d == [] then 0 else if d[0].id == id then 0 else 1 + IndexOf(d[1..], id)
  }

  predicate Has(d: Table, id: int) {
    IndexOf(d, id) < |d|
  }

  function RowOf(d: Table, id: int): Trade
    requires Has(d, id)
  {
    d[IndexOf(d, id)]
  }

  predicate MatchesTrade(e: Entry) {
    e.event.TradeCreated? || e.event.TradeCompleted? || e.event.TradeRejected?
  }

  function SetStatus(d: Table, id: int, status: Status): Option<Table> {
    if Has(d, id) then Some(d[IndexOf(d, id) := RowOf(d, id).(status := status)]) else None
  }

  function UpdateTrades(d: Table, e: Entry): Option<Table> {
    match e.event
    case TradeCreated(id, terms) => if Has(d, id) then None else Some(d + [Trade(id, terms, Pending)])
    case TradeCompleted(id) => SetStatus(d, id, Done)
    case TradeRejected(id, _) => SetStatus(d, id, Rejected)
    case _ => None
  }

  function TradesSnapshot(d: Table, stale: bool): TradesDto {
    TradesDto(d, true, stale)
  }

  function SingleTrade(d: Table, id: int, status: Status): Option<TradesDto> {
    if Has(d, id) then Some(TradesDto([RowOf(d, id).(status := status)], false, false)) else None
  }

  function TradeDelta(d: Table, e: Entry): Option<TradesDto> {
    match e.event
    case TradeCreated(id, _) => SingleTrade(d, id, Pending)
    case TradeCompleted(id) => SingleTrade(d, id, Done)
    case TradeRejected(id, _) => SingleTrade(d, id, Rejected)
    case _ => None
  }

  predicate ValidTrades(o: TradesDto) {
    o != NO_UPDATE
  }

  const TRADE_PROJECTION: Projection<Entry, Table, TradesDto> :=
    Projection(MatchesTrade, [], UpdateTrades, TradesSnapshot, TradeDelta, ValidTrades, TradesDto([], false, true))

  function TradeIdOf(e: Event): int
    requires e.TradeCreated? || e.TradeCompleted? || e.TradeRejected?
  {
    e.id
  }

  function StatusAfter(e: Event): Status {
    match e
    case TradeCompleted(_) => Done
    case TradeRejected(_, _) => Rejected
    case _ => Pending
  }

  ghost predicate DistinctIds(d: Table) {
    forall i, j :: 0 <= i < j < |d| ==> d[i].id != d[j].id
  }

  lemma IndexUnique(d: Table, i: nat)
    requires DistinctIds(d) && i < |d|
    ensures IndexOf(d, d[i].id) == i
  {
  }

  /** Rows keep their places, and a new one goes last. */
  lemma RowsStay(d: Table, d': Table)
    requires DistinctIds(d') && |d| <= |d'| <= |d| + 1
    requires forall i :: 0 <= i < |d| ==> d'[i].id == d[i].id
    ensures forall x :: Has(d, x) ==> Has(d', x) && IndexOf(d', x) == IndexOf(d, x)
    ensures forall x :: Has(d', x) && !Has(d, x) ==> IndexOf(d', x) == |d|
  {
    forall x | Has(d, x) ensures Has(d', x) && IndexOf(d', x) == IndexOf(d, x) {
      assert d'[IndexOf(d, x)].id == x;
      IndexUnique(d', IndexOf(d, x));
    }
    forall x | Has(d', x) && !Has(d, x) ensures IndexOf(d', x) == |d| {
    }
  }

  /** A row changes only where its own id is looked up. */
  lemma UpdateRows(d: Table, e: Entry)
    requires DistinctIds(d) && UpdateTrades(d, e).Some?
    ensures var d' := UpdateTrades(d, e).value;
            var id := TradeIdOf(e.event);
            && DistinctIds(d')
            && Has(d', id) && RowOf(d', id).id == id && RowOf(d', id).status == StatusAfter(e.event)
            && (forall x :: x != id ==> (Has(d', x) <==> Has(d, x)))
            && (forall x :: x != id && Has(d, x) ==> RowOf(d', x) == RowOf(d, x))
            && (Has(d, id) ==> RowOf(d', id) == RowOf(d, id).(status := StatusAfter(e.event)))
            && (!Has(d, id) ==> e.event.TradeCreated? && RowOf(d', id) == Trade(id, e.event.terms, Pending))
  {
    var id := TradeIdOf(e.event);
    if e.event.TradeCreated? {
      AddedRow(d, Trade(id, e.event.terms, Pending));
    } else {
      ReplacedRow(d, id, RowOf(d, id).(status := StatusAfter(e.event)));
    }
  }

  lemma AddedRow(d: Table, t: Trade)
    requires DistinctIds(d) && !Has(d, t.id)
    ensures DistinctIds(d + [t]) && Has(d + [t], t.id) && RowOf(d + [t], t.id) == t
    ensures forall x :: x != t.id ==> (Has(d + [t], x) <==> Has(d, x)) && (Has(d, x) ==> RowOf(d + [t], x) == RowOf(d, x))
  {
    RowsStay(d, d + [t]);
    assert (d + [t])[|d|] == t;
  }

  lemma ReplacedRow(d: Table, id: int, t: Trade)
    requires DistinctIds(d) && Has(d, id) && t.id == id
    ensures var d' := d[IndexOf(d, id) := t];
            && DistinctIds(d') && Has(d', id) && RowOf(d', id) == t
            && forall x :: x != id ==> (Has(d', x) <==> Has(d, x)) && (Has(d, x) ==> RowOf(d', x) == RowOf(d, x))
  {
    RowsStay(d, d[IndexOf(d, id) := t]);
  }

  lemma TradeDeltaIsTheRow(d: Table, e: Entry)
    requires UpdateTrades(d, e).Some?
    ensures var d' := UpdateTrades(d, e).value;
            && Has(d', TradeIdOf(e.event))
            && TradeDelta(d', e).Some?
            && |TradeDelta(d', e).value.trades| == 1
  {
    var d' := UpdateTrades(d, e).value;
    var id := TradeIdOf(e.event);
    if e.event.TradeCreated? {
      assert d'[|d|].id == id;
    } else {
      assert d'[IndexOf(d, id)].id == id;
    }
  }

  lemma TradesLawful()
    ensures Lawful(TRADE_PROJECTION)
  {
    var p := TRADE_PROJECTION;
    forall d, e | p.update(d, e).Some?
      ensures p.delta(p.update(d, e).value, e).Some? && p.delta(p.update(d, e).value, e).value != p.gone
    {
      TradeDeltaIsTheRow(d, e);
    }
  }

  // ----- the dictionary, read off the streams -----

  /** The row a trade's stream gives. */
  function RowFor(events: seq<Event>, id: int): Trade
    requires TradeLifecycle(events, id) && events != []
  {
    Trade(id, events[0].terms, if |events| == 1 then Pending else StatusAfter(events[1]))
  }

  /** A row for each trade that has a stream, and each row is what the stream says. */
  ghost predicate Mirrors(d: Table, log: Log) {
    && DistinctIds(d)
    && (forall id :: Has(d, id) <==> EventsOf(log, TradeStream(id)) != [])
    && (forall id :: Has(d, id) ==>
                       TradeLifecycle(EventsOf(log, TradeStream(id)), id)
                       && RowOf(d, id) == RowFor(EventsOf(log, TradeStream(id)), id))
  }

  /** In a well-formed log a trade is created first and settled at most once. */
  lemma PriorEvents(log: Log, e: Entry)
    requires WellFormed(log + [e]) && MatchesTrade(e)
    ensures e.stream == TradeStream(TradeIdOf(e.event))
    ensures var id := TradeIdOf(e.event);
            var events := EventsOf(log, TradeStream(id));
            && TradeLifecycle(events + [e.event], id)
            && (e.event.TradeCreated? ==> events == [])
            && (!e.event.TradeCreated? ==> |events| == 1 && events[0].TradeCreated?)
  {
    assert e in log + [e];
    assert AtHome(e);
    var id := TradeIdOf(e.event);
    var events := EventsOf(log, TradeStream(id));
    EventsOfSnoc(log, e, TradeStream(id));
    assert TradeLifecycle(events + [e.event], id);
    assert (events + [e.event])[|events|] == e.event;
    assert events != [] ==> (events + [e.event])[0] == events[0];
  }

  /** The rows of the other trades stay, and so do their streams. */
  lemma OtherRowMirrors(d: Table, log: Log, e: Entry, x: int)
    requires Mirrors(d, log) && e.stream != TradeStream(x)
    ensures EventsOf(log + [e], TradeStream(x)) == EventsOf(log, TradeStream(x))
    ensures Has(d, x) <==> EventsOf(log + [e], TradeStream(x)) != []
    ensures Has(d, x) ==>
              && TradeLifecycle(EventsOf(log + [e], TradeStream(x)), x)
              && RowOf(d, x) == RowFor(EventsOf(log + [e], TradeStream(x)), x)
  {
  }

  /** One more entry of a well-formed log. */
  lemma MirrorTrade(d: Table, log: Log, e: Entry)
    requires WellFormed(log + [e]) && Mirrors(d, log) && MatchesTrade(e)
    ensures UpdateTrades(d, e).Some? && Mirrors(UpdateTrades(d, e).value, log + [e])
  {
    PriorEvents(log, e);
    var id := TradeIdOf(e.event);
    var events := EventsOf(log, TradeStream(id));
    assert Has(d, id) <==> events != [];
    UpdateRows(d, e);
    var d' := UpdateTrades(d, e).value;
    EventsOfSnoc(log, e, TradeStream(id));
    assert RowOf(d', id) == RowFor(events + [e.event], id);
    forall x | x != id
      ensures Has(d', x) <==> EventsOf(log + [e], TradeStream(x)) != []
      ensures Has(d', x) ==>
                && TradeLifecycle(EventsOf(log + [e], TradeStream(x)), x)
                && RowOf(d', x) == RowFor(EventsOf(log + [e], TradeStream(x)), x)
    {
      OtherRowMirrors(d, log, e, x);
    }
  }

  lemma MirrorOther(d: Table, log: Log, e: Entry)
    requires WellFormed(log + [e]) && Mirrors(d, log) && !MatchesTrade(e)
    ensures Mirrors(d, log + [e])
  {
  }

  /** The dictionary of a log. */
  function TableOf(log: Log): Option<Table> {
    Fold(TRADE_PROJECTION, Select(TRADE_PROJECTION, log))
  }

  ghost predicate IsMirrored(log: Log) {
    TableOf(log).Some? && Mirrors(TableOf(log).value, log)
  }

  lemma {:induction false} TradesOf(log: Log)
    requires WellFormed(log)
    ensures IsMirrored(log)
  {
    if log != [] {
      var prior, e := Front(log), Last(log);
      assert log == prior + [e];
      WellFormedFront(prior, e);
      TradesOf(prior);
      TradesStep(prior, e);
    }
  }

  lemma TradesAt(log: Log, n: nat)
    requires WellFormed(log) && n <= |log|
    ensures StateAt(TRADE_PROJECTION, log, n).Some?
    ensures Mirrors(StateAt(TRADE_PROJECTION, log, n).value, log[..n])
  {
    WellFormedPrefix(log, n);
    TradesOf(log[..n]);
  }

  lemma TradesStep(log: Log, e: Entry)
    requires WellFormed(log + [e]) && IsMirrored(log)
    ensures IsMirrored(log + [e])
  {
    var events, d := Select(TRADE_PROJECTION, log), TableOf(log).value;
    assert Front(log + [e]) == log;
    if MatchesTrade(e) {
      MirrorTrade(d, log, e);
      FoldSnoc(TRADE_PROJECTION, events, e);
    } else {
      MirrorOther(d, log, e);
      assert events + [] == events;
    }
  }

  /** On every log the execution engines can produce, adding and looking up rows never throws. */
  lemma TradesTotal(log: Log)
    requires WellFormed(log)
    ensures Total(TRADE_PROJECTION, log)
  {
    forall n | 0 <= n <= |log| ensures StateAt(TRADE_PROJECTION, log, n).Some? {
      TradesAt(log, n);
    }
  }

  // ----- a client that keeps the current row of every trade -----

  type View = map<int, Trade>

  function ViewOf(d: Table): View {
    map id | id in (set t | t in d :: t.id) && Has(d, id) :: RowOf(d, id)
  }

  function TakeTrades(v: View, o: TradesDto): View {
    if o.isStateOfTheWorld then ViewOf(o.trades) else v + ViewOf(o.trades)
  }

  ghost const TRADE_READING: Reading<Table, TradesDto, View> := Reading(map[], TakeTrades, ViewOf, d => DistinctIds(d))

  lemma ViewOfOne(t: Trade)
    ensures ViewOf([t]) == map[t.id := t]
  {
  }

  lemma ViewMoves(d: Table, d': Table, id: int)
    requires Has(d', id)
    requires forall x :: x != id ==> (Has(d', x) <==> Has(d, x))
    requires forall x :: x != id && Has(d, x) ==> RowOf(d', x) == RowOf(d, x)
    ensures ViewOf(d) + map[id := RowOf(d', id)] == ViewOf(d')
  {
  }

  /** The single row of a delta is the row as the update left it. */
  lemma DeltaRow(d: Table, e: Entry)
    requires DistinctIds(d) && UpdateTrades(d, e).Some?
    ensures var d' := UpdateTrades(d, e).value;
            && Has(d', TradeIdOf(e.event))
            && TradeDelta(d', e) == Some(TradesDto([RowOf(d', TradeIdOf(e.event))], false, false))
  {
    UpdateRows(d, e);
    var row := RowOf(UpdateTrades(d, e).value, TradeIdOf(e.event));
    assert row.(status := StatusAfter(e.event)) == row;
  }

  lemma DeltaMovesView(d: Table, e: Entry)
    requires DistinctIds(d) && UpdateTrades(d, e).Some?
    ensures DeltaIsFaithful(TRADE_PROJECTION, TRADE_READING, d, e, UpdateTrades(d, e).value)
  {
    var d' := UpdateTrades(d, e).value;
    var id := TradeIdOf(e.event);
    DeltaRow(d, e);
    ViewOfOne(RowOf(d', id));
    assert DistinctIds(d') && ViewOf(d) + map[id := RowOf(d', id)] == ViewOf(d') by {
      UpdateRows(d, e);
      ViewMoves(d, d', id);
    }
  }

  lemma TradesFaithful()
    ensures Faithful(TRADE_PROJECTION, TRADE_READING)
  {
    var p, r := TRADE_PROJECTION, TRADE_READING;
    assert ViewOf([]) == map[];
    forall v: View ensures r.take(v, p.gone) == v {}
    forall d, e | r.ok(d) && p.update(d, e).Some?
      ensures DeltaIsFaithful(p, r, d, e, p.update(d, e).value)
    {
      DeltaMovesView(d, e);
    }
  }

  /** From the engines to the clients. Over any interleaving of engines, and any run of a trade cache on
      the log they wrote: no callback throws; the dictionary has exactly one row for each trade created in
      the delivered prefix, as that trade's stream says; and a client that got a fresh snapshot since the
      last connect holds exactly these rows. */
  lemma ClientsSeeTheLog(ops: seq<Engines.Step>, steps: seq<CacheRuns.Step<Entry>>)
    requires WithinIds(Engines.Run(ops))
    requires CacheRuns.Run(TRADE_PROJECTION, steps).log == Engines.Run(ops).log
    ensures var w := CacheRuns.Run(TRADE_PROJECTION, steps);
            && !w.cache.failed
            && w.delivered <= |w.log|
            && Mirrors(w.cache.dict, w.log[..w.delivered])
            && forall i :: i in w.cache.clients && GotFresh(TRADE_PROJECTION, w.cache.clients[i]) ==>
                             ReadFrom(TRADE_READING, map[], w.cache.clients[i].received) == ViewOf(w.cache.dict)
  {
    var w := CacheRuns.Run(TRADE_PROJECTION, steps);
    LogIsWellFormed(ops);
    TradesTotal(w.log);
    TradesLawful();
    TradesFaithful();
    NoGapNoDuplicate(TRADE_PROJECTION, steps);
    TradesAt(w.log, w.delivered);
    forall i | i in w.cache.clients && GotFresh(TRADE_PROJECTION, w.cache.clients[i])
      ensures ReadFrom(TRADE_READING, map[], w.cache.clients[i].received) == ViewOf(w.cache.dict)
    {
      ViewIsTheDictionary(TRADE_PROJECTION, TRADE_READING, steps, i);
    }
  }
}
