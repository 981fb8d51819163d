/** The cache of currency pairs: clients are shown the enabled ones, although a pair's creation and its
    changes are kept from them. */
module PairCache {
  import opened Prelude
  import opened EventLog
  import opened Aggregates
  import opened Engines
  import opened EventCache
  import opened CacheTheory
  import opened CacheRuns

  datatype Row = Row(pipsPosition: int, ratePrecision: int, sampleRate: real, comment: string, isEnabled: bool)

  /** The dictionary, with its keys in the order they were added. */
  datatype Table = Table(order: seq<string>, rows: map<string, Row>)

  datatype PairDto = PairDto(symbol: string, ratePrecision: int, pipsPosition: int)

  datatype Update = Added(pair: PairDto) | Removed(pair: PairDto)

  datatype PairsDto = PairsDto(updates: seq<Update>, isStateOfTheWorld: bool, isStale: bool)

  const NO_UPDATE := PairsDto([], false, false)

  predicate MatchesPair(e: Entry) {
    e.event.PairCreated? || e.event.PairActivated? || e.event.PairDeactivated? || e.event.PairChanged?
  }

  function Enable(d: Table, symbol: string, isEnabled: bool): Option<Table> {
    if symbol in d.rows then Some(d.(rows := d.rows[symbol := d.rows[symbol].(isEnabled := isEnabled)])) else None
  }

  function UpdatePairs(d: Table, e: Entry): Option<Table> {
    match e.event
    case PairCreated(symbol, pips, rate, sample, comment) =>
      if symbol in d.rows then None
      else Some(Table(d.order + [symbol], d.rows[symbol := Row(pips, rate, sample, comment, false)]))
    case PairActivated(symbol) => Enable(d, symbol, true)
    case PairDeactivated(symbol) => Enable(d, symbol, false)
    case PairChanged(_) => Some(d)
    case _ => None
  }

  function DtoOf(symbol: string, row: Row): PairDto {
    PairDto(symbol, row.ratePrecision, row.pipsPosition)
  }

  /** The enabled ones among these keys, as additions. */
  function EnabledAmong(order: seq<string>, rows: map<string, Row>): seq<Update> {
    if order == [] then []
    else
      var x := Last(order);
      EnabledAmong(Front(order), rows) + if x in rows && rows[x].isEnabled then [Added(DtoOf(x, rows[x]))] else []
  }

  function PairsSnapshot(d: Table, stale: bool): PairsDto {
    PairsDto(EnabledAmong(d.order, d.rows), true, stale)
  }

  function PairDelta(d: Table, e: Entry): Option<PairsDto> {
    match e.event
    case PairActivated(symbol) =>
      if symbol in d.rows then Some(PairsDto([Added(DtoOf(symbol, d.rows[symbol]))], false, false)) else None
    case PairDeactivated(symbol) =>
      if symbol in d.rows then Some(PairsDto([Removed(DtoOf(symbol, d.rows[symbol]))], false, false)) else None
    case PairCreated(_, _, _, _, _) => Some(NO_UPDATE)
    case PairChanged(_) => Some(NO_UPDATE)
    case _ => None
  }

  predicate ValidPairs(o: PairsDto) {
    o != NO_UPDATE
  }

  const PAIR_PROJECTION: Projection<Entry, Table, PairsDto> :=
    Projection(MatchesPair, Table([], map[]), UpdatePairs, PairsSnapshot, PairDelta, ValidPairs, PairsDto([], false, true))

  lemma PairsLawful()
    ensures Lawful(PAIR_PROJECTION)
  {
  }

  // ----- the dictionary, read off the streams -----

  /** The read side's row of what the write side calls the pair's state. */
  function RowFor(s: PairState): Row {
    Row(s.pipsPosition, s.ratePrecision, s.sampleRate, s.comment, s.isActive)
  }

  function WriteSide(log: Log, symbol: string): PairState {
    Replay(ApplyPair, NEW_PAIR, EventsOf(log, PairStream(symbol)))
  }

  ghost predicate OrderOk(d: Table) {
    Distinct(d.order) && forall x :: x in d.order <==> x in d.rows
  }

  /** Whatever the pair's aggregate would load, the cache shows: enabled exactly when it is active. */
  ghost predicate Mirrors(d: Table, log: Log) {
    && OrderOk(d)
    && (forall x :: x in d.rows <==> EventsOf(log, PairStream(x)) != [])
    && (forall x :: x in d.rows ==> d.rows[x] == RowFor(WriteSide(log, x)))
  }

  lemma WriteSideSnoc(log: Log, e: Entry, symbol: string)
    ensures WriteSide(log + [e], symbol) ==
            if e.stream == PairStream(symbol) then ApplyPair(WriteSide(log, symbol), e.event) else WriteSide(log, symbol)
  {
    EventsOfSnoc(log, e, PairStream(symbol));
    var events := EventsOf(log, PairStream(symbol));
    if e.stream == PairStream(symbol) {
      ReplaySnoc(ApplyPair, NEW_PAIR, events, e.event);
    } else {
      assert events + [] == events;
    }
  }

  /** In a well-formed log a pair is created first, and once. */
  lemma {:induction false} PairPrior(log: Log, e: Entry)
    requires WellFormed(log + [e]) && MatchesPair(e)
    ensures e.stream == PairStream(e.event.symbol) && !e.event.PairChanged?
    ensures e.event.PairCreated? <==> EventsOf(log, PairStream(e.event.symbol)) == []
    ensures e.event.PairCreated? ==> !WriteSide(log, e.event.symbol).isActive
  {
    assert e in log + [e];
    assert AtHome(e);
    var events := EventsOf(log, PairStream(e.event.symbol));
    EventsOfSnoc(log, e, PairStream(e.event.symbol));
    assert PairLifecycle(events + [e.event], e.event.symbol);
    assert (events + [e.event])[|events|] == e.event;
  }

  lemma OrderKept(d: Table, e: Entry)
    requires OrderOk(d) && UpdatePairs(d, e).Some?
    ensures OrderOk(UpdatePairs(d, e).value)
  {
  }

  lemma MirrorStep(d: Table, log: Log, e: Entry)
    requires WellFormed(log + [e]) && Mirrors(d, log) && MatchesPair(e)
    ensures UpdatePairs(d, e).Some? && Mirrors(UpdatePairs(d, e).value, log + [e])
  {
    PairPrior(log, e);
    var symbol := e.event.symbol;
    assert symbol in d.rows <==> EventsOf(log, PairStream(symbol)) != [];
    OrderKept(d, e);
    var d' := UpdatePairs(d, e).value;
    forall x
      ensures x in d'.rows <==> EventsOf(log + [e], PairStream(x)) != []
      ensures x in d'.rows ==> d'.rows[x] == RowFor(WriteSide(log + [e], x))
    {
      EventsOfSnoc(log, e, PairStream(x));
      WriteSideSnoc(log, e, x);
    }
  }

  lemma MirrorOther(d: Table, log: Log, e: Entry)
    requires WellFormed(log + [e]) && Mirrors(d, log) && !MatchesPair(e)
    ensures Mirrors(d, log + [e])
  {
    assert e in log + [e];
    assert AtHome(e);
    forall x
      ensures x in d.rows <==> EventsOf(log + [e], PairStream(x)) != []
      ensures x in d.rows ==> d.rows[x] == RowFor(WriteSide(log + [e], x))
    {
      EventsOfSnoc(log, e, PairStream(x));
      WriteSideSnoc(log, e, x);
    }
  }

  ghost predicate IsMirrored(log: Log) {
    var d := Fold(PAIR_PROJECTION, Select(PAIR_PROJECTION, log));
    d.Some? && Mirrors(d.value, log)
  }

  lemma {:induction false} PairsOf(log: Log)
    requires WellFormed(log)
    ensures IsMirrored(log)
  {
    if log != [] {
      var prior, e := Front(log), Last(log);
      assert log == prior + [e];
      WellFormedFront(prior, e);
      PairsOf(prior);
      PairsStep(prior, e);
    }
  }

  lemma PairsStep(log: Log, e: Entry)
    requires WellFormed(log + [e]) && IsMirrored(log)
    ensures IsMirrored(log + [e])
  {
    var events := Select(PAIR_PROJECTION, log);
    var d := Fold(PAIR_PROJECTION, events).value;
    assert Front(log + [e]) == log;
    if MatchesPair(e) {
      MirrorStep(d, log, e);
      FoldSnoc(PAIR_PROJECTION, events, e);
    } else {
      MirrorOther(d, log, e);
      assert events + [] == events;
    }
  }

  lemma PairsAt(log: Log, n: nat)
    requires WellFormed(log) && n <= |log|
    ensures StateAt(PAIR_PROJECTION, log, n).Some?
    ensures Mirrors(StateAt(PAIR_PROJECTION, log, n).value, log[..n])
  {
    WellFormedPrefix(log, n);
    PairsOf(log[..n]);
  }

  lemma PairsTotal(log: Log)
    requires WellFormed(log)
    ensures Total(PAIR_PROJECTION, log)
  {
    forall n | 0 <= n <= |log| ensures StateAt(PAIR_PROJECTION, log, n).Some? {
      PairsAt(log, n);
    }
  }

  // ----- clients -----

  type View = map<string, PairDto>

  function EnabledView(d: Table): View {
    map x | x in d.rows && d.rows[x].isEnabled :: DtoOf(x, d.rows[x])
  }

  function ApplyUpdate(v: View, u: Update): View {
    if u.Added? then v[u.pair.symbol := u.pair] else v - {u.pair.symbol}
  }

  function ApplyUpdates(v: View, us: seq<Update>): View {
    if us == [] then v else ApplyUpdate(ApplyUpdates(v, Front(us)), Last(us))
  }

  /** A client that starts over at each state of the world. */
  function TakeFresh(v: View, o: PairsDto): View {
    ApplyUpdates(if o.isStateOfTheWorld then map[] else v, o.updates)
  }

  ghost const PAIR_READING: Reading<Table, PairsDto, View> := Reading(map[], TakeFresh, EnabledView, d => OrderOk(d))

  lemma ApplySnoc(v: View, us: seq<Update>, u: Update)
    ensures ApplyUpdates(v, us + [u]) == ApplyUpdate(ApplyUpdates(v, us), u)
  {
  }

  function EnabledIn(order: seq<string>, rows: map<string, Row>): View {
    map x | x in rows && rows[x].isEnabled && x in order :: DtoOf(x, rows[x])
  }

  lemma EnabledInSnoc(order: seq<string>, rows: map<string, Row>, x: string)
    ensures EnabledIn(order + [x], rows) ==
            if x in rows && rows[x].isEnabled then EnabledIn(order, rows)[x := DtoOf(x, rows[x])] else EnabledIn(order, rows)
  {
    assert forall y :: y in order + [x] <==> y in order || y == x;
  }

  /** A snapshot applied to nothing gives the enabled pairs. */
  lemma {:induction false} SnapshotShows(order: seq<string>, rows: map<string, Row>)
    ensures ApplyUpdates(map[], EnabledAmong(order, rows)) == EnabledIn(order, rows)
  {
    if order != [] {
      var rest, x := EnabledAmong(Front(order), rows), Last(order);
      SnapshotShows(Front(order), rows);
      assert order == Front(order) + [x];
      EnabledInSnoc(Front(order), rows, x);
      if x in rows && rows[x].isEnabled {
        ApplySnoc(map[], rest, Added(DtoOf(x, rows[x])));
      } else {
        assert rest + [] == rest;
      }
    }
  }

  /** An activation or deactivation moves the view by its one update. */
  lemma EnableMovesView(d: Table, symbol: string, isEnabled: bool)
    requires symbol in d.rows
    ensures var d' := Enable(d, symbol, isEnabled).value;
            var pair := DtoOf(symbol, d'.rows[symbol]);
            ApplyUpdates(EnabledView(d), [if isEnabled then Added(pair) else Removed(pair)]) == EnabledView(d')
  {
  }

  lemma DeltaMovesView(d: Table, e: Entry)
    requires OrderOk(d) && UpdatePairs(d, e).Some?
    ensures DeltaIsFaithful(PAIR_PROJECTION, PAIR_READING, d, e, UpdatePairs(d, e).value)
  {
    OrderKept(d, e);
    if e.event.PairActivated? {
      EnableMovesView(d, e.event.symbol, true);
    } else if e.event.PairDeactivated? {
      EnableMovesView(d, e.event.symbol, false);
    } else {
      assert EnabledView(d) == EnabledView(UpdatePairs(d, e).value);
    }
  }

  lemma PairsFaithful()
    ensures Faithful(PAIR_PROJECTION, PAIR_READING)
  {
    var p, r := PAIR_PROJECTION, PAIR_READING;
    forall v: View, d | r.ok(d) ensures r.take(v, p.snapshot(d, false)) == r.rows(d) {
      SnapshotShows(d.order, d.rows);
    }
    forall d, e | r.ok(d) && p.update(d, e).Some? ensures DeltaIsFaithful(p, r, d, e, p.update(d, e).value) {
      DeltaMovesView(d, e);
    }
  }

  /** From the writers to the clients. Over any interleaving of writers, and any run of a pair cache on the
      log they wrote: no callback throws, the dictionary has exactly the pairs created in the delivered
      prefix, each enabled when its aggregate is active, and a client that starts over at a fresh
      snapshot and follows the deltas holds exactly the enabled ones. */
  lemma ClientsSeeTheEnabled(ops: seq<Engines.Step>, steps: seq<CacheRuns.Step<Entry>>)
    requires WithinIds(Engines.Run(ops))
    requires CacheRuns.Run(PAIR_PROJECTION, steps).log == Engines.Run(ops).log
    ensures var w := CacheRuns.Run(PAIR_PROJECTION, steps);
            && !w.cache.failed
            && w.delivered <= |w.log|
            && Mirrors(w.cache.dict, w.log[..w.delivered])
            && forall i :: i in w.cache.clients && GotFresh(PAIR_PROJECTION, w.cache.clients[i]) ==>
                             ReadFrom(PAIR_READING, map[], w.cache.clients[i].received) == EnabledView(w.cache.dict)
  {
    var w := CacheRuns.Run(PAIR_PROJECTION, steps);
    LogIsWellFormed(ops);
    PairsTotal(w.log);
    PairsLawful();
    PairsFaithful();
    NoGapNoDuplicate(PAIR_PROJECTION, steps);
    PairsAt(w.log, w.delivered);
    forall i | i in w.cache.clients && GotFresh(PAIR_PROJECTION, w.cache.clients[i])
      ensures ReadFrom(PAIR_READING, map[], w.cache.clients[i].received) == EnabledView(w.cache.dict)
    {
      ViewIsTheDictionary(PAIR_PROJECTION, PAIR_READING, steps, i);
    }
  }
}
