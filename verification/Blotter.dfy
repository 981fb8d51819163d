/** The blotter: the host cuts snapshots to the last 50 trades, the client keeps a list of rows. */
module Blotter {
  import opened Prelude
  import opened EventLog
  import opened Engines
  import opened EventCache
  import opened CacheTheory
  import opened CacheRuns
  import opened TradeCache
  import opened Sorting

  const MAX_SOTW_TRADES := 50

  function LastFifty(d: Table): Table {
    d[|d| - Min(|d|, MAX_SOTW_TRADES)..]
  }

  /** What the host sends on. A cut snapshot loses its stale flag. */
  function Truncate(o: TradesDto): TradesDto {
    if o.isStateOfTheWorld && |o.trades| > MAX_SOTW_TRADES
    then TradesDto(o.trades[|o.trades| - MAX_SOTW_TRADES..], true, false)
    else o
  }

  datatype Row = Row(trade: Trade, isNew: bool)

  type Rows = seq<Row>

  // ----- sorting a snapshot -----

  const BY_ID: (Trade, Trade) -> bool := (x: Trade, y: Trade) => x.id < y.id

  function SortById(trades: Table): Table {
    SortBy(BY_ID, trades)
  }

  function Reverse<T>(s: seq<T>): seq<T> {
    seq(|s|, i requires 0 <= i < |s| => s[|s| - 1 - i])
  }

  function PlainRows(trades: Table): Rows {
    seq(|trades|, i requires 0 <= i < |trades| => Row(trades[i], false))
  }

  function NewestFirst(trades: Table): Rows {
    PlainRows(Reverse(SortById(trades)))
  }

  lemma {:induction false} InsertKeepsDistinct(sorted: Table, t: Trade)
    requires DistinctIds(sorted + [t])
    ensures DistinctIds(Insert(BY_ID, sorted, t))
  {
    if sorted != [] && Last(sorted).id > t.id {
      var front, r := Front(sorted), Insert(BY_ID, Front(sorted), t);
      assert sorted == front + [Last(sorted)];
      DistinctWithout(front, Last(sorted), t);
      InsertKeepsDistinct(front, t);
      InsertAdds(BY_ID, front, t);
      forall i | 0 <= i < |r| ensures r[i].id != Last(sorted).id {
        assert r[i] in r;
      }
    }
  }

  lemma DistinctWithout(front: Table, last: Trade, t: Trade)
    requires DistinctIds(front + [last] + [t])
    ensures DistinctIds(front + [t]) && last.id != t.id
    ensures forall x :: x in front ==> x.id != last.id
  {
    var all := front + [last] + [t];
    assert all[|front|] == last && all[|front| + 1] == t;
    forall i | 0 <= i < |front| ensures all[i] == front[i] {}
    forall i, j | 0 <= i < j < |front + [t]| ensures (front + [t])[i].id != (front + [t])[j].id {
      if j < |front| {
        assert all[i].id != all[j].id;
      } else {
        assert all[i].id != all[|front| + 1].id;
      }
    }
    forall x | x in front ensures x.id != last.id {
      var i :| 0 <= i < |front| && front[i] == x;
      assert all[i].id != all[|front|].id;
    }
  }

  lemma {:induction false} SortKeepsDistinct(trades: Table)
    requires DistinctIds(trades)
    ensures DistinctIds(SortById(trades))
  {
    if trades != [] {
      var sorted := SortById(Front(trades));
      SortKeepsDistinct(Front(trades));
      SortSorts(BY_ID, Front(trades));
      forall i | 0 <= i < |sorted| ensures sorted[i].id != Last(trades).id {
        assert sorted[i] in sorted;
        assert sorted[i] in Front(trades);
      }
      InsertKeepsDistinct(sorted, Last(trades));
    }
  }

  ghost function IdsOf(rows: Rows): set<int> {
    set r | r in rows :: r.trade.id
  }

  ghost predicate DistinctRows(rows: Rows) {
    forall i, j :: 0 <= i < j < |rows| ==> rows[i].trade.id != rows[j].trade.id
  }

  /** A snapshot's rows: the same trades, highest id first. */
  lemma NewestFirstRows(trades: Table)
    ensures var rows := NewestFirst(trades);
            && |rows| == |trades|
            && (forall i, j :: 0 <= i < j < |rows| ==> rows[i].trade.id >= rows[j].trade.id)
            && (forall r :: r in rows ==> r.trade in trades && !r.isNew)
            && (forall t :: t in trades ==> Row(t, false) in rows)
            && (DistinctIds(trades) ==> DistinctRows(rows))
  {
    SortSorts(BY_ID, trades);
    if DistinctIds(trades) {
      SortKeepsDistinct(trades);
    }
    var sorted := SortById(trades);
    var rows := NewestFirst(trades);
    assert forall i :: 0 <= i < |rows| ==> rows[i] == Row(sorted[|sorted| - 1 - i], false);
    forall r | r in rows ensures r.trade in trades && !r.isNew {
      var i :| 0 <= i < |rows| && rows[i] == r;
      assert r.trade == sorted[|sorted| - 1 - i];
    }
    forall t | t in trades ensures Row(t, false) in rows {
      var i :| 0 <= i < |sorted| && sorted[i] == t;
      assert rows[|sorted| - 1 - i] == Row(t, false);
    }
  }

  // ----- the update handler -----

  function IndexOfRow(rows: Rows, id: int): (i: nat)
    ensures i <= |rows|
    ensures i < |rows| ==> rows[i].trade.id == id
    ensures forall j :: 0 <= j < i ==> rows[j].trade.id != id
  {
    if rows == [] then 0 else if rows[0].trade.id == id then 0 else 1 + IndexOfRow(rows[1..], id)
  }

  /** Replace the row with this id in place, or put a new one on top. */
  function TakeOne(rows: Rows, t: Trade): Rows {
    var i := IndexOfRow(rows, t.id);
    if i < |rows| then rows[i := Row(t, false)] else [Row(t, true)] + rows
  }

  function TakeAll(rows: Rows, trades: Table): Rows {
    if trades == [] then rows else TakeOne(TakeAll(rows, Front(trades)), Last(trades))
  }

  function OnUpdate(rows: Rows, o: TradesDto): Rows {
    if o.isStateOfTheWorld then NewestFirst(o.trades) else TakeAll(rows, o.trades)
  }

  class BlotterModel {
    var trades: Rows

    constructor ()
      ensures trades == []
    {
      trades := [];
    }

    method OnTradesUpdate(o: TradesDto)
      modifies this
      ensures trades == OnUpdate(old(trades), o)
    {
      if o.isStateOfTheWorld {
        trades := NewestFirst(o.trades);
      } else {
        var n := 0;
        while n < |o.trades|
          invariant 0 <= n <= |o.trades|
          invariant trades == TakeAll(old(trades), o.trades[..n])
        {
          var existing := IndexOfRow(trades, o.trades[n].id);
          if existing < |trades| {
            trades := trades[existing := Row(o.trades[n], false)];
          } else {
            trades := [Row(o.trades[n], true)] + trades;
          }
          assert Front(o.trades[..n + 1]) == o.trades[..n];
          n := n + 1;
        }
        assert o.trades[..|o.trades|] == o.trades;
      }
    }

    method OnServiceStatus(isConnected: bool)
      modifies this
      ensures trades == if isConnected then old(trades) else []
    {
      if !isConnected {
        trades := [];
      }
    }
  }

  lemma TakeOneRows(rows: Rows, t: Trade)
    requires DistinctRows(rows)
    ensures var rows' := TakeOne(rows, t);
            && DistinctRows(rows')
            && IdsOf(rows') == IdsOf(rows) + {t.id}
            && (forall r :: r in rows' ==> r.trade == t || (r in rows && r.trade.id != t.id))
            && (forall k :: 0 <= k < |rows| && rows[k].trade.id == t.id ==> rows' == rows[k := Row(t, false)])
            && (t.id !in IdsOf(rows) ==> rows' == [Row(t, true)] + rows)
  {
    var rows' := TakeOne(rows, t);
    var i := IndexOfRow(rows, t.id);
    if i < |rows| {
      forall x ensures x in IdsOf(rows') <==> x in IdsOf(rows) + {t.id} {
        if x in IdsOf(rows) {
          var j :| 0 <= j < |rows| && rows[j].trade.id == x;
          assert rows'[j].trade.id == x;
        }
        if x in IdsOf(rows') {
          var j :| 0 <= j < |rows'| && rows'[j].trade.id == x;
          assert rows[j].trade.id == x;
        }
      }
    } else {
      assert rows'[0].trade == t;
      forall x ensures x in IdsOf(rows') <==> x in IdsOf(rows) + {t.id} {
        if x in IdsOf(rows) {
          var j :| 0 <= j < |rows| && rows[j].trade.id == x;
          assert rows'[j + 1].trade.id == x;
        }
      }
    }
  }

  /** What the host sends on of a message: at most the 50 newest of a state of the world, and of anything else
      all. A cut one is no longer marked stale. */
  lemma CutToFifty(o: TradesDto)
    ensures var cut := Truncate(o);
            && cut.isStateOfTheWorld == o.isStateOfTheWorld
            && (if o.isStateOfTheWorld && |o.trades| > 50 then |cut.trades| == 50 && !cut.isStale
                else |cut.trades| == |o.trades| && cut.isStale == o.isStale)
            && cut.trades == o.trades[|o.trades| - |cut.trades|..]
    ensures o.isStateOfTheWorld ==> Truncate(o).trades == LastFifty(o.trades)
  {
  }

  lemma {:induction false} TakeAllRows(rows: Rows, trades: Table)
    requires DistinctRows(rows)
    ensures DistinctRows(TakeAll(rows, trades))
  {
    if trades != [] {
      TakeAllRows(rows, Front(trades));
      TakeOneRows(TakeAll(rows, Front(trades)), Last(trades));
    }
  }

  // ----- what the client does over a whole session -----

  datatype Input = Update(o: TradesDto) | Cleared

  function AfterFrom(rows: Rows, inputs: seq<Input>): Rows {
    if inputs == [] then rows
    else
      match Last(inputs)
      case Update(o) => OnUpdate(AfterFrom(rows, Front(inputs)), Truncate(o))
      case Cleared => []
  }

  function Updates(inputs: seq<Input>): seq<TradesDto> {
    if inputs == [] then []
    else Updates(Front(inputs)) + match Last(inputs) case Update(o) => [o] case Cleared => []
  }

  predicate NeverCleared(inputs: seq<Input>) {
    forall x :: x in inputs ==> x.Update?
  }

  lemma {:induction false} UpdatesConcat(a: seq<Input>, b: seq<Input>)
    ensures Updates(a + b) == Updates(a) + Updates(b)
    ensures forall rows :: AfterFrom(rows, a + b) == AfterFrom(AfterFrom(rows, a), b)
  {
    if b == [] {
      assert a + b == a;
    } else {
      assert Front(a + b) == a + Front(b) && Last(a + b) == Last(b);
      UpdatesConcat(a, Front(b));
    }
  }

  ghost predicate GoodTrades(o: TradesDto) {
    DistinctIds(o.trades)
  }

  lemma TradesPolite()
    ensures Polite(TRADE_PROJECTION, d => DistinctIds(d), o => GoodTrades(o))
  {
  }

  lemma TruncateIsGood(o: TradesDto)
    requires GoodTrades(o)
    ensures GoodTrades(Truncate(o))
  {
  }

  lemma {:induction false} AlwaysDistinct(start: Rows, inputs: seq<Input>)
    requires DistinctRows(start)
    requires forall o :: o in Updates(inputs) ==> GoodTrades(o)
    ensures DistinctRows(AfterFrom(start, inputs))
  {
    if inputs != [] {
      assert forall o :: o in Updates(Front(inputs)) ==> o in Updates(inputs);
      AlwaysDistinct(start, Front(inputs));
      match Last(inputs) {
        case Cleared =>
        case Update(o) =>
          assert o in Updates(inputs);
          TruncateIsGood(o);
          NewestFirstRows(Truncate(o).trades);
          TakeAllRows(AfterFrom(start, Front(inputs)), Truncate(o).trades);
      }
    }
  }

  /** Each row shows its trade as the dictionary has it. */
  ghost predicate Current(rows: Rows, d: Table) {
    forall r :: r in rows ==> Has(d, r.trade.id) && r.trade == RowOf(d, r.trade.id)
  }

  ghost function EventIds(events: seq<Entry>): set<int> {
    set e | e in events && MatchesTrade(e) :: TradeIdOf(e.event)
  }

  /** The delta of one event keeps the rows current. */
  lemma DeltaKeepsCurrent(rows: Rows, d: Table, e: Entry)
    requires DistinctIds(d) && UpdateTrades(d, e).Some?
    requires DistinctRows(rows) && Current(rows, d)
    ensures var d' := UpdateTrades(d, e).value;
            && TradeDelta(d', e).Some?
            && var rows' := OnUpdate(rows, Truncate(TradeDelta(d', e).value));
            && DistinctRows(rows') && Current(rows', d')
            && IdsOf(rows') == IdsOf(rows) + {TradeIdOf(e.event)}
  {
    DeltaRow(d, e);
    UpdateRows(d, e);
    var d' := UpdateTrades(d, e).value;
    var t := RowOf(d', TradeIdOf(e.event));
    assert Front([t]) == [];
    assert TakeAll(rows, [t]) == TakeOne(rows, t);
    TakeOneRows(rows, t);
  }

  lemma MatchesOnly(log: Log)
    ensures forall e :: e in Select(TRADE_PROJECTION, log) ==> MatchesTrade(e)
  {
  }

  /** After the snapshot: one delta an event, whatever clears come between. */
  lemma {:induction false} TailKeepsCurrent(rows: Rows, seen: seq<Entry>, from: nat, post: seq<Input>)
    requires from <= |seen| && Fold(TRADE_PROJECTION, seen).Some? && Fold(TRADE_PROJECTION, seen[..from]).Some?
    requires forall e :: e in seen ==> MatchesTrade(e)
    requires WithoutGone(TRADE_PROJECTION, Updates(post)) == Deltas(TRADE_PROJECTION, seen, from)
    requires DistinctRows(rows) && Current(rows, Fold(TRADE_PROJECTION, seen[..from]).value)
    ensures var rows' := AfterFrom(rows, post);
            && DistinctRows(rows') && Current(rows', Fold(TRADE_PROJECTION, seen).value)
            && (NeverCleared(post) ==> IdsOf(rows') == IdsOf(rows) + EventIds(seen[from..]))
    decreases |post|
  {
    var p := TRADE_PROJECTION;
    if post == [] {
      DeltasLength(seen, from);
      assert seen[..from] == seen;
      assert seen[from..] == [];
    } else {
      var prior := Front(post);
      assert NeverCleared(post) ==> NeverCleared(prior);
      match Last(post) {
        case Cleared =>
        case Update(o) =>
          WithoutGoneSnoc(p, Updates(prior), o);
          if o == p.gone {
            TailKeepsCurrent(rows, seen, from, prior);
          } else {
            TailUnsnoc(seen, from, WithoutGone(p, Updates(prior)), o);
            TailKeepsCurrent(rows, Front(seen), from, prior);
            TailStep(rows, seen, from, prior, o);
          }
      }
    }
  }

  /** The last delta is that of the last event. */
  lemma {:induction false} TailUnsnoc(seen: seq<Entry>, from: nat, init: seq<TradesDto>, o: TradesDto)
    requires from <= |seen| && Fold(TRADE_PROJECTION, seen).Some? && Fold(TRADE_PROJECTION, seen[..from]).Some?
    requires init + [o] == Deltas(TRADE_PROJECTION, seen, from)
    ensures from < |seen| && Front(seen)[..from] == seen[..from] && Fold(TRADE_PROJECTION, Front(seen)).Some?
    ensures init == Deltas(TRADE_PROJECTION, Front(seen), from)
    ensures TradeDelta(Fold(TRADE_PROJECTION, seen).value, Last(seen)) == Some(o)
  {
    DeltasLength(seen, from);
    LastDelta(seen, from, init, o);
  }

  lemma EventIdsSnoc(seen: seq<Entry>, from: nat)
    requires from < |seen| && MatchesTrade(Last(seen))
    ensures EventIds(seen[from..]) == EventIds(Front(seen)[from..]) + {TradeIdOf(Last(seen).event)}
  {
  }

  lemma DictionaryDistinct(seen: seq<Entry>)
    requires Fold(TRADE_PROJECTION, seen).Some?
    ensures DistinctIds(Fold(TRADE_PROJECTION, seen).value)
  {
  }

  lemma {:induction false} TailStep(rows: Rows, seen: seq<Entry>, from: nat, prior: seq<Input>, o: TradesDto)
    requires from < |seen| && Fold(TRADE_PROJECTION, seen).Some? && MatchesTrade(Last(seen))
    requires TradeDelta(Fold(TRADE_PROJECTION, seen).value, Last(seen)) == Some(o)
    requires var rows' := AfterFrom(rows, prior);
             && DistinctRows(rows') && Current(rows', Fold(TRADE_PROJECTION, Front(seen)).value)
             && (NeverCleared(prior) ==> IdsOf(rows') == IdsOf(rows) + EventIds(Front(seen)[from..]))
    ensures var rows' := OnUpdate(AfterFrom(rows, prior), Truncate(o));
            && DistinctRows(rows') && Current(rows', Fold(TRADE_PROJECTION, seen).value)
            && (NeverCleared(prior) ==> IdsOf(rows') == IdsOf(rows) + EventIds(seen[from..]))
  {
    DictionaryDistinct(Front(seen));
    var d, e := Fold(TRADE_PROJECTION, Front(seen)).value, Last(seen);
    assert Fold(TRADE_PROJECTION, seen) == UpdateTrades(d, e);
    DeltaKeepsCurrent(AfterFrom(rows, prior), d, e);
    EventIdsSnoc(seen, from);
  }

  /** No event is without a delta. */
  lemma {:induction false} DeltasLength(seen: seq<Entry>, from: nat)
    requires from <= |seen| && Fold(TRADE_PROJECTION, seen).Some?
    ensures |Deltas(TRADE_PROJECTION, seen, from)| == |seen| - from
  {
    if |seen| > from {
      DeltasLength(Front(seen), from);
      TradeDeltaIsTheRow(Fold(TRADE_PROJECTION, Front(seen)).value, Last(seen));
    }
  }

  lemma LastDelta(seen: seq<Entry>, from: nat, init: seq<TradesDto>, o: TradesDto)
    requires from < |seen| && Fold(TRADE_PROJECTION, seen).Some?
    requires init + [o] == Deltas(TRADE_PROJECTION, seen, from)
    ensures init == Deltas(TRADE_PROJECTION, Front(seen), from)
    ensures TradeDelta(Fold(TRADE_PROJECTION, seen).value, Last(seen)) == Some(o)
  {
    DeltasLength(seen, from);
    DeltasLength(Front(seen), from);
    var a, b := Deltas(TRADE_PROJECTION, Front(seen), from), DeltaOf(TRADE_PROJECTION, seen);
    assert |b| == 1;
    assert a + b == init + [o];
    assert (a + b)[..|a|] == a && (init + [o])[..|init|] == init;
    assert (a + b)[|a|] == b[0];
  }

  /** The rows right after the fresh snapshot. */
  lemma SnapshotRows(rows: Rows, d: Table)
    requires DistinctIds(d)
    ensures var rows' := OnUpdate(rows, Truncate(TradesSnapshot(d, false)));
            && DistinctRows(rows') && Current(rows', d)
            && IdsOf(rows') == (set t | t in LastFifty(d) :: t.id)
            && |rows'| == Min(|d|, MAX_SOTW_TRADES)
  {
    var cut := LastFifty(d);
    assert |d| <= MAX_SOTW_TRADES ==> cut == d;
    assert Truncate(TradesSnapshot(d, false)).trades == cut;
    assert DistinctIds(cut);
    NewestFirstRows(cut);
    var rows' := NewestFirst(cut);
    forall r | r in rows' ensures Has(d, r.trade.id) && r.trade == RowOf(d, r.trade.id) {
      CutIsCurrent(d, r.trade);
    }
    SnapshotIds(cut);
  }

  lemma CutIsCurrent(d: Table, t: Trade)
    requires DistinctIds(d) && t in LastFifty(d)
    ensures Has(d, t.id) && t == RowOf(d, t.id)
  {
    var i :| 0 <= i < |LastFifty(d)| && LastFifty(d)[i] == t;
    IndexUnique(d, |d| - |LastFifty(d)| + i);
  }

  lemma SnapshotIds(trades: Table)
    ensures IdsOf(NewestFirst(trades)) == set t | t in trades :: t.id
  {
    NewestFirstRows(trades);
    var rows := NewestFirst(trades);
    forall x | exists t :: t in trades && t.id == x ensures x in IdsOf(rows) {
      var t :| t in trades && t.id == x;
      assert Row(t, false) in rows;
    }
  }

  /** From the log to the screen, over any interleaving of engines, any run of the cache, any rows left
      from an earlier stream and any clears by the client: rows always have distinct ids; once a fresh
      snapshot came in this connection, each row shows its trade as the dictionary has it; and until
      cleared after that snapshot the list holds the newest 50 of the snapshot together with every trade
      that had an event since. */
  lemma {:induction false} BlotterShowsTheLog(ops: seq<Engines.Step>, steps: seq<CacheRuns.Step<Entry>>, i: nat, start: Rows, inputs: seq<Input>)
    requires DistinctRows(start)
    requires WithinIds(Engines.Run(ops))
    requires CacheRuns.Run(TRADE_PROJECTION, steps).log == Engines.Run(ops).log
    requires i in CacheRuns.Run(TRADE_PROJECTION, steps).cache.clients
    requires Updates(inputs) == CacheRuns.Run(TRADE_PROJECTION, steps).cache.clients[i].received
    ensures DistinctRows(AfterFrom(start, inputs))
    ensures GotFresh(TRADE_PROJECTION, CacheRuns.Run(TRADE_PROJECTION, steps).cache.clients[i]) ==>
              Current(AfterFrom(start, inputs), CacheRuns.Run(TRADE_PROJECTION, steps).cache.dict)
    ensures GotFresh(TRADE_PROJECTION, CacheRuns.Run(TRADE_PROJECTION, steps).cache.clients[i]) ==>
              HoldsRecentTrades(CacheRuns.Run(TRADE_PROJECTION, steps), i, start, inputs)
  {
    var p := TRADE_PROJECTION;
    var w := CacheRuns.Run(p, steps);
    var k := w.cache.clients[i];
    TradesPolite();
    EveryMessageIsGood(p, d => DistinctIds(d), o => GoodTrades(o), steps);
    assert ClientGood(k, o => GoodTrades(o));
    AlwaysDistinct(start, inputs);
    if GotFresh(p, k) {
      LogIsWellFormed(ops);
      TradesTotal(w.log);
      TradesLawful();
      NoGapNoDuplicate(p, steps);
      MatchesOnly(w.log[..w.delivered]);
      var at: nat, from: nat :| ExactStream(p, w, k, at, from);
      var pre, post := SplitAtUpdate(inputs, at);
      FreshTail(w, k, at, from, start, inputs, pre, post);
    }
  }

  /** The decomposition of the session around the fresh snapshot. */
  ghost predicate HoldsRecentTrades(w: World<Entry, Table, TradesDto>, i: nat, start: Rows, inputs: seq<Input>)
    requires i in w.cache.clients
  {
    exists at: nat, from: nat, pre: seq<Input>, post: seq<Input> ::
      RecentTrades(w, w.cache.clients[i], start, inputs, at, from, pre, post)
  }

  ghost predicate RecentTrades(w: World<Entry, Table, TradesDto>, k: Client<TradesDto>, start: Rows, inputs: seq<Input>,
                               at: nat, from: nat, pre: seq<Input>, post: seq<Input>)
  {
    && ExactStream(TRADE_PROJECTION, w, k, at, from)
    && inputs == pre + [Update(k.received[at])] + post
    && |Updates(pre)| == at
    && (forall e :: e in w.cache.seen ==> MatchesTrade(e))
    && (NeverCleared(post) ==>
          IdsOf(AfterFrom(start, inputs)) ==
          (set t | t in LastFifty(Fold(TRADE_PROJECTION, w.cache.seen[..from]).value) :: t.id)
          + EventIds(w.cache.seen[from..]))
  }

  lemma UpdatesSnoc(inputs: seq<Input>, x: Input)
    ensures Updates(inputs + [x]) == Updates(inputs) + match x case Update(o) => [o] case Cleared => []
  {
    assert Front(inputs + [x]) == inputs;
  }

  lemma {:induction false} SplitAtUpdate(inputs: seq<Input>, at: nat) returns (pre: seq<Input>, post: seq<Input>)
    requires at < |Updates(inputs)|
    ensures inputs == pre + [Update(Updates(inputs)[at])] + post
    ensures |Updates(pre)| == at
    ensures Updates(inputs) == Updates(pre) + [Updates(inputs)[at]] + Updates(post)
  {
    if at < |Updates(Front(inputs))| {
      ghost var rest;
      pre, rest := SplitAtUpdate(Front(inputs), at);
      post := rest + [Last(inputs)];
      var upTo := pre + [Update(Updates(inputs)[at])];
      assert upTo + post == (upTo + rest) + [Last(inputs)] == inputs;
      UpdatesSnoc(rest, Last(inputs));
    } else {
      pre, post := Front(inputs), [];
      assert Last(inputs) == Update(Updates(inputs)[at]);
    }
  }

  lemma FreshTail(w: World<Entry, Table, TradesDto>, k: Client<TradesDto>, at: nat, from: nat,
                  start: Rows, inputs: seq<Input>, pre: seq<Input>, post: seq<Input>)
    requires ExactStream(TRADE_PROJECTION, w, k, at, from)
    requires Fold(TRADE_PROJECTION, w.cache.seen) == Some(w.cache.dict)
    requires forall e :: e in w.cache.seen ==> MatchesTrade(e)
    requires Updates(inputs) == k.received
    requires inputs == pre + [Update(k.received[at])] + post && |Updates(pre)| == at
    requires k.received == Updates(pre) + [k.received[at]] + Updates(post)
    ensures Current(AfterFrom(start, inputs), w.cache.dict)
    ensures RecentTrades(w, k, start, inputs, at, from, pre, post)
  {
    var p := TRADE_PROJECTION;
    var d := Fold(p, w.cache.seen[..from]).value;
    DictionaryDistinct(w.cache.seen[..from]);
    var upTo := pre + [Update(k.received[at])];
    assert Front(upTo) == pre;
    SnapshotRows(AfterFrom(start, pre), d);
    UpdatesConcat(upTo, post);
    assert AfterFrom(start, inputs) == AfterFrom(AfterFrom(start, upTo), post);
    assert k.received[at + 1..] == Updates(post);
    TailKeepsCurrent(AfterFrom(start, upTo), w.cache.seen, from, post);
  }
}
