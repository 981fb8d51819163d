/** The trades the analytics host takes out of the cache's messages, and the totals they lead to. */
module AnalyticsFeed {
  import opened Prelude
  import opened EventLog
  import opened Aggregates
  import opened Engines
  import opened EventCache
  import opened CacheTheory
  import opened CacheRuns
  import opened TradeCache
  import opened Analytics

  // ----- the feed: flatten the messages, keep what is done -----

  function DoneOf(trades: seq<Trade>): seq<Trade> {
    if trades == [] then []
    else DoneOf(Front(trades)) + if Last(trades).status == Done then [Last(trades)] else []
  }

  function Feed(messages: seq<TradesDto>): seq<Trade> {
    if messages == [] then [] else Feed(Front(messages)) + DoneOf(Last(messages).trades)
  }

  lemma {:induction false} FeedConcat(a: seq<TradesDto>, b: seq<TradesDto>)
    ensures Feed(a + b) == Feed(a) + Feed(b)
  {
    if b == [] {
      assert a + b == a;
    } else {
      assert Front(a + b) == a + Front(b) && Last(a + b) == Last(b);
      FeedConcat(a, Front(b));
    }
  }

  lemma {:induction false} DoneConcat(a: seq<Trade>, b: seq<Trade>)
    ensures DoneOf(a + b) == DoneOf(a) + DoneOf(b)
  {
    if b == [] {
      assert a + b == a;
    } else {
      assert Front(a + b) == a + Front(b) && Last(a + b) == Last(b);
      DoneConcat(a, Front(b));
    }
  }

  lemma {:induction false} GoneFeedsNothing(messages: seq<TradesDto>)
    ensures Feed(WithoutGone(TRADE_PROJECTION, messages)) == Feed(messages)
  {
    if messages != [] {
      GoneFeedsNothing(Front(messages));
      var kept := WithoutGone(TRADE_PROJECTION, Front(messages));
      if Last(messages) != TRADE_PROJECTION.gone {
        assert Front(kept + [Last(messages)]) == kept;
      } else {
        assert kept + [] == kept;
      }
    }
  }

  // ----- what completing a trade does to the dictionary -----

  lemma DoneReplace(d: Table, i: nat, t: Trade)
    requires i < |d|
    ensures multiset(DoneOf(d[i := t])) + multiset(DoneOf([d[i]])) == multiset(DoneOf(d)) + multiset(DoneOf([t]))
  {
    var l, r := d[..i], d[i + 1..];
    assert d == l + ([d[i]] + r) && d[i := t] == l + ([t] + r);
    DoneConcat(l, [d[i]] + r);
    DoneConcat([d[i]], r);
    DoneConcat(l, [t] + r);
    DoneConcat([t], r);
  }

  /** A trade that was pending enters the completed ones exactly when its completion arrives, and its
      delta carries just that. */
  lemma DoneStep(d: Table, e: Entry)
    requires DistinctIds(d) && UpdateTrades(d, e).Some?
    requires Has(d, TradeIdOf(e.event)) ==> RowOf(d, TradeIdOf(e.event)).status == Pending
    ensures var d' := UpdateTrades(d, e).value;
            && TradeDelta(d', e).Some?
            && multiset(DoneOf(d')) == multiset(DoneOf(d)) + multiset(DoneOf(TradeDelta(d', e).value.trades))
            && DoneOf(TradeDelta(d', e).value.trades) == DoneRow(d', e)
  {
    UpdateRows(d, e);
    DeltaRow(d, e);
    var d' := UpdateTrades(d, e).value;
    var id := TradeIdOf(e.event);
    var row := RowOf(d', id);
    assert Front([row]) == [];
    if e.event.TradeCreated? {
      DoneConcat(d, [row]);
      assert d' == d + [Trade(id, e.event.terms, Pending)];
      assert DoneOf([Trade(id, e.event.terms, Pending)]) == [];
      assert DoneOf(d') == DoneOf(d);
    } else {
      var i := IndexOf(d, id);
      var t := d[i].(status := StatusAfter(e.event));
      assert t == row;
      DoneReplace(d, i, t);
      assert DoneOf([d[i]]) == [];
    }
  }

  /** The row a completion leaves. */
  function DoneRow(d: Table, e: Entry): seq<Trade> {
    if e.event.TradeCompleted? && Has(d, e.event.id) then [RowOf(d, e.event.id)] else []
  }

  /** Whatever a settlement finds is still pending. */
  lemma PendingInMirror(d: Table, log: Log, e: Entry)
    requires WellFormed(log + [e]) && Mirrors(d, log) && MatchesTrade(e)
    ensures UpdateTrades(d, e).Some?
    ensures Has(d, TradeIdOf(e.event)) ==> RowOf(d, TradeIdOf(e.event)).status == Pending
    ensures CompletedBy(log, e) ==
            DoneRow(UpdateTrades(d, e).value, e)
  {
    PriorEvents(log, e);
    var id := TradeIdOf(e.event);
    assert Has(d, id) <==> EventsOf(log, TradeStream(id)) != [];
    UpdateRows(d, e);
  }

  lemma {:induction false} StateStep(log: Log, e: Entry)
    requires WellFormed(log + [e])
    ensures TableOf(log).Some? && TableOf(log + [e]).Some? && IsMirrored(log)
    ensures MatchesTrade(e) ==>
              && Select(TRADE_PROJECTION, log + [e]) == Select(TRADE_PROJECTION, log) + [e]
              && UpdateTrades(TableOf(log).value, e) == TableOf(log + [e])
    ensures !MatchesTrade(e) ==> Select(TRADE_PROJECTION, log + [e]) == Select(TRADE_PROJECTION, log)
  {
    WellFormedFront(log, e);
    TradesOf(log);
    TradesOf(log + [e]);
    assert Front(log + [e]) == log;
    var events := Select(TRADE_PROJECTION, log);
    if MatchesTrade(e) {
      FoldSnoc(TRADE_PROJECTION, events, e);
    } else {
      assert events + [] == events;
    }
  }

  // ----- each completion once -----

  /** The completed trades of the log itself, in order of completion. */
  function CompletedTrades(log: Log): seq<Trade> {
    if log == [] then []
    else CompletedTrades(Front(log)) + CompletedBy(Front(log), Last(log))
  }

  function CompletedBy(before: Log, e: Entry): seq<Trade> {
    if !e.event.TradeCompleted? then []
    else
      var events := EventsOf(before, TradeStream(e.event.id));
      if events != [] && events[0].TradeCreated? then [Trade(e.event.id, events[0].terms, Done)] else []
  }

  /** What one more entry does to the completed rows. */
  lemma CompletedStep(log: Log, e: Entry)
    requires WellFormed(log + [e]) && MatchesTrade(e)
    ensures TableOf(log).Some? && TableOf(log + [e]).Some?
    ensures var d, d' := TableOf(log).value, TableOf(log + [e]).value;
            && UpdateTrades(d, e) == Some(d')
            && TradeDelta(d', e).Some?
            && DoneOf(TradeDelta(d', e).value.trades) == CompletedBy(log, e)
            && multiset(DoneOf(d')) == multiset(DoneOf(d)) + multiset(CompletedBy(log, e))
  {
    StateStep(log, e);
    assert Mirrors(TableOf(log).value, log);
    PendingInMirror(TableOf(log).value, log, e);
    DoneStep(TableOf(log).value, e);
  }

  /** The completed rows of the dictionary are the completed trades of the log. */
  lemma {:induction false} DictionaryHasTheCompleted(log: Log)
    requires WellFormed(log)
    ensures TableOf(log).Some?
    ensures multiset(DoneOf(TableOf(log).value)) == multiset(CompletedTrades(log))
  {
    if log != [] {
      var prior, e := Front(log), Last(log);
      assert log == prior + [e];
      WellFormedFront(prior, e);
      DictionaryHasTheCompleted(prior);
      StateStep(prior, e);
      if MatchesTrade(e) {
        CompletedStep(prior, e);
      }
    }
  }

  /** What the snapshot showed as completed and what the deltas fed make up the completed rows. */
  ghost predicate FedSoFar(seen: seq<Entry>, from: nat) {
    && from <= |seen|
    && Fold(TRADE_PROJECTION, seen).Some? && Fold(TRADE_PROJECTION, seen[..from]).Some?
    && multiset(DoneOf(Fold(TRADE_PROJECTION, seen[..from]).value)) + multiset(Feed(Deltas(TRADE_PROJECTION, seen, from)))
       == multiset(DoneOf(Fold(TRADE_PROJECTION, seen).value))
  }

  lemma FedOneMore(seen: seq<Entry>, from: nat, e: Entry, d': Table)
    requires FedSoFar(seen, from) && UpdateTrades(Fold(TRADE_PROJECTION, seen).value, e) == Some(d')
    requires TradeDelta(d', e).Some?
    requires multiset(DoneOf(d')) == multiset(DoneOf(Fold(TRADE_PROJECTION, seen).value)) + multiset(DoneOf(TradeDelta(d', e).value.trades))
    ensures FedSoFar(seen + [e], from)
  {
    var seen' := seen + [e];
    FoldSnoc(TRADE_PROJECTION, seen, e);
    assert Front(seen') == seen && seen'[..from] == seen[..from];
    FeedConcat(Deltas(TRADE_PROJECTION, seen, from), DeltaOf(TRADE_PROJECTION, seen'));
    DeltaFeed(seen');
  }

  lemma FedAtHandOver(seen: seq<Entry>)
    requires Fold(TRADE_PROJECTION, seen).Some?
    ensures FedSoFar(seen, |seen|)
  {
    assert seen[..|seen|] == seen;
  }

  /** Deltas feed exactly the completions after the hand-over. */
  lemma {:induction false} DeltasFeedTheRest(log: Log, from: nat)
    requires WellFormed(log) && from <= |Select(TRADE_PROJECTION, log)|
    ensures FedSoFar(Select(TRADE_PROJECTION, log), from)
  {
    if from == |Select(TRADE_PROJECTION, log)| {
      TradesOf(log);
      FedAtHandOver(Select(TRADE_PROJECTION, log));
    } else {
      var prior, e := Front(log), Last(log);
      assert log == prior + [e];
      WellFormedFront(prior, e);
      StateStep(prior, e);
      DeltasFeedTheRest(prior, from);
      if MatchesTrade(e) {
        CompletedStep(prior, e);
        FedOneMore(Select(TRADE_PROJECTION, prior), from, e, TableOf(log).value);
      }
    }
  }

  lemma DeltaFeed(seen: seq<Entry>)
    requires seen != [] && Fold(TRADE_PROJECTION, seen).Some?
    requires TradeDelta(Fold(TRADE_PROJECTION, seen).value, Last(seen)).Some?
    ensures Feed(DeltaOf(TRADE_PROJECTION, seen)) == DoneOf(TradeDelta(Fold(TRADE_PROJECTION, seen).value, Last(seen)).value.trades)
  {
  }

  // ----- runs with one connect and no disconnect after it -----

  predicate Quiet(steps: seq<CacheRuns.Step<Entry>>) {
    steps == [] || (Quiet(Front(steps)) && (Connected(Front(steps)) ==> !Last(steps).Connect? && !Last(steps).Disconnect?))
  }

  predicate Connected(steps: seq<CacheRuns.Step<Entry>>) {
    steps != [] && (Connected(Front(steps)) || Last(steps).Connect?)
  }

  /** Says nothing about any trade. */
  predicate Silent(o: TradesDto) {
    o.trades == []
  }

  /** Before its fresh snapshot a client was told of no trade. */
  ghost predicate QuietClient(k: Client<TradesDto>) {
    if k.phase.Live? then k.phase.at < |k.received| && forall j :: 0 <= j < k.phase.at ==> Silent(k.received[j])
    else forall j :: 0 <= j < |k.received| ==> Silent(k.received[j])
  }

  ghost predicate QuietIn(c: Cache<Entry, Table, TradesDto>, k: Client<TradesDto>) {
    && QuietClient(k)
    && (k.phase.Snapshot? ==> c.stale)
    && (k.phase.Live? ==> c.caughtUp)
  }

  ghost predicate QuietCache(c: Cache<Entry, Table, TradesDto>) {
    && (c.published <==> c.caughtUp) && (c.stale <==> !c.caughtUp)
    && (forall i :: i in c.clients ==> QuietIn(c, c.clients[i]))
  }

  /** The push at caught-up: each follower gets its first telling message here. */
  lemma QuietCaughtUp(c: Cache<Entry, Table, TradesDto>)
    requires QuietCache(c)
    ensures QuietCache(OnCaughtUp(TRADE_PROJECTION, c))
  {
  }

  lemma QuietEvent(c: Cache<Entry, Table, TradesDto>, e: Entry)
    requires QuietCache(c) && UpdateTrades(c.dict, e).Some?
    ensures QuietCache(OnEvent(TRADE_PROJECTION, c, e))
  {
    TradeDeltaIsTheRow(c.dict, e);
    var c' := OnEvent(TRADE_PROJECTION, c, e);
    forall i | i in c'.clients ensures QuietIn(c', c'.clients[i]) {
      assert QuietIn(c, c.clients[i]);
      QuietDelta(c, e, i);
    }
  }

  /** What one client gets out of an event: at most the delta, and only when it is live. */
  lemma QuietDelta(c: Cache<Entry, Table, TradesDto>, e: Entry, i: nat)
    requires QuietCache(c) && UpdateTrades(c.dict, e).Some? && TradeDelta(UpdateTrades(c.dict, e).value, e).Some?
    requires i in c.clients
    ensures i in OnEvent(TRADE_PROJECTION, c, e).clients
    ensures OnEvent(TRADE_PROJECTION, c, e).clients[i] ==
            if Follows(c.clients[i], c.gen) then Send(TRADE_PROJECTION, c.clients[i], TradeDelta(UpdateTrades(c.dict, e).value, e).value)
            else c.clients[i]
  {
  }

  lemma QuietStart(c: Cache<Entry, Table, TradesDto>, i: nat)
    requires QuietCache(c) && CacheOk(TRADE_PROJECTION, c) && (c.stale ==> !c.published)
    ensures QuietCache(OnStart(TRADE_PROJECTION, c, i))
  {
  }

  /** Connects and disconnects while nothing was ever caught up. */
  lemma QuietEdge(c: Cache<Entry, Table, TradesDto>)
    requires QuietCache(c) && !c.caughtUp
    ensures QuietCache(OnConnect(TRADE_PROJECTION, c)) && QuietCache(OnDisconnect(TRADE_PROJECTION, c))
  {
  }

  lemma QuietCallback(w: World<Entry, Table, TradesDto>, a: CacheRuns.Step<Entry>)
    requires QuietCache(w.cache) && CacheOk(TRADE_PROJECTION, w.cache) && !w.cache.failed
    requires !Callback(TRADE_PROJECTION, w, a).cache.failed
    requires a.Connect? || a.Disconnect? ==> !w.cache.caughtUp
    ensures QuietCache(Callback(TRADE_PROJECTION, w, a).cache)
  {
    var c := w.cache;
    match a {
      case Append(_) =>
      case Connect => QuietEdge(c);
      case Disconnect => QuietEdge(c);
      case Deliver =>
        if c.gen > 0 && w.delivered < |w.log| && MatchesTrade(w.log[w.delivered]) {
          QuietEvent(c, w.log[w.delivered]);
        }
      case CaughtUp(gen) => QuietCaughtUp(c);
      case Join(i) =>
        forall j | j in c.clients ensures QuietIn(OnJoin(c, i), c.clients[j]) {
          assert QuietIn(c, c.clients[j]);
        }
      case Start(i) => QuietStart(c, i);
      case Leave(i) =>
        forall j | j in c.clients ensures QuietIn(OnLeave(c, i), c.clients[j]) {
          assert QuietIn(c, c.clients[j]);
        }
    }
  }

  lemma {:induction false} QuietInEveryRun(steps: seq<CacheRuns.Step<Entry>>)
    requires Quiet(steps) && !CacheRuns.Run(TRADE_PROJECTION, steps).cache.failed
    ensures QuietCache(CacheRuns.Run(TRADE_PROJECTION, steps).cache)
    ensures CacheRuns.Run(TRADE_PROJECTION, steps).cache.gen > 0 ==> Connected(steps)
  {
    if steps != [] {
      var w := CacheRuns.Run(TRADE_PROJECTION, Front(steps));
      QuietInEveryRun(Front(steps));
      TradesLawful();
      EveryRunIsOk(TRADE_PROJECTION, Front(steps));
      if !Last(steps).Append? {
        QuietCallback(w, Last(steps));
        GenOnlyByConnect(w, Last(steps));
      }
    }
  }

  lemma GenOnlyByConnect(w: World<Entry, Table, TradesDto>, a: CacheRuns.Step<Entry>)
    ensures Callback(TRADE_PROJECTION, w, a).cache.gen == w.cache.gen || a.Connect?
  {
  }

  // ----- every completion once -----

  lemma {:induction false} SilentFeedsNothing(messages: seq<TradesDto>)
    requires forall j :: 0 <= j < |messages| ==> Silent(messages[j])
    ensures Feed(messages) == []
  {
    if messages != [] {
      SilentFeedsNothing(Front(messages));
      assert Last(messages).trades == [];
    }
  }

  /** With no disconnect after the first connect, a client that got its fresh snapshot was fed every
      completed trade of the delivered log exactly once, however snapshot and deltas split them; a client
      that is still waiting was fed none. */
  lemma {:induction false} EachCompletionOnce(steps: seq<CacheRuns.Step<Entry>>, i: nat)
    requires WellFormed(CacheRuns.Run(TRADE_PROJECTION, steps).log) && Quiet(steps)
    requires i in CacheRuns.Run(TRADE_PROJECTION, steps).cache.clients
    ensures var w := CacheRuns.Run(TRADE_PROJECTION, steps);
            && w.delivered <= |w.log|
            && multiset(Feed(w.cache.clients[i].received)) ==
               if GotFresh(TRADE_PROJECTION, w.cache.clients[i]) then multiset(CompletedTrades(w.log[..w.delivered])) else multiset{}
  {
    var p, w := TRADE_PROJECTION, CacheRuns.Run(TRADE_PROJECTION, steps);
    TradesLawful();
    TradesTotal(w.log);
    NoGapNoDuplicate(p, steps);
    EveryRunIsOk(p, steps);
    QuietInEveryRun(steps);
    var k := w.cache.clients[i];
    assert QuietIn(w.cache, k) && ClientOk(p, w.cache, k);
    FreshMeansLive(p, w.cache, i);
    if k.phase.Live? {
      SplitFeed(w, k, k.phase.at, k.phase.from);
    } else {
      SilentFeedsNothing(k.received);
    }
  }

  lemma SplitMessages(received: seq<TradesDto>, at: nat)
    requires at < |received| && forall j :: 0 <= j < at ==> Silent(received[j])
    ensures Feed(received) == DoneOf(received[at].trades) + Feed(received[at + 1..])
  {
    var rest := received[at..];
    assert received == received[..at] + rest;
    FeedConcat(received[..at], rest);
    SilentFeedsNothing(received[..at]);
    FeedFirst(rest);
    assert rest[1..] == received[at + 1..];
  }

  lemma FeedFirst(messages: seq<TradesDto>)
    requires messages != []
    ensures Feed(messages) == DoneOf(messages[0].trades) + Feed(messages[1..])
  {
    var one := messages[..1];
    assert messages == one + messages[1..];
    FeedConcat(one, messages[1..]);
    assert Front(one) == [];
  }

  /** The messages before the snapshot, the snapshot, the messages after it. */
  lemma SplitFeed(w: World<Entry, Table, TradesDto>, k: Client<TradesDto>, at: nat, from: nat)
    requires WellFormed(w.log) && w.delivered <= |w.log| && w.cache.seen == Select(TRADE_PROJECTION, w.log[..w.delivered])
    requires at < |k.received| && forall j :: 0 <= j < at ==> Silent(k.received[j])
    requires ExactStream(TRADE_PROJECTION, w, k, at, from)
    ensures multiset(Feed(k.received)) == multiset(CompletedTrades(w.log[..w.delivered]))
  {
    SplitMessages(k.received, at);
    GoneFeedsNothing(k.received[at + 1..]);
    var log := w.log[..w.delivered];
    WellFormedPrefix(w.log, w.delivered);
    DeltasFeedTheRest(log, from);
    DictionaryHasTheCompleted(log);
  }

  // ----- analytics agrees with the log -----

  /** From the engines to the positions. Over any interleaving of execution engines, any quiet run of the
      cache on the log they wrote, and any mix of prices and ticks between the trades fed from it that makes no
      handler throw: once its feed got its fresh snapshot, each tracker holds what its pair's
      completed trades in the delivered log bought less what they sold, in both currencies, and their number. */
  lemma TotalsAgreeWithTheLog(ops: seq<Engines.Step>, steps: seq<CacheRuns.Step<Entry>>, i: nat, inputs: seq<Input>, pair: string)
    requires WithinIds(Engines.Run(ops))
    requires var w := CacheRuns.Run(TRADE_PROJECTION, steps);
             && w.log == Engines.Run(ops).log
             && Quiet(steps) && i in w.cache.clients
             && GotFresh(TRADE_PROJECTION, w.cache.clients[i])
             && TradesIn(inputs) == Feed(w.cache.clients[i].received)
    requires !EverThrows(inputs)
    ensures var w := CacheRuns.Run(TRADE_PROJECTION, steps);
            && w.delivered <= |w.log|
            && AreTheSums(TotalsFor(RunEngine(inputs).trackers, pair), CompletedTrades(w.log[..w.delivered]), pair)
  {
    var w := CacheRuns.Run(TRADE_PROJECTION, steps);
    LogIsWellFormed(ops);
    EachCompletionOnce(steps, i);
    FailsExactly(inputs);
    EngineTotals(inputs, pair);
    TotalsOrderFree(Feed(w.cache.clients[i].received), CompletedTrades(w.log[..w.delivered]), pair);
    TotalsAreTheSums(CompletedTrades(w.log[..w.delivered]), pair);
  }
}
