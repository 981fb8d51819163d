/** The browser's own cache of currency pairs. It applies every update it is sent and never starts over,
    so after a reconnect it can keep pairs that are no longer enabled. */
module ReferenceClient {
  import opened Prelude
  import opened EventLog
  import opened Engines
  import opened EventCache
  import opened CacheTheory
  import opened CacheRuns
  import opened PairCache

  class ReferenceDataService {
    var currencyPairCache: View
    var hasLoaded: bool

    constructor ()
      ensures currencyPairCache == map[] && !hasLoaded
    {
      currencyPairCache, hasLoaded := map[], false;
    }

    method UpdateCache(update: PairsDto)
      modifies this
      ensures currencyPairCache == Merge(old(currencyPairCache), update)
      ensures hasLoaded <==> old(hasLoaded) || update.updates != []
    {
      var us := update.updates;
      assert us[..0] == [];
      for i := 0 to |us|
        invariant currencyPairCache == ApplyUpdates(old(currencyPairCache), us[..i])
        invariant hasLoaded == old(hasLoaded)
      {
        assert us[..i + 1] == us[..i] + [us[i]];
        ApplySnoc(old(currencyPairCache), us[..i], us[i]);
        if us[i].Added? {
          currencyPairCache := currencyPairCache[us[i].pair.symbol := us[i].pair];
        } else {
          currencyPairCache := currencyPairCache - {us[i].pair.symbol};
        }
      }
      assert us[..|us|] == us;
      if !hasLoaded && |us| > 0 {
        hasLoaded := true;
      }
    }
  }

  function Merge(v: View, o: PairsDto): View {
    ApplyUpdates(v, o.updates)
  }

  function Held(v: View, messages: seq<PairsDto>): View {
    if messages == [] then v else Merge(Held(v, Front(messages)), Last(messages))
  }

  function SymbolsOf(us: seq<Update>): set<string> {
    set u | u in us :: u.pair.symbol
  }

  function Mentioned(messages: seq<PairsDto>): set<string> {
    set o, u | o in messages && u in o.updates :: u.pair.symbol
  }

  // ----- what earlier pairs leave behind -----

  lemma {:induction false} ApplySplit(v: View, w: View, us: seq<Update>)
    ensures ApplyUpdates(v + w, us) == (v - SymbolsOf(us)) + ApplyUpdates(w, us)
  {
    if us != [] {
      var u := Last(us);
      ApplySplit(v, w, Front(us));
      assert us == Front(us) + [u];
      assert SymbolsOf(us) == SymbolsOf(Front(us)) + {u.pair.symbol};
    }
  }

  lemma MentionedSnoc(messages: seq<PairsDto>, o: PairsDto)
    ensures Mentioned(messages + [o]) == Mentioned(messages) + SymbolsOf(o.updates)
  {
  }

  lemma {:induction false} HeldSplit(v: View, messages: seq<PairsDto>)
    ensures Held(v, messages) == (v - Mentioned(messages)) + Held(map[], messages)
  {
    if messages == [] {
      assert v - {} == v;
    } else {
      var o := Last(messages);
      HeldSplit(v, Front(messages));
      ApplySplit(v - Mentioned(Front(messages)), Held(map[], Front(messages)), o.updates);
      assert messages == Front(messages) + [o];
      MentionedSnoc(Front(messages), o);
    }
  }

  lemma {:induction false} HeldKeys(messages: seq<PairsDto>)
    ensures Held(map[], messages).Keys <= Mentioned(messages)
  {
    if messages != [] {
      HeldKeys(Front(messages));
      var v := Held(map[], Front(messages));
      ApplySplit(v, map[], Last(messages).updates);
      assert v + map[] == v;
      ApplyKeys(Last(messages).updates);
      assert messages == Front(messages) + [Last(messages)];
      MentionedSnoc(Front(messages), Last(messages));
    }
  }

  lemma {:induction false} ApplyKeys(us: seq<Update>)
    ensures ApplyUpdates(map[], us).Keys <= SymbolsOf(us)
  {
    if us != [] {
      ApplyKeys(Front(us));
      assert us == Front(us) + [Last(us)];
    }
  }

  lemma {:induction false} HeldConcat(v: View, a: seq<PairsDto>, b: seq<PairsDto>)
    ensures Held(v, a + b) == Held(Held(v, a), b)
  {
    if b == [] {
      assert a + b == a;
    } else {
      assert Front(a + b) == a + Front(b) && Last(a + b) == Last(b);
      HeldConcat(v, a, Front(b));
    }
  }

  // ----- after the fresh snapshot no message is a state of the world -----

  lemma {:induction false} DeltasAreSingle(events: seq<Entry>, from: nat)
    ensures forall o :: o in Deltas(PAIR_PROJECTION, events, from) ==> !o.isStateOfTheWorld
    decreases |events|
  {
    if |events| > from {
      DeltasAreSingle(Front(events), from);
    }
  }

  lemma {:induction false} OthersStay(messages: seq<PairsDto>)
    ensures forall o :: o in messages ==> o == PAIR_PROJECTION.gone || o in WithoutGone(PAIR_PROJECTION, messages)
  {
    if messages != [] {
      OthersStay(Front(messages));
      assert messages == Front(messages) + [Last(messages)];
    }
  }

  /** With no state of the world among the messages, starting over and going on are the same. */
  lemma {:induction false} SameWithoutSnapshots(v: View, messages: seq<PairsDto>)
    requires forall o :: o in messages ==> !o.isStateOfTheWorld
    ensures Held(v, messages) == ReadFrom(PAIR_READING, v, messages)
  {
    if messages != [] {
      SameWithoutSnapshots(v, Front(messages));
    }
  }

  lemma LiveTail(w: World<Entry, Table, PairsDto>, k: Client<PairsDto>, at: nat, from: nat)
    requires ExactStream(PAIR_PROJECTION, w, k, at, from)
    ensures k.received[at].isStateOfTheWorld && !k.received[at].isStale
    ensures forall j :: at < j < |k.received| ==> !k.received[j].isStateOfTheWorld
  {
    var tail := k.received[at + 1..];
    OthersStay(tail);
    DeltasAreSingle(w.cache.seen, from);
    forall j | at < j < |k.received| ensures !k.received[j].isStateOfTheWorld {
      assert k.received[j] == tail[j - at - 1];
      assert k.received[j] in tail;
    }
  }

  /** From the snapshot on, what the client would hold had it started empty is what a client that starts
      over holds. */
  lemma {:induction false} HeldFromTheSnapshot(received: seq<PairsDto>, at: nat)
    requires at < |received| && received[at].isStateOfTheWorld
    requires forall j :: at < j < |received| ==> !received[j].isStateOfTheWorld
    ensures Held(map[], received[at..]) == ReadFrom(PAIR_READING, map[], received)
  {
    var rest := received[at..];
    assert received == received[..at] + rest;
    ReadConcat(PAIR_READING, map[], received[..at], rest);
    SnapshotStartsOver(ReadFrom(PAIR_READING, map[], received[..at]), rest);
  }

  lemma SnapshotStartsOver(v: View, messages: seq<PairsDto>)
    requires messages != [] && messages[0].isStateOfTheWorld
    requires forall j :: 0 < j < |messages| ==> !messages[j].isStateOfTheWorld
    ensures Held(map[], messages) == ReadFrom(PAIR_READING, v, messages)
  {
    var one, tail := messages[..1], messages[1..];
    assert messages == one + tail;
    assert Front(one) == [];
    HeldConcat(map[], one, tail);
    ReadConcat(PAIR_READING, v, one, tail);
    SameWithoutSnapshots(Merge(map[], messages[0]), tail);
  }

  // ----- exactly when the browser is right -----

  /** What the browser holds, after a snapshot that was not stale: the enabled pairs, and whatever it held
      before and was not told about since. */
  lemma WhatIsHeld(ops: seq<Engines.Step>, steps: seq<CacheRuns.Step<Entry>>, i: nat, at: nat)
    requires WithinIds(Engines.Run(ops))
    requires CacheRuns.Run(PAIR_PROJECTION, steps).log == Engines.Run(ops).log
    requires var w := CacheRuns.Run(PAIR_PROJECTION, steps);
             && i in w.cache.clients
             && w.cache.clients[i].since <= at < |w.cache.clients[i].received|
             && IsFresh(PAIR_PROJECTION, w.cache.clients[i].received[at])
    ensures var w := CacheRuns.Run(PAIR_PROJECTION, steps);
            var received, enabled := w.cache.clients[i].received, EnabledView(w.cache.dict);
            var before, told := Held(map[], received[..at]), Mentioned(received[at..]);
            && Held(map[], received) == (before - told) + enabled
            && (Held(map[], received) == enabled <==> before.Keys <= told)
  {
    var w := CacheRuns.Run(PAIR_PROJECTION, steps);
    var k := w.cache.clients[i];
    ClientsSeeTheEnabled(ops, steps);
    LogIsWellFormed(ops);
    PairsTotal(w.log);
    PairsLawful();
    NoGapNoDuplicate(PAIR_PROJECTION, steps);
    EveryRunIsOk(PAIR_PROJECTION, steps);
    assert GotFresh(PAIR_PROJECTION, k);
    var n: nat, from: nat :| ExactStream(PAIR_PROJECTION, w, k, n, from);
    OneSnapshot(w, k, n, from, at);
    HeldAfter(k.received, at, EnabledView(w.cache.dict));
  }

  /** The last state of the world, where starting over would give the enabled pairs. */
  lemma {:induction false} HeldAfter(received: seq<PairsDto>, at: nat, enabled: View)
    requires at < |received| && received[at].isStateOfTheWorld
    requires forall j :: at < j < |received| ==> !received[j].isStateOfTheWorld
    requires ReadFrom(PAIR_READING, map[], received) == enabled
    ensures var before, told := Held(map[], received[..at]), Mentioned(received[at..]);
            && Held(map[], received) == (before - told) + enabled
            && (Held(map[], received) == enabled <==> before.Keys <= told)
  {
    HeldFromTheSnapshot(received, at);
    var before, rest := Held(map[], received[..at]), received[at..];
    assert received == received[..at] + rest;
    HeldConcat(map[], received[..at], rest);
    HeldSplit(before, rest);
    HeldKeys(rest);
    ExactlyWhenTold(before, Mentioned(rest), enabled);
  }

  /** In one generation a client gets one fresh snapshot. */
  lemma OneSnapshot(w: World<Entry, Table, PairsDto>, k: Client<PairsDto>, n: nat, from: nat, at: nat)
    requires ExactStream(PAIR_PROJECTION, w, k, n, from) && CacheOk(PAIR_PROJECTION, w.cache)
    requires exists i :: i in w.cache.clients && w.cache.clients[i] == k
    requires k.since <= at < |k.received| && IsFresh(PAIR_PROJECTION, k.received[at])
    ensures at == n && k.received[at].isStateOfTheWorld
    ensures forall j :: at < j < |k.received| ==> !k.received[j].isStateOfTheWorld
  {
    var i :| i in w.cache.clients && w.cache.clients[i] == k;
    assert GotFresh(PAIR_PROJECTION, k);
    FreshMeansLive(PAIR_PROJECTION, w.cache, i);
    assert ClientOk(PAIR_PROJECTION, w.cache, k);
    LiveTail(w, k, n, from);
    OnlyOneFresh(w, k, n, at);
  }

  lemma OnlyOneFresh(w: World<Entry, Table, PairsDto>, k: Client<PairsDto>, n: nat, at: nat)
    requires ClientOk(PAIR_PROJECTION, w.cache, k) && k.phase.Live?
    requires k.since <= n < |k.received| && k.received[n].isStateOfTheWorld && !k.received[n].isStale && IsFresh(PAIR_PROJECTION, k.received[n])
    requires forall j :: n < j < |k.received| ==> !k.received[j].isStateOfTheWorld
    requires k.since <= at < |k.received| && IsFresh(PAIR_PROJECTION, k.received[at])
    ensures at == n
  {
    LiveTail(w, k, k.phase.at, k.phase.from);
  }

  lemma ExactlyWhenTold(before: View, told: set<string>, enabled: View)
    requires enabled.Keys <= told
    ensures (before - told) + enabled == enabled <==> before.Keys <= told
  {
  }

  // ----- the same, on the log -----

  /** The pairs switched on or off by these events. */
  function Switched(events: seq<Entry>): set<string> {
    set e | e in events && (e.event.PairActivated? || e.event.PairDeactivated?) :: e.event.symbol
  }

  lemma DeltaMentions(seen: seq<Entry>)
    requires seen != [] && Fold(PAIR_PROJECTION, seen).Some?
    ensures Mentioned(DeltaOf(PAIR_PROJECTION, seen)) == Switched([Last(seen)])
  {
  }

  lemma MentionedConcat(a: seq<PairsDto>, b: seq<PairsDto>)
    ensures Mentioned(a + b) == Mentioned(a) + Mentioned(b)
  {
    assert forall o :: o in a + b <==> o in a || o in b;
  }

  lemma {:induction false} DeltasMention(seen: seq<Entry>, from: nat)
    requires from <= |seen| && Fold(PAIR_PROJECTION, seen).Some?
    ensures Mentioned(Deltas(PAIR_PROJECTION, seen, from)) == Switched(seen[from..])
    decreases |seen|
  {
    if from < |seen| {
      DeltasMention(Front(seen), from);
      OneMoreMention(seen, from);
      SwitchedFront(seen, from);
    }
  }

  lemma OneMoreMention(seen: seq<Entry>, from: nat)
    requires from < |seen| && Fold(PAIR_PROJECTION, seen).Some?
    ensures Mentioned(Deltas(PAIR_PROJECTION, seen, from)) ==
            Mentioned(Deltas(PAIR_PROJECTION, Front(seen), from)) + Switched([Last(seen)])
  {
    DeltaMentions(seen);
    MentionedConcat(Deltas(PAIR_PROJECTION, Front(seen), from), DeltaOf(PAIR_PROJECTION, seen));
  }

  lemma SwitchedFront(seen: seq<Entry>, from: nat)
    requires from < |seen|
    ensures Switched(seen[from..]) == Switched(Front(seen)[from..]) + Switched([Last(seen)])
  {
    assert seen[from..] == Front(seen)[from..] + [Last(seen)];
    SwitchedSnoc(Front(seen)[from..], Last(seen));
  }

  lemma SwitchedSnoc(events: seq<Entry>, e: Entry)
    ensures Switched(events + [e]) == Switched(events) + Switched([e])
  {
    assert forall x :: x in events + [e] <==> x in events || x == e;
  }

  lemma {:induction false} GoneMentionsNothing(messages: seq<PairsDto>)
    ensures Mentioned(WithoutGone(PAIR_PROJECTION, messages)) == Mentioned(messages)
  {
    if messages != [] {
      GoneMentionsNothing(Front(messages));
      assert messages == Front(messages) + [Last(messages)];
      MentionedConcat(Front(messages), [Last(messages)]);
      if Last(messages) != PAIR_PROJECTION.gone {
        MentionedConcat(WithoutGone(PAIR_PROJECTION, Front(messages)), [Last(messages)]);
      } else {
        assert WithoutGone(PAIR_PROJECTION, Front(messages)) + [] == WithoutGone(PAIR_PROJECTION, Front(messages));
      }
    }
  }

  lemma {:induction false} SnapshotMentions(order: seq<string>, rows: map<string, Row>)
    ensures SymbolsOf(EnabledAmong(order, rows)) == EnabledIn(order, rows).Keys
  {
    if order != [] {
      var rest, x := EnabledAmong(Front(order), rows), Last(order);
      SnapshotMentions(Front(order), rows);
      assert order == Front(order) + [x];
      EnabledInSnoc(Front(order), rows, x);
      if x in rows && rows[x].isEnabled {
        assert forall u :: u in rest + [Added(DtoOf(x, rows[x]))] <==> u in rest || u == Added(DtoOf(x, rows[x]));
      }
    }
  }

  /** From the fresh snapshot on the browser is told of the pairs enabled there, and of those switched
      since. */
  lemma ToldExactly(w: World<Entry, Table, PairsDto>, k: Client<PairsDto>, at: nat, from: nat)
    requires ExactStream(PAIR_PROJECTION, w, k, at, from) && Fold(PAIR_PROJECTION, w.cache.seen).Some?
    requires OrderOk(Fold(PAIR_PROJECTION, w.cache.seen[..from]).value)
    ensures Mentioned(k.received[at..]) ==
            EnabledView(Fold(PAIR_PROJECTION, w.cache.seen[..from]).value).Keys + Switched(w.cache.seen[from..])
  {
    var d, tail := Fold(PAIR_PROJECTION, w.cache.seen[..from]).value, k.received[at + 1..];
    assert k.received[at..] == [k.received[at]] + tail;
    MentionedConcat([k.received[at]], tail);
    SnapshotMentions(d.order, d.rows);
    assert EnabledIn(d.order, d.rows) == EnabledView(d);
    GoneMentionsNothing(tail);
    DeltasMention(w.cache.seen, from);
  }

  /** Each pair held before the snapshot was enabled in the log then, or was switched since. */
  ghost predicate AllSettled(w: World<Entry, Table, PairsDto>, before: View, from: nat) {
    && from <= |w.cache.seen| && Fold(PAIR_PROJECTION, w.cache.seen[..from]).Some?
    && forall x :: x in before ==>
         x in EnabledView(Fold(PAIR_PROJECTION, w.cache.seen[..from]).value) || x in Switched(w.cache.seen[from..])
  }

  /** So after a fresh snapshot the browser holds exactly the enabled pairs if and only if each pair it held
      before is enabled at the point of the log the snapshot shows, or switched on or off after it. */
  lemma {:induction false} RightExactlyWhenSettled(ops: seq<Engines.Step>, steps: seq<CacheRuns.Step<Entry>>, i: nat, at: nat)
    requires WithinIds(Engines.Run(ops))
    requires CacheRuns.Run(PAIR_PROJECTION, steps).log == Engines.Run(ops).log
    requires var w := CacheRuns.Run(PAIR_PROJECTION, steps);
             && i in w.cache.clients
             && w.cache.clients[i].since <= at < |w.cache.clients[i].received|
             && IsFresh(PAIR_PROJECTION, w.cache.clients[i].received[at])
    ensures var w := CacheRuns.Run(PAIR_PROJECTION, steps);
            var k := w.cache.clients[i];
            exists from: nat ::
              && ExactStream(PAIR_PROJECTION, w, k, at, from)
              && (Held(map[], k.received) == EnabledView(w.cache.dict) <==> AllSettled(w, Held(map[], k.received[..at]), from))
  {
    var w := CacheRuns.Run(PAIR_PROJECTION, steps);
    var k := w.cache.clients[i];
    WhatIsHeld(ops, steps, i, at);
    var from := HandOver(ops, steps, i, at);
    PairsFaithful();
    FoldOk(PAIR_PROJECTION, PAIR_READING, w.cache.seen[..from]);
    ToldExactly(w, k, at, from);
  }

  /** The point of the log that the fresh snapshot shows. */
  lemma HandOver(ops: seq<Engines.Step>, steps: seq<CacheRuns.Step<Entry>>, i: nat, at: nat) returns (from: nat)
    requires WithinIds(Engines.Run(ops))
    requires CacheRuns.Run(PAIR_PROJECTION, steps).log == Engines.Run(ops).log
    requires var w := CacheRuns.Run(PAIR_PROJECTION, steps);
             && i in w.cache.clients
             && w.cache.clients[i].since <= at < |w.cache.clients[i].received|
             && IsFresh(PAIR_PROJECTION, w.cache.clients[i].received[at])
    ensures ExactStream(PAIR_PROJECTION, CacheRuns.Run(PAIR_PROJECTION, steps), CacheRuns.Run(PAIR_PROJECTION, steps).cache.clients[i], at, from)
    ensures Fold(PAIR_PROJECTION, CacheRuns.Run(PAIR_PROJECTION, steps).cache.seen).Some?
  {
    var w := CacheRuns.Run(PAIR_PROJECTION, steps);
    var k := w.cache.clients[i];
    LogIsWellFormed(ops);
    PairsTotal(w.log);
    PairsLawful();
    NoGapNoDuplicate(PAIR_PROJECTION, steps);
    EveryRunIsOk(PAIR_PROJECTION, steps);
    assert GotFresh(PAIR_PROJECTION, k);
    var n: nat, m: nat :| ExactStream(PAIR_PROJECTION, w, k, n, m);
    OneSnapshot(w, k, n, m, at);
    from := m;
  }

  // ----- the pair that stays -----

  const THE_STREAM := PairStream("EURUSD")
  const MADE := Entry(THE_STREAM, PairCreated("EURUSD", 4, 5, 1.0, ""))
  const ON := Entry(THE_STREAM, PairActivated("EURUSD"))
  const OFF := Entry(THE_STREAM, PairDeactivated("EURUSD"))
  const THE_ROW := Row(4, 5, 1.0, "", true)
  const SHOWN := PairsDto([Added(PairDto("EURUSD", 5, 4))], true, false)
  const SHOWN_NONE := PairsDto([], true, false)

  const THE_DICT := Table(["EURUSD"], map["EURUSD" := THE_ROW])
  const OFF_DICT := Table(["EURUSD"], map["EURUSD" := THE_ROW.(isEnabled := false)])

  lemma Snapshots()
    ensures PairsSnapshot(THE_DICT, false) == SHOWN && PairsSnapshot(OFF_DICT, false) == SHOWN_NONE
    ensures UpdatePairs(Table([], map[]), MADE) == Some(OFF_DICT)
    ensures UpdatePairs(OFF_DICT, ON) == Some(THE_DICT) && UpdatePairs(THE_DICT, OFF) == Some(OFF_DICT)
  {
    var none := Table([], map[]);
    assert Front(THE_DICT.order) == [] && Last(THE_DICT.order) == "EURUSD";
    assert Front(OFF_DICT.order) == [] && EnabledAmong([], OFF_DICT.rows) + [] == [];
    assert EnabledAmong([], THE_DICT.rows) + [Added(DtoOf("EURUSD", THE_ROW))] == SHOWN.updates;
    assert [] + ["EURUSD"] == OFF_DICT.order && none.rows["EURUSD" := OFF_DICT.rows["EURUSD"]] == OFF_DICT.rows;
    assert OFF_DICT.rows["EURUSD" := THE_ROW] == THE_DICT.rows;
    assert THE_DICT.rows["EURUSD" := OFF_DICT.rows["EURUSD"]] == OFF_DICT.rows;
  }

  /** A moment at which only client 0 is there. */
  function One(log: seq<Entry>, delivered: nat, gen: nat, caughtUp: bool, dict: Table, k: Client<PairsDto>): World<Entry, Table, PairsDto> {
    World(log, delivered, |log|,
          Cache(gen, if delivered <= |log| then log[..delivered] else [], !caughtUp, dict, caughtUp, gen > 1 || caughtUp, map[0 := k], false))
  }

  lemma FirstConnect()
    ensures CacheRuns.Run(PAIR_PROJECTION, [Append(MADE), Append(ON), Join(0), Connect]) ==
            One([MADE, ON], 0, 1, false, Table([], map[]), Client(Scheduled, [], 0))
  {
    var p := PAIR_PROJECTION;
    var s2 := [Append(MADE)] + [Append(ON)];
    RunSnoc(p, [], Append(MADE));
    assert [] + [Append(MADE)] == [Append(MADE)];
    RunSnoc(p, [Append(MADE)], Append(ON));
    RunSnoc(p, s2, Join(0));
    var s3 := s2 + [Join(0)];
    RunSnoc(p, s3, Connect);
    assert s3 + [Connect] == [Append(MADE), Append(ON), Join(0), Connect];
    assert [] + [MADE] == [MADE] && [MADE] + [ON] == [MADE, ON];
    var w := CacheRuns.Run(p, s3);
    assert w == World([MADE, ON], 0, 0, Initial(p).(clients := map[0 := Client(Scheduled, [], 0)]));
    assert OnConnect(p, w.cache).clients == map[0 := Client(Scheduled, [], 0)];
  }

  lemma DeliverOne(log: seq<Entry>, n: nat, gen: nat, d: Table, d': Table, k: Client<PairsDto>)
    requires n < |log| && MatchesPair(log[n]) && UpdatePairs(d, log[n]) == Some(d') && PairDelta(d', log[n]).Some?
    requires k.phase.Scheduled? && gen > 0
    ensures CacheRuns.Next(PAIR_PROJECTION, One(log, n, gen, false, d, k), Deliver) == One(log, n + 1, gen, false, d', k)
  {
  }

  lemma CatchUpAndStart(log: seq<Entry>, gen: nat, d: Table, k: Client<PairsDto>)
    requires k.phase.Scheduled? && gen > 0
    ensures var w := CacheRuns.Next(PAIR_PROJECTION, One(log, |log|, gen, false, d, k), CaughtUp(gen));
            CacheRuns.Next(PAIR_PROJECTION, w, Start(0)) ==
            One(log, |log|, gen, true, d, Client(Live(gen, |k.received|, |log|), k.received + [PairsSnapshot(d, false)], k.since))
  {
  }

  /** One more step at a known moment. */
  lemma Then(steps: seq<CacheRuns.Step<Entry>>, w: World<Entry, Table, PairsDto>, a: CacheRuns.Step<Entry>, w': World<Entry, Table, PairsDto>)
    requires CacheRuns.Run(PAIR_PROJECTION, steps) == w && CacheRuns.Next(PAIR_PROJECTION, w, a) == w'
    ensures CacheRuns.Run(PAIR_PROJECTION, steps + [a]) == w'
  {
  }

  const WAITING: Client<PairsDto> := Client(Scheduled, [], 0)
  const TOLD := Client(Live(1, 0, 2), [SHOWN], 0)
  const WAITING_AGAIN := Client(Scheduled, [SHOWN], 1)
  const NO_PAIRS := Table([], map[])

  lemma Delivers(s: seq<CacheRuns.Step<Entry>>, log: seq<Entry>, n: nat, gen: nat, d: Table, d': Table, k: Client<PairsDto>)
    requires CacheRuns.Run(PAIR_PROJECTION, s) == One(log, n, gen, false, d, k)
    requires n < |log| && MatchesPair(log[n]) && UpdatePairs(d, log[n]) == Some(d') && PairDelta(d', log[n]).Some?
    requires k.phase.Scheduled? && gen > 0
    ensures CacheRuns.Run(PAIR_PROJECTION, s + [Deliver]) == One(log, n + 1, gen, false, d', k)
  {
    DeliverOne(log, n, gen, d, d', k);
    Then(s, One(log, n, gen, false, d, k), Deliver, One(log, n + 1, gen, false, d', k));
  }

  lemma GoesLive(s: seq<CacheRuns.Step<Entry>>, log: seq<Entry>, gen: nat, d: Table, k: Client<PairsDto>)
    requires CacheRuns.Run(PAIR_PROJECTION, s) == One(log, |log|, gen, false, d, k)
    requires k.phase.Scheduled? && gen > 0
    ensures CacheRuns.Run(PAIR_PROJECTION, s + [CaughtUp(gen)] + [Start(0)]) ==
            One(log, |log|, gen, true, d, Client(Live(gen, |k.received|, |log|), k.received + [PairsSnapshot(d, false)], k.since))
  {
    var w := One(log, |log|, gen, false, d, k);
    var w' := CacheRuns.Next(PAIR_PROJECTION, w, CaughtUp(gen));
    CatchUpAndStart(log, gen, d, k);
    Then(s, w, CaughtUp(gen), w');
    Then(s + [CaughtUp(gen)], w', Start(0), CacheRuns.Next(PAIR_PROJECTION, w', Start(0)));
  }

  lemma FirstLife()
    ensures CacheRuns.Run(PAIR_PROJECTION, FirstSteps()) == One([MADE, ON], 2, 1, true, THE_DICT, TOLD)
  {
    Snapshots();
    FirstConnect();
    var log, s := [MADE, ON], [Append(MADE), Append(ON), Join(0), Connect];
    FirstDeliveries(s);
    GoesLive(s + [Deliver] + [Deliver], log, 1, THE_DICT, WAITING);
    assert [] + [SHOWN] == [SHOWN];
    assert s + [Deliver] + [Deliver] + [CaughtUp(1)] + [Start(0)] == FirstSteps();
  }

  lemma FirstDeliveries(s: seq<CacheRuns.Step<Entry>>)
    requires CacheRuns.Run(PAIR_PROJECTION, s) == One([MADE, ON], 0, 1, false, NO_PAIRS, WAITING)
    ensures CacheRuns.Run(PAIR_PROJECTION, s + [Deliver] + [Deliver]) == One([MADE, ON], 2, 1, false, THE_DICT, WAITING)
  {
    Snapshots();
    Delivers(s, [MADE, ON], 0, 1, NO_PAIRS, OFF_DICT, WAITING);
    Delivers(s + [Deliver], [MADE, ON], 1, 1, OFF_DICT, THE_DICT, WAITING);
  }

  function FirstSteps(): seq<CacheRuns.Step<Entry>> {
    [Append(MADE), Append(ON), Join(0), Connect, Deliver, Deliver, CaughtUp(1), Start(0)]
  }

  lemma SecondConnect(s: seq<CacheRuns.Step<Entry>>)
    requires CacheRuns.Run(PAIR_PROJECTION, s) == One([MADE, ON], 2, 1, true, THE_DICT, TOLD)
    ensures CacheRuns.Run(PAIR_PROJECTION, s + [Append(OFF)] + [Connect]) == One([MADE, ON, OFF], 0, 2, false, NO_PAIRS, WAITING_AGAIN)
  {
  }

  lemma SecondLife(s: seq<CacheRuns.Step<Entry>>)
    requires CacheRuns.Run(PAIR_PROJECTION, s) == One([MADE, ON, OFF], 0, 2, false, NO_PAIRS, WAITING_AGAIN)
    ensures CacheRuns.Run(PAIR_PROJECTION, s + [Deliver] + [Deliver] + [Deliver] + [CaughtUp(2)] + [Start(0)]) ==
            One([MADE, ON, OFF], 3, 2, true, OFF_DICT, Client(Live(2, 1, 3), [SHOWN, SHOWN_NONE], 1))
  {
    Snapshots();
    var log, k := [MADE, ON, OFF], WAITING_AGAIN;
    Delivers(s, log, 0, 2, NO_PAIRS, OFF_DICT, k);
    Delivers(s + [Deliver], log, 1, 2, OFF_DICT, THE_DICT, k);
    Delivers(s + [Deliver] + [Deliver], log, 2, 2, THE_DICT, OFF_DICT, k);
    GoesLive(s + [Deliver] + [Deliver] + [Deliver], log, 2, OFF_DICT, k);
    assert [SHOWN] + [SHOWN_NONE] == [SHOWN, SHOWN_NONE];
  }

  /** A pair is shown, the connection is replaced, the pair was deactivated meanwhile: the fresh snapshot
      is empty and the browser still holds the pair. */
  lemma KeepsADisabledPair()
    ensures var steps := FirstSteps() + [Append(OFF), Connect, Deliver, Deliver, Deliver, CaughtUp(2), Start(0)];
            var w := CacheRuns.Run(PAIR_PROJECTION, steps);
            && w.log == [MADE, ON, OFF] && w.delivered == 3 && !w.cache.stale
            && EnabledView(w.cache.dict) == map[]
            && 0 in w.cache.clients && w.cache.clients[0].received == [SHOWN, SHOWN_NONE]
            && Held(map[], w.cache.clients[0].received) == map["EURUSD" := PairDto("EURUSD", 5, 4)]
  {
    var s := FirstSteps() + [Append(OFF)] + [Connect];
    FirstLife();
    SecondConnect(FirstSteps());
    SecondLife(s);
    assert s + [Deliver] + [Deliver] + [Deliver] + [CaughtUp(2)] + [Start(0)] ==
           FirstSteps() + [Append(OFF), Connect, Deliver, Deliver, Deliver, CaughtUp(2), Start(0)];
    assert EnabledView(OFF_DICT) == map[];
    HeldTwo();
  }

  lemma HeldTwo()
    ensures Held(map[], [SHOWN, SHOWN_NONE]) == map["EURUSD" := PairDto("EURUSD", 5, 4)]
  {
    var none: View := map[];
    var pair := PairDto("EURUSD", 5, 4);
    assert Front([SHOWN, SHOWN_NONE]) == [SHOWN] && Front([SHOWN]) == [];
    ApplySnoc(none, [], Added(pair));
    assert [] + [Added(pair)] == SHOWN.updates;
    assert Merge(none, SHOWN) == none["EURUSD" := pair];
    assert Held(none, [SHOWN]) == Merge(none, SHOWN);
    assert Held(none, [SHOWN, SHOWN_NONE]) == Merge(Held(none, [SHOWN]), SHOWN_NONE);
    assert none["EURUSD" := pair] == map["EURUSD" := pair];
  }
}
