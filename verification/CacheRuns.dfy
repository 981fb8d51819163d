/** Whole runs of a cache over a growing log, and what clients can conclude from their messages. */
module CacheRuns {
  import opened Prelude
  import opened EventCache
  import opened CacheTheory

  /** The log, how much of it the current subscription delivered, and how long it was when that
      subscription started. */
  datatype World<E, D, O> = World(log: seq<E>, delivered: nat, atConnect: nat, cache: Cache<E, D, O>)

  datatype Step<E> =
    | Append(e: E)
    | Connect
    | Disconnect
    | Deliver
    | CaughtUp(gen: nat)    // from the subscription of this generation, current or not
    | Join(client: nat)
    | Start(client: nat)
    | Leave(client: nat)

  function Select<E, D, O>(p: Projection<E, D, O>, log: seq<E>): seq<E> {
    if log == [] then []
    else Select(p, Front(log)) + if p.matches(Last(log)) then [Last(log)] else []
  }

  function DeliverNext<E, D, O>(p: Projection<E, D, O>, w: World<E, D, O>): World<E, D, O> {
    if w.cache.gen == 0 || w.delivered >= |w.log| then w
    else
      var e := w.log[w.delivered];
      w.(delivered := w.delivered + 1, cache := if p.matches(e) then OnEvent(p, w.cache, e) else w.cache)
  }

  /** A subscription queues its callbacks in order, the caught-up one behind the events the log held when it
      started; CacheQueues shows this from the queues. What is left of an earlier one may run any time. */
  predicate Arrives<E, D, O>(w: World<E, D, O>, gen: nat) {
    1 <= gen <= w.cache.gen && (gen == w.cache.gen ==> w.delivered >= w.atConnect)
  }

  function Callback<E, D, O>(p: Projection<E, D, O>, w: World<E, D, O>, a: Step<E>): World<E, D, O> {
    match a
    case Append(_) => w
    case Connect => World(w.log, 0, |w.log|, OnConnect(p, w.cache))
    case Disconnect => w.(cache := OnDisconnect(p, w.cache))
    case Deliver => DeliverNext(p, w)
    case CaughtUp(gen) => if Arrives(w, gen) then w.(cache := OnCaughtUp(p, w.cache)) else w
    case Join(i) => w.(cache := OnJoin(w.cache, i))
    case Start(i) => w.(cache := OnStart(p, w.cache, i))
    case Leave(i) => w.(cache := OnLeave(w.cache, i))
  }

  /** After a callback threw, only the log still changes. */
  function Next<E, D, O>(p: Projection<E, D, O>, w: World<E, D, O>, a: Step<E>): World<E, D, O> {
    if a.Append? then w.(log := w.log + [a.e])
    else if w.cache.failed then w
    else Callback(p, w, a)
  }

  function Run<E, D, O>(p: Projection<E, D, O>, steps: seq<Step<E>>): World<E, D, O> {
    if steps == [] then World([], 0, 0, Initial(p)) else Next(p, Run(p, Front(steps)), Last(steps))
  }

  /** The dictionary a log prefix gives; None where the code would throw. */
  function StateAt<E, D, O>(p: Projection<E, D, O>, log: seq<E>, n: nat): Option<D>
    requires n <= |log|
  {
    Fold(p, Select(p, log[..n]))
  }

  ghost predicate Total<E(!new), D(!new), O(!new)>(p: Projection<E, D, O>, log: seq<E>) {
    forall n :: 0 <= n <= |log| ==> StateAt(p, log, n).Some?
  }

  ghost predicate WorldOk<E(!new), D(!new), O(!new)>(p: Projection<E, D, O>, w: World<E, D, O>) {
    && w.delivered <= |w.log|
    && w.atConnect <= |w.log|
    && (w.cache.failed ==> exists n :: 0 <= n <= |w.log| && StateAt(p, w.log, n).None?)
    && (!w.cache.failed ==> CacheOk(p, w.cache) && w.cache.seen == Select(p, w.log[..w.delivered]))
    && (w.cache.gen == 0 ==> w.delivered == 0 && w.cache.stale)
  }

  lemma SelectSnoc<E, D, O>(p: Projection<E, D, O>, log: seq<E>, n: nat)
    requires n < |log|
    ensures Select(p, log[..n + 1]) == Select(p, log[..n]) + if p.matches(log[n]) then [log[n]] else []
  {
    assert Front(log[..n + 1]) == log[..n];
  }

  lemma FoldSnoc<E, D, O>(p: Projection<E, D, O>, events: seq<E>, e: E)
    requires Fold(p, events).Some?
    ensures Fold(p, events + [e]) == p.update(Fold(p, events).value, e)
  {
  }

  lemma DeliverKeeps<E(!new), D(!new), O(!new)>(p: Projection<E, D, O>, w: World<E, D, O>)
    requires Lawful(p) && WorldOk(p, w) && !w.cache.failed && w.cache.gen > 0 && w.delivered < |w.log|
    ensures WorldOk(p, DeliverNext(p, w))
  {
    var e := w.log[w.delivered];
    SelectSnoc(p, w.log, w.delivered);
    if p.matches(e) {
      FoldSnoc(p, w.cache.seen, e);
      if p.update(w.cache.dict, e).Some? {
        EventKeeps(p, w.cache, e);
      } else {
        assert StateAt(p, w.log, w.delivered + 1).None?;
      }
    }
  }

  lemma AppendKeeps<E(!new), D(!new), O(!new)>(p: Projection<E, D, O>, w: World<E, D, O>, e: E)
    requires WorldOk(p, w)
    ensures WorldOk(p, w.(log := w.log + [e]))
  {
    var log' := w.log + [e];
    assert log'[..w.delivered] == w.log[..w.delivered];
    if w.cache.failed {
      var n :| 0 <= n <= |w.log| && StateAt(p, w.log, n).None?;
      assert log'[..n] == w.log[..n];
      assert StateAt(p, log', n).None?;
    }
  }

  lemma CallbackKeeps<E(!new), D(!new), O(!new)>(p: Projection<E, D, O>, w: World<E, D, O>, a: Step<E>)
    requires Lawful(p) && WorldOk(p, w) && !w.cache.failed
    ensures WorldOk(p, Callback(p, w, a))
  {
    match a {
      case Connect => ConnectKeeps(p, w.cache);
      case Disconnect => DisconnectKeeps(p, w.cache);
      case Deliver =>
        if w.cache.gen > 0 && w.delivered < |w.log| {
          DeliverKeeps(p, w);
        }
      case CaughtUp(gen) => CaughtUpKeeps(p, w.cache);
      case Start(i) => StartKeeps(p, w.cache, i);
      case Join(i) =>
      case Leave(i) =>
      case Append(_) =>
    }
  }

  lemma StepKeeps<E(!new), D(!new), O(!new)>(p: Projection<E, D, O>, w: World<E, D, O>, a: Step<E>)
    requires Lawful(p) && WorldOk(p, w)
    ensures WorldOk(p, Next(p, w, a))
  {
    if a.Append? {
      AppendKeeps(p, w, a.e);
    } else if !w.cache.failed {
      CallbackKeeps(p, w, a);
    }
  }

  lemma {:induction false} EveryRunIsOk<E(!new), D(!new), O(!new)>(p: Projection<E, D, O>, steps: seq<Step<E>>)
    requires Lawful(p)
    ensures WorldOk(p, Run(p, steps))
  {
    if steps != [] {
      EveryRunIsOk(p, Front(steps));
      StepKeeps(p, Run(p, Front(steps)), Last(steps));
    }
  }

  // ----- what a client can tell from its own messages -----

  /** Since the last connect this client got a snapshot that was not stale. */
  ghost predicate GotFresh<E, D(!new), O>(p: Projection<E, D, O>, k: Client<O>) {
    exists j :: k.since <= j < |k.received| && IsFresh(p, k.received[j])
  }

  /** The fresh snapshot shows some delivered prefix; after it comes one delta for each later event, in
      order, with nothing between them but notices that the connection went. */
  ghost predicate ExactStream<E, D, O>(p: Projection<E, D, O>, w: World<E, D, O>, k: Client<O>, at: nat, from: nat) {
    && k.since <= at < |k.received|
    && from <= |w.cache.seen|
    && Fold(p, w.cache.seen[..from]).Some?
    && k.received[at] == p.snapshot(Fold(p, w.cache.seen[..from]).value, false)
    && WithoutGone(p, k.received[at + 1..]) == Deltas(p, w.cache.seen, from)
  }

  /** In every run over a log on which the projection never throws: no callback ever throws, the
      dictionary is the fold of the prefix delivered since the last connect, and a client that got a
      fresh snapshot since then has exactly that snapshot and the deltas that followed. */
  lemma NoGapNoDuplicate<E(!new), D(!new), O(!new)>(p: Projection<E, D, O>, steps: seq<Step<E>>)
    requires Lawful(p) && Total(p, Run(p, steps).log)
    ensures var w := Run(p, steps);
            && !w.cache.failed
            && w.delivered <= |w.log|
            && StateAt(p, w.log, w.delivered) == Some(w.cache.dict)
            && w.cache.seen == Select(p, w.log[..w.delivered])
            && forall i :: i in w.cache.clients && GotFresh(p, w.cache.clients[i]) ==>
                             exists at: nat, from: nat :: ExactStream(p, w, w.cache.clients[i], at, from)
  {
    EveryRunIsOk(p, steps);
    var w := Run(p, steps);
    forall i | i in w.cache.clients && GotFresh(p, w.cache.clients[i])
      ensures exists at: nat, from: nat :: ExactStream(p, w, w.cache.clients[i], at, from)
    {
      FreshMeansLive(p, w.cache, i);
      var k := w.cache.clients[i];
      assert ExactStream(p, w, k, k.phase.at, k.phase.from);
    }
  }

  /** A client is live exactly when it got a fresh snapshot since the last connect, and got just one. */
  lemma FreshMeansLive<E(!new), D(!new), O(!new)>(p: Projection<E, D, O>, c: Cache<E, D, O>, i: nat)
    requires CacheOk(p, c) && i in c.clients
    ensures GotFresh(p, c.clients[i]) <==> c.clients[i].phase.Live?
  {
  }

  // ----- a client that reads the messages into a view of its own -----

  /** How a client folds messages into its view, and what view a dictionary should give. */
  datatype Reading<!D, !O, !V> = Reading(start: V, take: (V, O) -> V, rows: D -> V, ok: D -> bool)

  function ReadFrom<D, O, V>(r: Reading<D, O, V>, v: V, messages: seq<O>): V {
    if messages == [] then v else r.take(ReadFrom(r, v, Front(messages)), Last(messages))
  }

  /** A snapshot sets the view, a delta moves it as the update moves the dictionary. */
  ghost predicate Faithful<E(!new), D(!new), O(!new), V(!new)>(p: Projection<E, D, O>, r: Reading<D, O, V>) {
    && r.ok(p.empty)
    && (forall v :: r.take(v, p.gone) == v)
    && (forall v, d :: r.ok(d) ==> r.take(v, p.snapshot(d, false)) == r.rows(d))
    && (forall d, e :: r.ok(d) && p.update(d, e).Some? ==> DeltaIsFaithful(p, r, d, e, p.update(d, e).value))
  }

  ghost predicate DeltaIsFaithful<E, D, O, V>(p: Projection<E, D, O>, r: Reading<D, O, V>, d: D, e: E, d': D) {
    && r.ok(d')
    && p.delta(d', e).Some?
    && var o := p.delta(d', e).value;
       if p.valid(o) then r.take(r.rows(d), o) == r.rows(d') else r.rows(d) == r.rows(d')
  }

  lemma {:induction false} FoldOk<E(!new), D(!new), O(!new), V(!new)>(p: Projection<E, D, O>, r: Reading<D, O, V>, events: seq<E>)
    requires Faithful(p, r) && Fold(p, events).Some?
    ensures r.ok(Fold(p, events).value)
  {
    if events != [] {
      FoldOk(p, r, Front(events));
      var d := Fold(p, Front(events)).value;
      assert DeltaIsFaithful(p, r, d, Last(events), p.update(d, Last(events)).value);
    }
  }

  lemma {:induction false} ReadConcat<D, O, V>(r: Reading<D, O, V>, v: V, a: seq<O>, b: seq<O>)
    ensures ReadFrom(r, v, a + b) == ReadFrom(r, ReadFrom(r, v, a), b)
  {
    if b == [] {
      assert a + b == a;
    } else {
      assert Front(a + b) == a + Front(b) && Last(a + b) == Last(b);
      ReadConcat(r, v, a, Front(b));
    }
  }

  lemma {:induction false} GoneChangesNothing<E(!new), D(!new), O(!new), V(!new)>(
    p: Projection<E, D, O>, r: Reading<D, O, V>, v: V, messages: seq<O>)
    requires Faithful(p, r)
    ensures ReadFrom(r, v, WithoutGone(p, messages)) == ReadFrom(r, v, messages)
  {
    if messages != [] {
      GoneChangesNothing(p, r, v, Front(messages));
      var kept := WithoutGone(p, Front(messages));
      if Last(messages) != p.gone {
        assert Front(kept + [Last(messages)]) == kept;
      } else {
        assert kept + [] == kept;
      }
    }
  }

  lemma {:induction false} DeltasFollowTheFold<E(!new), D(!new), O(!new), V(!new)>(
    p: Projection<E, D, O>, r: Reading<D, O, V>, events: seq<E>, from: nat)
    requires Faithful(p, r) && from <= |events| && Fold(p, events).Some? && Fold(p, events[..from]).Some?
    ensures ReadFrom(r, r.rows(Fold(p, events[..from]).value), Deltas(p, events, from)) == r.rows(Fold(p, events).value)
    decreases |events|
  {
    if from == |events| {
      assert events[..from] == events;
    } else {
      var prior := Front(events);
      assert prior[..from] == events[..from];
      DeltasFollowTheFold(p, r, prior, from);
      FoldOk(p, r, prior);
      var d := Fold(p, prior).value;
      assert DeltaIsFaithful(p, r, d, Last(events), p.update(d, Last(events)).value);
      ReadConcat(r, r.rows(Fold(p, events[..from]).value), Deltas(p, prior, from), DeltaOf(p, events));
      var one := DeltaOf(p, events);
      if one != [] {
        assert Front(one) == [];
      }
    }
  }

  /** A view read from all messages, stale ones and earlier connections included, is the view of the
      cache's dictionary as soon as a fresh snapshot came in this connection, and stays so. */
  lemma {:induction false} ViewIsTheDictionary<E(!new), D(!new), O(!new), V(!new)>(
    p: Projection<E, D, O>, r: Reading<D, O, V>, steps: seq<Step<E>>, i: nat)
    requires Lawful(p) && Faithful(p, r) && Total(p, Run(p, steps).log)
    requires i in Run(p, steps).cache.clients && GotFresh(p, Run(p, steps).cache.clients[i])
    ensures var w := Run(p, steps);
            ReadFrom(r, r.start, w.cache.clients[i].received) == r.rows(w.cache.dict)
  {
    NoGapNoDuplicate(p, steps);
    var w := Run(p, steps);
    var k := w.cache.clients[i];
    var at: nat, from: nat :| ExactStream(p, w, k, at, from);
    FoldOk(p, r, w.cache.seen[..from]);
    SnapshotSetsTheView(p, r, k.received, at, Fold(p, w.cache.seen[..from]).value);
    EveryRunIsOk(p, steps);
    DeltasFollowTheFold(p, r, w.cache.seen, from);
  }

  /** Whatever was read before it, from a fresh snapshot on only the messages after it matter. */
  lemma {:induction false} SnapshotSetsTheView<E(!new), D(!new), O(!new), V(!new)>(
    p: Projection<E, D, O>, r: Reading<D, O, V>, received: seq<O>, at: nat, d: D)
    requires Faithful(p, r) && r.ok(d) && at < |received| && received[at] == p.snapshot(d, false)
    ensures ReadFrom(r, r.start, received) == ReadFrom(r, r.rows(d), WithoutGone(p, received[at + 1..]))
  {
    var head, tail := received[..at + 1], received[at + 1..];
    assert Front(head) == received[..at] && Last(head) == received[at];
    assert received == head + tail;
    ReadConcat(r, r.start, head, tail);
    GoneChangesNothing(p, r, r.rows(d), tail);
  }

  // ----- a property of every message -----

  /** Every dictionary that arises is ok, and what is said about an ok dictionary is good. */
  ghost predicate Polite<E(!new), D(!new), O(!new)>(p: Projection<E, D, O>, ok: D -> bool, good: O -> bool) {
    && ok(p.empty) && good(p.gone)
    && (forall d, stale :: ok(d) ==> good(p.snapshot(d, stale)))
    && (forall d, e :: ok(d) && p.update(d, e).Some? ==> ok(p.update(d, e).value))
    && (forall d, e :: ok(d) && p.delta(d, e).Some? ==> good(p.delta(d, e).value))
  }

  ghost predicate ClientGood<O(!new)>(k: Client<O>, good: O -> bool) {
    forall o :: o in k.received ==> good(o)
  }

  ghost predicate AllGood<O(!new)>(clients: map<nat, Client<O>>, good: O -> bool) {
    forall i :: i in clients ==> ClientGood(clients[i], good)
  }

  lemma SendIsGood<E(!new), D(!new), O(!new)>(p: Projection<E, D, O>, k: Client<O>, o: O, good: O -> bool)
    requires ClientGood(k, good) && good(o)
    ensures ClientGood(Send(p, k, o), good)
  {
  }

  lemma PublishIsPolite<E(!new), D(!new), O(!new)>(p: Projection<E, D, O>, c: Cache<E, D, O>, good: O -> bool)
    requires AllGood(c.clients, good) && good(p.snapshot(c.dict, c.stale))
    ensures AllGood(Publish(p, c).clients, good)
  {
  }

  lemma EventIsPolite<E(!new), D(!new), O(!new)>(p: Projection<E, D, O>, ok: D -> bool, good: O -> bool,
                                                c: Cache<E, D, O>, e: E)
    requires Polite(p, ok, good) && ok(c.dict) && AllGood(c.clients, good)
    ensures ok(OnEvent(p, c, e).dict) && AllGood(OnEvent(p, c, e).clients, good)
  {
    if p.update(c.dict, e).Some? {
      var dict := p.update(c.dict, e).value;
      var c1 := c.(dict := dict, seen := c.seen + [e]);
      PublishIsPolite(p, c1, good);
      var c2 := if c.caughtUp then Publish(p, c1) else c1;
      if p.delta(dict, e).Some? {
        forall i | i in c2.clients ensures ClientGood(OnEvent(p, c, e).clients[i], good) {
          assert ClientGood(c2.clients[i], good);
          SendIsGood(p, c2.clients[i], p.delta(dict, e).value, good);
        }
      }
    }
  }

  lemma DisconnectIsPolite<E(!new), D(!new), O(!new)>(p: Projection<E, D, O>, ok: D -> bool, good: O -> bool, c: Cache<E, D, O>)
    requires Polite(p, ok, good) && ok(c.dict) && AllGood(c.clients, good)
    ensures AllGood(OnDisconnect(p, c).clients, good)
  {
  }

  lemma StartIsPolite<E(!new), D(!new), O(!new)>(p: Projection<E, D, O>, ok: D -> bool, good: O -> bool, c: Cache<E, D, O>, i: nat)
    requires Polite(p, ok, good) && ok(c.dict) && AllGood(c.clients, good)
    ensures AllGood(OnStart(p, c, i).clients, good)
  {
  }

  lemma CallbackIsPolite<E(!new), D(!new), O(!new)>(p: Projection<E, D, O>, ok: D -> bool, good: O -> bool,
                                                   w: World<E, D, O>, a: Step<E>)
    requires Polite(p, ok, good) && ok(w.cache.dict) && AllGood(w.cache.clients, good)
    ensures ok(Callback(p, w, a).cache.dict) && AllGood(Callback(p, w, a).cache.clients, good)
  {
    match a {
      case Append(_) =>
      case Connect =>
        forall i | i in w.cache.clients ensures ClientGood(OnConnect(p, w.cache).clients[i], good) {
          assert ClientGood(w.cache.clients[i], good);
        }
      case Disconnect => DisconnectIsPolite(p, ok, good, w.cache);
      case Deliver =>
        if w.delivered < |w.log| {
          EventIsPolite(p, ok, good, w.cache, w.log[w.delivered]);
        }
      case CaughtUp(gen) => PublishIsPolite(p, w.cache.(caughtUp := true, stale := false), good);
      case Join(i) =>
      case Start(i) => StartIsPolite(p, ok, good, w.cache, i);
      case Leave(i) =>
    }
  }

  lemma {:induction false} EveryMessageIsGood<E(!new), D(!new), O(!new)>(
    p: Projection<E, D, O>, ok: D -> bool, good: O -> bool, steps: seq<Step<E>>)
    requires Polite(p, ok, good)
    ensures ok(Run(p, steps).cache.dict) && AllGood(Run(p, steps).cache.clients, good)
  {
    if steps != [] {
      EveryMessageIsGood(p, ok, good, Front(steps));
      CallbackIsPolite(p, ok, good, Run(p, Front(steps)), Last(steps));
    }
  }

  // ----- how complete a fresh snapshot is -----

  /** Whoever is told "not stale" has at least everything the log held when the cache connected. */
  predicate CoversTheLog<E, D, O>(w: World<E, D, O>) {
    w.cache.stale || w.delivered >= w.atConnect
  }

  lemma RunSnoc<E, D, O>(p: Projection<E, D, O>, steps: seq<Step<E>>, a: Step<E>)
    ensures Run(p, steps + [a]) == Next(p, Run(p, steps), a)
  {
  }

  predicate CoversThroughout<E, D, O>(p: Projection<E, D, O>, steps: seq<Step<E>>) {
    CoversTheLog(Run(p, steps)) && (steps != [] ==> CoversThroughout(p, Front(steps)))
  }

  /** The subscription the callback came from is not the one the cache follows now. */
  predicate IsForeign<E, D, O>(w: World<E, D, O>, a: Step<E>) {
    a.CaughtUp? && 1 <= a.gen && a.gen != w.cache.gen && Arrives(w, a.gen) && !w.cache.failed
  }

  predicate StillLoading<E, D, O>(w: World<E, D, O>) {
    w.delivered < w.atConnect
  }

  /** No callback of an earlier subscription runs while the current one is still loading. */
  predicate NeverDisturbed<E, D, O>(p: Projection<E, D, O>, steps: seq<Step<E>>) {
    steps != [] ==>
      var w := Run(p, Front(steps));
      NeverDisturbed(p, Front(steps)) && !(IsForeign(w, Last(steps)) && StillLoading(w))
  }

  /** A callback of the current subscription is always safe: the events it stands for were queued before
      it. One of an earlier subscription is safe exactly when the current one is not loading. */
  lemma OneStepCovers<E, D, O>(p: Projection<E, D, O>, w: World<E, D, O>, a: Step<E>)
    requires CoversTheLog(w)
    ensures CoversTheLog(Next(p, w, a)) <==> !(IsForeign(w, a) && StillLoading(w))
  {
  }

  /** Fresh snapshots cover the log throughout a run if and only if no callback of an earlier subscription
      runs while the current one is loading. */
  lemma {:induction false} CoversExactlyWhenUndisturbed<E, D, O>(p: Projection<E, D, O>, steps: seq<Step<E>>)
    ensures CoversThroughout(p, steps) <==> NeverDisturbed(p, steps)
  {
    if steps != [] {
      CoversExactlyWhenUndisturbed(p, Front(steps));
      if CoversThroughout(p, Front(steps)) {
        OneStepCovers(p, Run(p, Front(steps)), Last(steps));
      }
    }
  }

  /** What a check of the generation in the callback would let through. */
  predicate OnlyOwnCallbacks<E, D, O>(p: Projection<E, D, O>, steps: seq<Step<E>>) {
    steps != [] ==> OnlyOwnCallbacks(p, Front(steps)) && !IsForeign(Run(p, Front(steps)), Last(steps))
  }

  /** So that check would be enough: with it every run covers the log. */
  lemma {:induction false} GuardWouldSuffice<E, D, O>(p: Projection<E, D, O>, steps: seq<Step<E>>)
    requires OnlyOwnCallbacks(p, steps)
    ensures CoversThroughout(p, steps)
  {
    if steps != [] {
      GuardWouldSuffice(p, Front(steps));
      OneStepCovers(p, Run(p, Front(steps)), Last(steps));
    }
  }

  /** How many of the events the log held at the connect concern this cache. */
  function HeldAtConnect<E, D, O>(p: Projection<E, D, O>, w: World<E, D, O>): nat
    requires w.atConnect <= |w.log|
  {
    |Select(p, w.log[..w.atConnect])|
  }

  /** Whoever is live was shown at least these. */
  ghost predicate ClientsCover<E(!new), D(!new), O(!new)>(p: Projection<E, D, O>, w: World<E, D, O>) {
    && w.atConnect <= |w.log|
    && forall i :: i in w.cache.clients && w.cache.clients[i].phase.Live? ==> HeldAtConnect(p, w) <= w.cache.clients[i].phase.from
  }

  /** Who goes live at a step, goes live at all that was delivered then. */
  ghost predicate NewlyLiveAt<O(!new)>(before: map<nat, Client<O>>, after: map<nat, Client<O>>, seen: nat, caughtUp: bool) {
    forall i :: i in after && after[i].phase.Live? ==>
      (i in before && before[i].phase == after[i].phase) || (caughtUp && after[i].phase.from == seen)
  }

  lemma {:induction false} SelectGrows<E, D, O>(p: Projection<E, D, O>, log: seq<E>, m: nat, n: nat)
    requires m <= n <= |log|
    ensures |Select(p, log[..m])| <= |Select(p, log[..n])|
    decreases n
  {
    if m < n {
      SelectGrows(p, log, m, n - 1);
      SelectSnoc(p, log, n - 1);
    }
  }

  lemma CallbackGoesLive<E(!new), D(!new), O(!new)>(p: Projection<E, D, O>, w: World<E, D, O>, a: Step<E>)
    requires Lawful(p) && WorldOk(p, w) && !w.cache.failed && !a.Connect? && !a.Append?
    ensures var w' := Callback(p, w, a);
            NewlyLiveAt(w.cache.clients, w'.cache.clients, |w'.cache.seen|, !w'.cache.stale && !w'.cache.failed)
  {
    match a {
      case Deliver =>
        if w.cache.gen > 0 && w.delivered < |w.log| && p.matches(w.log[w.delivered]) {
          EventGoesLive(p, w.cache, w.log[w.delivered]);
        }
      case Disconnect => DisconnectGoesLive(p, w.cache);
      case _ =>
    }
  }

  /** At an event nobody goes live: whoever still follows the container has seen it stale. */
  lemma EventGoesLive<E(!new), D(!new), O(!new)>(p: Projection<E, D, O>, c: Cache<E, D, O>, e: E)
    requires Lawful(p) && CacheOk(p, c)
    ensures var c' := OnEvent(p, c, e);
            NewlyLiveAt(c.clients, c'.clients, |c'.seen|, !c'.stale && !c'.failed)
  {
    forall i | i in c.clients && c.clients[i].phase.Snapshot? ensures c.stale {
      assert ClientOk(p, c, c.clients[i]);
    }
  }

  lemma DisconnectGoesLive<E(!new), D(!new), O(!new)>(p: Projection<E, D, O>, c: Cache<E, D, O>)
    ensures var c' := OnDisconnect(p, c);
            NewlyLiveAt(c.clients, c'.clients, |c'.seen|, !c'.stale && !c'.failed)
  {
  }

  lemma CallbackCovers<E(!new), D(!new), O(!new)>(p: Projection<E, D, O>, w: World<E, D, O>, a: Step<E>)
    requires Lawful(p) && WorldOk(p, w) && !w.cache.failed && !a.Append? && ClientsCover(p, w)
    requires WorldOk(p, Callback(p, w, a)) && CoversTheLog(Callback(p, w, a))
    ensures ClientsCover(p, Callback(p, w, a))
  {
    if !a.Connect? {
      CallbackGoesLive(p, w, a);
      NewlyLiveCover(p, w, Callback(p, w, a));
    }
  }

  lemma NewlyLiveCover<E(!new), D(!new), O(!new)>(p: Projection<E, D, O>, w: World<E, D, O>, w': World<E, D, O>)
    requires ClientsCover(p, w) && w'.log == w.log && w'.atConnect == w.atConnect && w'.delivered <= |w'.log|
    requires NewlyLiveAt(w.cache.clients, w'.cache.clients, |w'.cache.seen|, !w'.cache.stale && !w'.cache.failed)
    requires CoversTheLog(w') && (!w'.cache.failed ==> w'.cache.seen == Select(p, w'.log[..w'.delivered]))
    ensures ClientsCover(p, w')
  {
    if !w'.cache.stale && !w'.cache.failed {
      SelectGrows(p, w'.log, w'.atConnect, w'.delivered);
    }
  }

  lemma {:induction false} UndisturbedClientsCover<E(!new), D(!new), O(!new)>(p: Projection<E, D, O>, steps: seq<Step<E>>)
    requires Lawful(p) && NeverDisturbed(p, steps)
    ensures ClientsCover(p, Run(p, steps))
  {
    if steps != [] {
      var w, a := Run(p, Front(steps)), Last(steps);
      UndisturbedClientsCover(p, Front(steps));
      EveryRunIsOk(p, Front(steps));
      EveryRunIsOk(p, steps);
      CoversExactlyWhenUndisturbed(p, steps);
      if a.Append? {
        assert (w.log + [a.e])[..w.atConnect] == w.log[..w.atConnect];
      } else if !w.cache.failed {
        CallbackCovers(p, w, a);
      }
    }
  }

  /** In an undisturbed run over a log the projection accepts, the fresh snapshot of a client shows all that
      the log held when the cache connected, and its deltas the rest. */
  lemma {:induction false} FreshSnapshotsAreComplete<E(!new), D(!new), O(!new)>(p: Projection<E, D, O>, steps: seq<Step<E>>, i: nat)
    requires Lawful(p) && Total(p, Run(p, steps).log) && NeverDisturbed(p, steps)
    requires i in Run(p, steps).cache.clients && GotFresh(p, Run(p, steps).cache.clients[i])
    ensures Run(p, steps).atConnect <= |Run(p, steps).log|
    ensures exists at: nat, from: nat ::
              ExactStream(p, Run(p, steps), Run(p, steps).cache.clients[i], at, from) && HeldAtConnect(p, Run(p, steps)) <= from
  {
    var w := Run(p, steps);
    var k := w.cache.clients[i];
    EveryRunIsOk(p, steps);
    assert !w.cache.failed by {
      NoGapNoDuplicate(p, steps);
    }
    UndisturbedClientsCover(p, steps);
    FreshMeansLive(p, w.cache, i);
    LiveIsExact(p, w, k);
  }

  lemma LiveIsExact<E(!new), D(!new), O(!new)>(p: Projection<E, D, O>, w: World<E, D, O>, k: Client<O>)
    requires ClientOk(p, w.cache, k) && k.phase.Live?
    ensures ExactStream(p, w, k, k.phase.at, k.phase.from)
  {
  }

  /** A caught-up callback of the first connection that runs after the second connect makes the cache
      tell a client that its empty dictionary is not stale, although the log is not empty. */
  lemma LateCaughtUp<E, D, O>(p: Projection<E, D, O>, e: E)
    ensures var w := Run(p, [Append(e), Connect, Connect, CaughtUp(1), Join(0), Start(0)]);
            && w.log == [e] && w.delivered == 0 && !w.cache.stale && w.cache.dict == p.empty
            && !CoversTheLog(w)
            && 0 in w.cache.clients && w.cache.clients[0].phase.Live?
  {
    var s1 := [Append(e)];
    RunSnoc(p, [], Append(e));
    assert [] + [Append(e)] == s1;
    var s2 := s1 + [Connect];
    RunSnoc(p, s1, Connect);
    var s3 := s2 + [Connect];
    RunSnoc(p, s2, Connect);
    var s4 := s3 + [CaughtUp(1)];
    RunSnoc(p, s3, CaughtUp(1));
    var s5 := s4 + [Join(0)];
    RunSnoc(p, s4, Join(0));
    var s6 := s5 + [Start(0)];
    RunSnoc(p, s5, Start(0));
    assert s6 == [Append(e), Connect, Connect, CaughtUp(1), Join(0), Start(0)];
    assert Run<E, D, O>(p, []) == World([], 0, 0, Initial(p));
    assert Run(p, s3).cache.gen == 2;
  }
}
