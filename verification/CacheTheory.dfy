/** What every run of the cache keeps: a live client has received one fresh snapshot of some prefix of
    the delivered events and then the delta of every later event exactly once, in order. */
module CacheTheory {
  import opened Prelude
  import opened EventCache

  // ----- what a projection must satisfy -----

  /** Snapshots and departures are always sent; an event the dictionary takes has a delta; the three
      kinds of message differ. */
  ghost predicate Lawful<E(!new), D(!new), O(!new)>(p: Projection<E, D, O>) {
    && p.valid(p.gone)
    && (forall d, stale :: p.valid(p.snapshot(d, stale)) && p.snapshot(d, stale) != p.gone)
    && (forall d, d' :: p.snapshot(d, false) != p.snapshot(d', true))
    && (forall d, e :: p.update(d, e).Some? ==>
          p.delta(p.update(d, e).value, e).Some? && p.delta(p.update(d, e).value, e).value != p.gone)
  }

  function Fold<E, D, O>(p: Projection<E, D, O>, events: seq<E>): Option<D> {
    if events == [] then Some(p.empty)
    else
      match Fold(p, Front(events))
      case None => None
      case Some(d) => p.update(d, Last(events))
  }

  /** The delta messages of the events from position `from` on, each taken after its own update. */
  function Deltas<E, D, O>(p: Projection<E, D, O>, events: seq<E>, from: nat): seq<O> {
    if |events| <= from then []
    else Deltas(p, Front(events), from) + DeltaOf(p, events)
  }

  function DeltaOf<E, D, O>(p: Projection<E, D, O>, events: seq<E>): seq<O>
    requires events != []
  {
    match Fold(p, events)
    case None => []
    case Some(d) =>
      match p.delta(d, Last(events))
      case None => []
      case Some(o) => if p.valid(o) then [o] else []
  }

  /** The messages without the notices that the connection went. */
  ghost function WithoutGone<E, D, O>(p: Projection<E, D, O>, messages: seq<O>): seq<O> {
    if messages == [] then []
    else WithoutGone(p, Front(messages)) + if Last(messages) == p.gone then [] else [Last(messages)]
  }

  ghost predicate IsFresh<E, D(!new), O>(p: Projection<E, D, O>, o: O) {
    exists d :: o == p.snapshot(d, false)
  }

  // ----- the invariant -----

  ghost predicate ClientOk<E(!new), D(!new), O(!new)>(p: Projection<E, D, O>, c: Cache<E, D, O>, k: Client<O>) {
    && k.since <= |k.received|
    && match k.phase
       case Scheduled => k.since == |k.received|
       case Snapshot(gen) =>
         gen == c.gen && c.stale && forall i :: k.since <= i < |k.received| ==> !IsFresh(p, k.received[i])
       case Live(gen, at, from) =>
         && gen == c.gen && k.since <= at < |k.received| && from <= |c.seen|
         && (forall i :: k.since <= i < at ==> !IsFresh(p, k.received[i]))
         && Fold(p, c.seen[..from]).Some?
         && k.received[at] == p.snapshot(Fold(p, c.seen[..from]).value, false)
         && WithoutGone(p, k.received[at + 1..]) == Deltas(p, c.seen, from)
  }

  ghost predicate CacheOk<E(!new), D(!new), O(!new)>(p: Projection<E, D, O>, c: Cache<E, D, O>) {
    && Fold(p, c.seen) == Some(c.dict)
    && (!c.stale ==> c.published && c.caughtUp)
    && (c.caughtUp ==> c.published)
    && (forall i :: i in c.clients ==> ClientOk(p, c, c.clients[i]))
  }

  lemma WithoutGoneSnoc<E, D, O>(p: Projection<E, D, O>, messages: seq<O>, o: O)
    ensures WithoutGone(p, messages + [o]) == WithoutGone(p, messages) + if o == p.gone then [] else [o]
  {
  }

  lemma NotFresh<E(!new), D(!new), O(!new)>(p: Projection<E, D, O>, d: D)
    requires Lawful(p)
    ensures !IsFresh(p, p.gone) && !IsFresh(p, p.snapshot(d, true))
  {
  }

  /** A departure notice changes nothing else for a subscribed client. */
  lemma GoneKeepsClient<E(!new), D(!new), O(!new)>(p: Projection<E, D, O>, c: Cache<E, D, O>, k: Client<O>)
    requires Lawful(p) && ClientOk(p, c, k) && !k.phase.Scheduled?
    ensures ClientOk(p, c, Send(p, k, p.gone))
  {
    NotFresh(p, p.empty);
    var k' := Send(p, k, p.gone);
    if k.phase.Live? {
      MoreReceived(p, k.received, k.phase.at, p.gone);
    }
  }

  /** One more message after the snapshot. */
  lemma MoreReceived<E, D, O>(p: Projection<E, D, O>, received: seq<O>, at: nat, o: O)
    requires at < |received|
    ensures WithoutGone(p, (received + [o])[at + 1..]) == WithoutGone(p, received[at + 1..]) + if o == p.gone then [] else [o]
  {
    assert (received + [o])[at + 1..] == received[at + 1..] + [o];
    WithoutGoneSnoc(p, received[at + 1..], o);
  }

  /** A client that is shown the container keeps following it, or goes live at this very point. */
  lemma ShowKeepsClient<E(!new), D(!new), O(!new)>(p: Projection<E, D, O>, c: Cache<E, D, O>, k: Client<O>, dict: D, stale: bool)
    requires Lawful(p)
    requires k.phase == Snapshot(c.gen) && k.since <= |k.received|
    requires forall i :: k.since <= i < |k.received| ==> !IsFresh(p, k.received[i])
    requires stale ==> c.stale
    requires !stale ==> Fold(p, c.seen) == Some(dict)
    ensures ClientOk(p, c, ShowContainer(p, c, k, dict, stale))
  {
    NotFresh(p, dict);
    var k' := ShowContainer(p, c, k, dict, stale);
    assert k'.received == k.received + [p.snapshot(dict, stale)];
    if !stale {
      assert k'.received[|k.received| + 1..] == [];
      assert c.seen[..|c.seen|] == c.seen;
    }
  }

  /** Nobody who went live earlier is touched by a push of the container. */
  lemma PublishKeeps<E(!new), D(!new), O(!new)>(p: Projection<E, D, O>, c: Cache<E, D, O>)
    requires Lawful(p) && Fold(p, c.seen) == Some(c.dict)
    requires forall i :: i in c.clients ==> ClientOk(p, c.(stale := true), c.clients[i])
    requires !c.stale ==> c.caughtUp
    ensures CacheOk(p, Publish(p, c))
  {
    var c' := Publish(p, c);
    forall i | i in c'.clients ensures ClientOk(p, c', c'.clients[i]) {
      var k := c.clients[i];
      assert ClientOk(p, c.(stale := true), k);
      if k.phase.Snapshot? {
        ShowKeepsClient(p, c, k, c.dict, c.stale);
        assert ClientOk(p, c, c'.clients[i]);
      }
    }
  }

  lemma ConnectKeeps<E(!new), D(!new), O(!new)>(p: Projection<E, D, O>, c: Cache<E, D, O>)
    requires Lawful(p) && CacheOk(p, c)
    ensures CacheOk(p, OnConnect(p, c))
  {
  }

  lemma DisconnectKeeps<E(!new), D(!new), O(!new)>(p: Projection<E, D, O>, c: Cache<E, D, O>)
    requires Lawful(p) && CacheOk(p, c)
    ensures CacheOk(p, OnDisconnect(p, c))
  {
    var c1 := if c.stale then c else Publish(p, c.(stale := true));
    if !c.stale {
      forall i | i in c.clients ensures ClientOk(p, c.(stale := true), c.clients[i]) {
        assert ClientOk(p, c, c.clients[i]);
      }
      PublishKeeps(p, c.(stale := true));
    }
    assert CacheOk(p, c1);
    var c' := OnDisconnect(p, c);
    forall i | i in c'.clients ensures ClientOk(p, c', c'.clients[i]) {
      assert ClientOk(p, c1, c1.clients[i]);
      if !c1.clients[i].phase.Scheduled? {
        GoneKeepsClient(p, c1, c1.clients[i]);
        assert ClientOk(p, c1, c'.clients[i]);
      }
    }
  }

  lemma CaughtUpKeeps<E(!new), D(!new), O(!new)>(p: Projection<E, D, O>, c: Cache<E, D, O>)
    requires Lawful(p) && CacheOk(p, c)
    ensures CacheOk(p, OnCaughtUp(p, c))
  {
    var c1 := c.(caughtUp := true, stale := false);
    forall i | i in c1.clients ensures ClientOk(p, c1.(stale := true), c1.clients[i]) {
      assert ClientOk(p, c, c.clients[i]);
    }
    PublishKeeps(p, c1);
  }

  lemma StartKeeps<E(!new), D(!new), O(!new)>(p: Projection<E, D, O>, c: Cache<E, D, O>, i: nat)
    requires Lawful(p) && CacheOk(p, c)
    ensures CacheOk(p, OnStart(p, c, i))
  {
    if i in c.clients && c.clients[i].phase.Scheduled? {
      assert ClientOk(p, c, c.clients[i]);
      var k := c.clients[i].(phase := Snapshot(c.gen));
      if c.published {
        ShowKeepsClient(p, c, k, c.dict, c.stale);
      } else {
        ShowKeepsClient(p, c, k, p.empty, true);
      }
      var c' := OnStart(p, c, i);
      forall j | j in c'.clients ensures ClientOk(p, c', c'.clients[j]) {
        assert j != i ==> ClientOk(p, c, c.clients[j]);
      }
    }
  }

  lemma OneMoreDelta<E(!new), D(!new), O(!new)>(p: Projection<E, D, O>, seen: seq<E>, e: E, from: nat)
    requires Fold(p, seen).Some? && p.update(Fold(p, seen).value, e).Some? && from <= |seen|
    requires p.delta(p.update(Fold(p, seen).value, e).value, e).Some?
    ensures var d := p.update(Fold(p, seen).value, e).value;
            && Fold(p, seen + [e]) == Some(d)
            && Deltas(p, seen + [e], from) ==
               Deltas(p, seen, from) + if p.valid(p.delta(d, e).value) then [p.delta(d, e).value] else []
  {
  }

  /** An event a live client sees: its messages stay one delta an event. */
  lemma DeltaKeepsClient<E(!new), D(!new), O(!new)>(p: Projection<E, D, O>, c: Cache<E, D, O>, e: E, c': Cache<E, D, O>, k: Client<O>)
    requires Lawful(p) && ClientOk(p, c, k) && k.phase.Live?
    requires Fold(p, c.seen) == Some(c.dict) && p.update(c.dict, e).Some?
    requires c'.gen == c.gen && c'.seen == c.seen + [e]
    ensures ClientOk(p, c', Send(p, k, p.delta(p.update(c.dict, e).value, e).value))
  {
    var o := p.delta(p.update(c.dict, e).value, e).value;
    var k' := Send(p, k, o);
    var Live(gen, at, from) := k.phase;
    var seen' := c.seen + [e];
    OneMoreDelta(p, c.seen, e, from);
    assert seen'[..from] == c.seen[..from];
    if p.valid(o) {
      assert k'.received[at + 1..] == k.received[at + 1..] + [o];
      WithoutGoneSnoc(p, k.received[at + 1..], o);
    }
  }

  /** Between the update and the push: the clients that were live are one event behind. */
  lemma EventKeeps<E(!new), D(!new), O(!new)>(p: Projection<E, D, O>, c: Cache<E, D, O>, e: E)
    requires Lawful(p) && CacheOk(p, c) && p.update(c.dict, e).Some?
    ensures CacheOk(p, OnEvent(p, c, e))
    ensures OnEvent(p, c, e).failed == c.failed
  {
    var dict := p.update(c.dict, e).value;
    var c1 := c.(dict := dict, seen := c.seen + [e]);
    assert Front(c1.seen) == c.seen;
    var c2 := if c.caughtUp then Publish(p, c1) else c1;
    var c' := OnEvent(p, c, e);
    forall i | i in c'.clients ensures ClientOk(p, c', c'.clients[i]) {
      var k := c.clients[i];
      assert ClientOk(p, c, k);
      if k.phase.Live? {
        DeltaKeepsClient(p, c, e, c', k);
      } else if k.phase.Snapshot? && c.caughtUp {
        ShowKeepsClient(p, c1, k, dict, c1.stale);
        assert ClientOk(p, c1, c'.clients[i]);
      }
    }
  }
}
