/** What each callback of a running cache does, told by what its clients are sent and where it leaves them. */
module CacheSteps {
  import opened Prelude
  import opened EventCache
  import opened CacheTheory
  import opened CacheRuns

  /** k' is k with these messages more. */
  ghost predicate Sent<O>(k: Client<O>, k': Client<O>, messages: seq<O>) {
    k'.received == k.received + messages && k'.since == k.since
  }

  ghost predicate Unmoved<O>(k: Client<O>, k': Client<O>) {
    Sent(k, k', []) && k'.phase == k.phase
  }

  ghost predicate SameClients<O>(before: map<nat, Client<O>>, after: map<nat, Client<O>>) {
    after.Keys == before.Keys
  }

  /** Nothing but what is said next: log, deliveries, subscriptions and dictionary. */
  ghost predicate SameFeed<E, D, O>(w: World<E, D, O>, w': World<E, D, O>) {
    && w'.log == w.log && w'.delivered == w.delivered && w'.atConnect == w.atConnect
    && w'.cache.gen == w.cache.gen && w'.cache.seen == w.cache.seen && w'.cache.dict == w.cache.dict
    && w'.cache.failed == w.cache.failed
  }

  // ----- disconnect -----

  /** A live client is told that the connection went; one that follows the container is shown it stale first,
      unless it was stale already; one that waits for the loop hears nothing. */
  ghost predicate ToldOfDisconnect<E, D, O>(p: Projection<E, D, O>, w: World<E, D, O>, k: Client<O>, k': Client<O>) {
    && k'.phase == k.phase
    && match k.phase
       case Scheduled => Sent(k, k', [])
       case Live(_, _, _) => Sent(k, k', [p.gone])
       case Snapshot(_) => Sent(k, k', (if w.cache.stale then [] else [p.snapshot(w.cache.dict, true)]) + [p.gone])
  }

  lemma DisconnectTells<E(!new), D(!new), O(!new)>(p: Projection<E, D, O>, steps: seq<Step<E>>)
    requires Lawful(p) && !Run(p, steps).cache.failed
    ensures var w, w' := Run(p, steps), Run(p, steps + [Disconnect]);
            && SameFeed(w, w') && w'.cache.stale && w'.cache.caughtUp == w.cache.caughtUp
            && SameClients(w.cache.clients, w'.cache.clients)
            && forall i :: i in w.cache.clients ==> ToldOfDisconnect(p, w, w.cache.clients[i], w'.cache.clients[i])
  {
    RunSnoc(p, steps, Disconnect);
    var w := Run(p, steps);
    forall i | i in w.cache.clients ensures ToldOfDisconnect(p, w, w.cache.clients[i], OnDisconnect(p, w.cache).clients[i]) {
      DisconnectTellsOne(p, w, i);
    }
  }

  lemma DisconnectTellsOne<E(!new), D(!new), O(!new)>(p: Projection<E, D, O>, w: World<E, D, O>, i: nat)
    requires Lawful(p) && i in w.cache.clients
    ensures i in OnDisconnect(p, w.cache).clients
    ensures ToldOfDisconnect(p, w, w.cache.clients[i], OnDisconnect(p, w.cache).clients[i])
  {
    var k := w.cache.clients[i];
    assert k.received + [p.snapshot(w.cache.dict, true)] + [p.gone] == k.received + ([p.snapshot(w.cache.dict, true)] + [p.gone]);
  }

  // ----- connect -----

  /** A connect empties the dictionary, and every client has to subscribe again. */
  lemma ConnectTells<E(!new), D(!new), O(!new)>(p: Projection<E, D, O>, steps: seq<Step<E>>)
    requires !Run(p, steps).cache.failed
    ensures var w, w' := Run(p, steps), Run(p, steps + [Connect]);
            && w'.log == w.log && w'.delivered == 0 && w'.atConnect == |w.log|
            && w'.cache.gen == w.cache.gen + 1 && w'.cache.stale && !w'.cache.caughtUp && w'.cache.dict == p.empty && w'.cache.seen == []
            && SameClients(w.cache.clients, w'.cache.clients)
            && forall i :: i in w.cache.clients ==>
                 && w'.cache.clients[i].phase == Scheduled && w'.cache.clients[i].received == w.cache.clients[i].received
                 && w'.cache.clients[i].since == |w.cache.clients[i].received|
  {
    RunSnoc(p, steps, Connect);
  }

  // ----- caught up -----

  /** Whoever follows the container is shown it fresh, once, and goes live there. */
  ghost predicate ToldOfCaughtUp<E, D, O>(p: Projection<E, D, O>, w: World<E, D, O>, k: Client<O>, k': Client<O>) {
    if k.phase.Snapshot? then
      Sent(k, k', [p.snapshot(w.cache.dict, false)]) && k'.phase == Live(w.cache.gen, |k.received|, |w.cache.seen|)
    else Unmoved(k, k')
  }

  lemma CaughtUpTells<E(!new), D(!new), O(!new)>(p: Projection<E, D, O>, steps: seq<Step<E>>, gen: nat)
    requires Lawful(p) && !Run(p, steps).cache.failed && Arrives(Run(p, steps), gen)
    ensures var w, w' := Run(p, steps), Run(p, steps + [CaughtUp(gen)]);
            && SameFeed(w, w') && !w'.cache.stale && w'.cache.caughtUp
            && SameClients(w.cache.clients, w'.cache.clients)
            && forall i :: i in w.cache.clients ==> ToldOfCaughtUp(p, w, w.cache.clients[i], w'.cache.clients[i])
  {
    RunSnoc(p, steps, CaughtUp(gen));
  }

  // ----- events -----

  /** A live client gets the delta, if it is one to be sent; one that follows the container is shown it again
      if the cache was caught up before. */
  ghost predicate ToldOfEvent<E, D, O>(p: Projection<E, D, O>, w: World<E, D, O>, e: E, dict: D, k: Client<O>, k': Client<O>)
    requires p.delta(dict, e).Some?
  {
    var o := p.delta(dict, e).value;
    && k'.phase == k.phase
    && match k.phase
       case Scheduled => Sent(k, k', [])
       case Live(_, _, _) => Sent(k, k', if p.valid(o) then [o] else [])
       case Snapshot(_) => Sent(k, k', if w.cache.caughtUp then [p.snapshot(dict, true)] else [])
  }

  /** The next event of the log: one of another kind is passed over; one the dictionary cannot take ends it
      all; any other changes the dictionary and is told. */
  lemma {:induction false} DeliverTells<E(!new), D(!new), O(!new)>(p: Projection<E, D, O>, steps: seq<Step<E>>)
    requires Lawful(p) && !Run(p, steps).cache.failed && Run(p, steps).cache.gen > 0
    requires Run(p, steps).delivered < |Run(p, steps).log|
    ensures var w, w' := Run(p, steps), Run(p, steps + [Deliver]);
            var e := w.log[w.delivered];
            && w'.log == w.log && w'.delivered == w.delivered + 1 && w'.atConnect == w.atConnect
            && (!p.matches(e) ==> w'.cache == w.cache)
            && (p.matches(e) ==> (w'.cache.failed <==> p.update(w.cache.dict, e).None?))
            && (p.matches(e) && p.update(w.cache.dict, e).Some? ==>
                  && Some(w'.cache.dict) == p.update(w.cache.dict, e)
                  && w'.cache.gen == w.cache.gen && w'.cache.stale == w.cache.stale && w'.cache.caughtUp == w.cache.caughtUp
                  && SameClients(w.cache.clients, w'.cache.clients)
                  && p.delta(w'.cache.dict, e).Some?
                  && forall i :: i in w.cache.clients ==>
                       ToldOfEvent(p, w, e, w'.cache.dict, w.cache.clients[i], w'.cache.clients[i]))
  {
    RunSnoc(p, steps, Deliver);
    EveryRunIsOk(p, steps);
    var w := Run(p, steps);
    var e := w.log[w.delivered];
    if p.matches(e) && p.update(w.cache.dict, e).Some? {
      forall i | i in w.cache.clients
        ensures i in OnEvent(p, w.cache, e).clients
        ensures ToldOfEvent(p, w, e, p.update(w.cache.dict, e).value, w.cache.clients[i], OnEvent(p, w.cache, e).clients[i])
      {
        EventTellsOne(p, w, e, i);
      }
    }
  }

  lemma EventTellsOne<E(!new), D(!new), O(!new)>(p: Projection<E, D, O>, w: World<E, D, O>, e: E, i: nat)
    requires Lawful(p) && CacheOk(p, w.cache) && i in w.cache.clients && p.update(w.cache.dict, e).Some?
    ensures i in OnEvent(p, w.cache, e).clients
    ensures ToldOfEvent(p, w, e, p.update(w.cache.dict, e).value, w.cache.clients[i], OnEvent(p, w.cache, e).clients[i])
  {
    assert ClientOk(p, w.cache, w.cache.clients[i]);
  }

  // ----- clients -----

  /** A client whose subscription runs on the loop is shown the container at once: fresh, and then it is live;
      or stale, and then it waits. Before anything was published it is shown an empty one. */
  lemma {:induction false} StartTells<E(!new), D(!new), O(!new)>(p: Projection<E, D, O>, steps: seq<Step<E>>, i: nat)
    requires Lawful(p) && !Run(p, steps).cache.failed
    requires i in Run(p, steps).cache.clients && Run(p, steps).cache.clients[i].phase.Scheduled?
    ensures var w, w' := Run(p, steps), Run(p, steps + [Start(i)]);
            && SameFeed(w, w') && w'.cache.stale == w.cache.stale && SameClients(w.cache.clients, w'.cache.clients)
            && (forall j :: j in w.cache.clients && j != i ==> w'.cache.clients[j] == w.cache.clients[j])
            && var k, k' := w.cache.clients[i], w'.cache.clients[i];
               if !w.cache.stale then
                 Sent(k, k', [p.snapshot(w.cache.dict, false)]) && k'.phase == Live(w.cache.gen, |k.received|, |w.cache.seen|)
               else
                 && Sent(k, k', [p.snapshot(if w.cache.published then w.cache.dict else p.empty, true)])
                 && k'.phase == Snapshot(w.cache.gen)
  {
    RunSnoc(p, steps, Start(i));
    EveryRunIsOk(p, steps);
  }

  /** Clients come and go by themselves. */
  lemma {:induction false} JoinAndLeave<E(!new), D(!new), O(!new)>(p: Projection<E, D, O>, steps: seq<Step<E>>, i: nat)
    requires !Run(p, steps).cache.failed
    ensures var w, w' := Run(p, steps), Run(p, steps + [Join(i)]);
            && SameFeed(w, w')
            && w'.cache.clients == if i in w.cache.clients then w.cache.clients else w.cache.clients[i := Client(Scheduled, [], 0)]
    ensures var w, w' := Run(p, steps), Run(p, steps + [Leave(i)]);
            SameFeed(w, w') && w'.cache.clients == w.cache.clients - {i}
  {
    RunSnoc(p, steps, Join(i));
    RunSnoc(p, steps, Leave(i));
  }

  // ----- what follows -----

  ghost predicate NoCaughtUp<E>(steps: seq<Step<E>>) {
    forall a :: a in steps ==> !a.CaughtUp?
  }

  /** Once stale the cache stays stale until a caught-up callback; so a client that starts in between is
      shown a stale container and does not go live. */
  lemma {:induction false} StaleUntilCaughtUp<E(!new), D(!new), O(!new)>(p: Projection<E, D, O>, steps: seq<Step<E>>, more: seq<Step<E>>)
    requires Run(p, steps).cache.stale && NoCaughtUp(more)
    ensures Run(p, steps + more).cache.stale
  {
    if more == [] {
      assert steps + more == steps;
    } else {
      assert steps + more == (steps + Front(more)) + [Last(more)];
      assert Last(more) in more;
      StaleUntilCaughtUp(p, steps, Front(more));
      RunSnoc(p, steps + Front(more), Last(more));
      StaysStale(p, Run(p, steps + Front(more)), Last(more));
    }
  }

  lemma StaysStale<E(!new), D(!new), O(!new)>(p: Projection<E, D, O>, w: World<E, D, O>, a: Step<E>)
    requires w.cache.stale && !a.CaughtUp?
    ensures Next(p, w, a).cache.stale
  {
  }

  /** After a disconnect nobody goes live before a caught-up callback. */
  lemma NobodyGoesLiveBetween<E(!new), D(!new), O(!new)>(p: Projection<E, D, O>, steps: seq<Step<E>>, more: seq<Step<E>>, i: nat)
    requires Lawful(p) && NoCaughtUp(more) && !Run(p, steps).cache.failed
    requires var w := Run(p, steps + [Disconnect] + more);
             !w.cache.failed && i in w.cache.clients && w.cache.clients[i].phase.Scheduled?
    ensures var w := Run(p, steps + [Disconnect] + more + [Start(i)]);
            i in w.cache.clients && w.cache.clients[i].phase.Snapshot? && !GotFresh(p, w.cache.clients[i])
  {
    var now := steps + [Disconnect] + more;
    DisconnectTells(p, steps);
    StaleUntilCaughtUp(p, steps + [Disconnect], more);
    StartTells(p, now, i);
    EveryRunIsOk(p, now + [Start(i)]);
    RunSnoc(p, now, Start(i));
    FreshMeansLive(p, Run(p, now + [Start(i)]).cache, i);
  }

  /** While the container is not stale every client whose subscription has run got its fresh snapshot. */
  lemma {:induction false} ServedWhileFresh<E(!new), D(!new), O(!new)>(p: Projection<E, D, O>, steps: seq<Step<E>>, i: nat)
    requires Lawful(p) && !Run(p, steps).cache.failed && !Run(p, steps).cache.stale
    requires i in Run(p, steps).cache.clients && !Run(p, steps).cache.clients[i].phase.Scheduled?
    ensures GotFresh(p, Run(p, steps).cache.clients[i])
  {
    EveryRunIsOk(p, steps);
    assert ClientOk(p, Run(p, steps).cache, Run(p, steps).cache.clients[i]);
    FreshMeansLive(p, Run(p, steps).cache, i);
  }
}
