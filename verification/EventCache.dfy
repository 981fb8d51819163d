/** The cache that folds the event log into a dictionary and serves each client a snapshot and then
    live deltas, across connects, disconnects and reloads. One event loop runs every callback, so a
    callback is one atomic step. What differs between the caches is a Projection. */
module EventCache {
  import opened Prelude

  /** What a concrete cache supplies: which events it wants, how one changes the dictionary (None where
      the code throws), and how the dictionary and single events are shown to clients. */
  datatype Projection<!E, !D, !O> = Projection(
    matches: E -> bool,
    empty: D,
    update: (D, E) -> Option<D>,
    snapshot: (D, bool) -> O,
    delta: (D, E) -> Option<O>,
    valid: O -> bool,
    gone: O)

  /** A client's subscription waits on the loop; or follows the container until it sees one that is not
      stale; or follows the events it captured. A live one remembers which received message was the
      snapshot and how many events that snapshot contained. */
  datatype Phase = Scheduled | Snapshot(gen: nat) | Live(gen: nat, at: nat, from: nat)

  /** All messages a client got, and how many of them came before the current subscription. */
  datatype Client<O> = Client(phase: Phase, received: seq<O>, since: nat)

  datatype Cache<E, D, O> = Cache(
    gen: nat,             // subscriptions to the store so far
    seen: seq<E>,         // matching events of the current subscription
    stale: bool,
    dict: D,
    caughtUp: bool,
    published: bool,      // the subject holds the container, no longer its own empty first value
    clients: map<nat, Client<O>>,
    failed: bool)         // a callback threw

  function Initial<E, D, O>(p: Projection<E, D, O>): Cache<E, D, O> {
    Cache(0, [], true, p.empty, false, false, map[], false)
  }

  function Send<E, D, O>(p: Projection<E, D, O>, k: Client<O>, o: O): Client<O> {
    if p.valid(o) then k.(received := k.received + [o]) else k
  }

  /** A client that follows the container is shown it, and goes live if it is not stale. */
  function ShowContainer<E, D, O>(p: Projection<E, D, O>, c: Cache<E, D, O>, k: Client<O>, dict: D, stale: bool): Client<O> {
    var k' := Send(p, k, p.snapshot(dict, stale));
    if stale then k' else k'.(phase := Live(c.gen, |k.received|, |c.seen|))
  }

  /** The subject pushes the container to everyone who still follows it. */
  function Publish<E, D, O>(p: Projection<E, D, O>, c: Cache<E, D, O>): Cache<E, D, O> {
    c.(published := true,
       clients := map i | i in c.clients ::
         if c.clients[i].phase.Snapshot? then ShowContainer(p, c, c.clients[i], c.dict, c.stale) else c.clients[i])
  }

  function OnConnect<E, D, O>(p: Projection<E, D, O>, c: Cache<E, D, O>): Cache<E, D, O> {
    Cache(c.gen + 1, [], true, p.empty, false, c.published,
          map i | i in c.clients :: c.clients[i].(phase := Scheduled, since := |c.clients[i].received|), c.failed)
  }

  function OnDisconnect<E, D, O>(p: Projection<E, D, O>, c: Cache<E, D, O>): Cache<E, D, O> {
    var c' := if c.stale then c else Publish(p, c.(stale := true));
    c'.(clients := map i | i in c'.clients ::
      if c'.clients[i].phase.Scheduled? then c'.clients[i] else Send(p, c'.clients[i], p.gone))
  }

  predicate Follows<O>(k: Client<O>, gen: nat) {
    k.phase.Live? && k.phase.gen == gen
  }

  /** A matching event: the cache's own subscriber first, then the clients that were live already. */
  function OnEvent<E, D, O>(p: Projection<E, D, O>, c: Cache<E, D, O>, e: E): Cache<E, D, O> {
    match p.update(c.dict, e)
    case None => c.(failed := true)
    case Some(dict) =>
      var c1 := c.(dict := dict, seen := c.seen + [e]);
      var c2 := if c.caughtUp then Publish(p, c1) else c1;
      match p.delta(dict, e)
      case Some(o) =>
        c2.(clients := map i | i in c2.clients ::
          if i in c.clients && Follows(c.clients[i], c.gen) then Send(p, c2.clients[i], o) else c2.clients[i])
      case None => c2.(failed := exists i :: i in c.clients && Follows(c.clients[i], c.gen))
  }

  /** The caught-up callback checks nothing: not even whether its subscription is the current one. */
  function OnCaughtUp<E, D, O>(p: Projection<E, D, O>, c: Cache<E, D, O>): Cache<E, D, O> {
    Publish(p, c.(caughtUp := true, stale := false))
  }

  function OnJoin<E, D, O>(c: Cache<E, D, O>, i: nat): Cache<E, D, O> {
    if i in c.clients then c else c.(clients := c.clients[i := Client(Scheduled, [], 0)])
  }

  /** The scheduled subscription runs: the subject replays its value at once. */
  function OnStart<E, D, O>(p: Projection<E, D, O>, c: Cache<E, D, O>, i: nat): Cache<E, D, O> {
    if i !in c.clients || !c.clients[i].phase.Scheduled? then c
    else
      var k := c.clients[i].(phase := Snapshot(c.gen));
      c.(clients := c.clients[i := if c.published then ShowContainer(p, c, k, c.dict, c.stale)
                                                  else ShowContainer(p, c, k, p.empty, true)])
  }

  function OnLeave<E, D, O>(c: Cache<E, D, O>, i: nat): Cache<E, D, O> {
    c.(clients := c.clients - {i})
  }

  // ----- the code's own form -----

  /** The container, the subject and the list of clients, changed in place by the callbacks. */
  class EventStoreCache<E, D, O> {
    const p: Projection<E, D, O>
    var generation: nat
    var seen: seq<E>
    var isStale: bool
    var stateOfTheWorld: D
    var isCaughtUp: bool
    var published: bool
    var clients: map<nat, Client<O>>
    var failed: bool

    function State(): Cache<E, D, O>
      reads this
    {
      Cache(generation, seen, isStale, stateOfTheWorld, isCaughtUp, published, clients, failed)
    }

    constructor (p: Projection<E, D, O>)
      ensures this.p == p && State() == Initial(p)
    {
      this.p := p;
      generation, seen, isStale, stateOfTheWorld := 0, [], true, p.empty;
      isCaughtUp, published, clients, failed := false, false, map[], false;
    }

    method PublishContainer()
      modifies this
      ensures State() == Publish(p, old(State()))
    {
      published := true;
      clients := map i | i in clients ::
        if clients[i].phase.Snapshot? then ShowContainer(p, State(), clients[i], stateOfTheWorld, isStale) else clients[i];
      assert clients == Publish(p, old(State())).clients;
    }

    method Initialize()
      modifies this
      ensures State() == OnConnect(p, old(State()))
    {
      isStale := true;
      stateOfTheWorld := p.empty;
      isCaughtUp := false;
      generation, seen := generation + 1, [];
      clients := map i | i in clients :: clients[i].(phase := Scheduled, since := |clients[i].received|);
    }

    method Disconnected()
      modifies this
      ensures State() == OnDisconnect(p, old(State()))
      ensures isStale && clients.Keys == old(clients).Keys
      ensures forall i :: i in clients && old(clients)[i].phase.Scheduled? ==> clients[i] == old(clients)[i]
      ensures forall i :: i in clients && old(clients)[i].phase.Live? && p.valid(p.gone) ==>
                            clients[i] == old(clients)[i].(received := old(clients)[i].received + [p.gone])
    {
      if !isStale {
        isStale := true;
        PublishContainer();
      }
      clients := map i | i in clients :: if clients[i].phase.Scheduled? then clients[i] else Send(p, clients[i], p.gone);
    }

    method HandleEvent(e: E)
      modifies this
      ensures State() == OnEvent(p, old(State()), e)
    {
      var before := clients;
      match p.update(stateOfTheWorld, e) {
        case None =>
          failed := true;
          return;
        case Some(dict) =>
          stateOfTheWorld := dict;
          seen := seen + [e];
      }
      if isCaughtUp {
        PublishContainer();
      }
      match p.delta(stateOfTheWorld, e) {
        case Some(o) =>
          clients := map i | i in clients ::
            if i in before && Follows(before[i], generation) then Send(p, clients[i], o) else clients[i];
        case None =>
          failed := exists i :: i in before && Follows(before[i], generation);
      }
    }

    method CaughtUp()
      modifies this
      ensures State() == OnCaughtUp(p, old(State()))
    {
      isCaughtUp := true;
      isStale := false;
      PublishContainer();
    }

    method GetOutputStream(i: nat)
      modifies this`clients
      ensures State() == OnJoin(old(State()), i)
    {
      if i !in clients {
        clients := clients[i := Client(Scheduled, [], 0)];
      }
    }

    method StartClient(i: nat)
      modifies this`clients
      ensures State() == OnStart(p, old(State()), i)
    {
      if i !in clients || !clients[i].phase.Scheduled? {
        return;
      }
      var k := clients[i].(phase := Snapshot(generation));
      k := ShowContainer(p, State(), k, if published then stateOfTheWorld else p.empty, if published then isStale else true);
      clients := clients[i := k];
    }

    method Unsubscribe(i: nat)
      modifies this`clients
      ensures State() == OnLeave(old(State()), i)
    {
      clients := clients - {i};
    }
  }
}
