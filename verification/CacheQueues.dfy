/** The queues behind the runs of a cache. Each subscription to the store schedules its callbacks on the
    event loop in order: the events from the start of the log, and the caught-up callback once the events
    the log held at the start are scheduled. Stopping a subscription makes its events fall on deaf ears,
    but not its caught-up callback. */
module CacheQueues {
  import opened Prelude
  import opened EventCache
  import opened CacheRuns

  datatype Item = EventAt(n: nat) | LiveNow

  /** What the log held at the start, how many events were scheduled, and what has not run yet. */
  datatype Subscription = Subscription(held: nat, sent: nat, queue: seq<Item>)

  datatype Loop<E, D, O> = Loop(log: seq<E>, subs: seq<Subscription>, delivered: nat, cache: Cache<E, D, O>)

  datatype Event<E> =
    | Append(e: E)
    | Connect
    | Disconnect
    | Schedule(sub: nat)          // the store hands over the next event
    | ScheduleLive(sub: nat)      // the store has handed over what the log held
    | Take(sub: nat)              // the event loop runs the subscription's oldest callback
    | Join(client: nat)
    | Start(client: nat)
    | Leave(client: nat)

  function ScheduleNext<E, D, O>(l: Loop<E, D, O>, i: nat): Loop<E, D, O> {
    if i >= |l.subs| || l.subs[i].sent >= |l.log| then l
    else
      var s := l.subs[i];
      l.(subs := l.subs[i := s.(sent := s.sent + 1, queue := s.queue + [EventAt(s.sent)])])
  }

  function ScheduleCaughtUp<E, D, O>(l: Loop<E, D, O>, i: nat): Loop<E, D, O> {
    if i >= |l.subs| || l.subs[i].sent < l.subs[i].held then l
    else l.(subs := l.subs[i := l.subs[i].(queue := l.subs[i].queue + [LiveNow])])
  }

  function HandleEvent<E, D, O>(p: Projection<E, D, O>, l: Loop<E, D, O>, n: nat): Loop<E, D, O> {
    if n >= |l.log| then l
    else l.(delivered := n + 1, cache := if p.matches(l.log[n]) then OnEvent(p, l.cache, l.log[n]) else l.cache)
  }

  function TakeOne<E, D, O>(p: Projection<E, D, O>, l: Loop<E, D, O>, i: nat): Loop<E, D, O> {
    if i >= |l.subs| || l.subs[i].queue == [] then l
    else
      var s := l.subs[i];
      var l1 := l.(subs := l.subs[i := s.(queue := s.queue[1..])]);
      match s.queue[0]
      case EventAt(n) => if i == |l.subs| - 1 then HandleEvent(p, l1, n) else l1
      case LiveNow => l1.(cache := OnCaughtUp(p, l.cache))
  }

  function Next<E, D, O>(p: Projection<E, D, O>, l: Loop<E, D, O>, a: Event<E>): Loop<E, D, O> {
    if a.Append? then l.(log := l.log + [a.e])
    else if l.cache.failed then l
    else
      match a
      case Append(_) => l
      case Connect => l.(subs := l.subs + [Subscription(|l.log|, 0, [])], delivered := 0, cache := OnConnect(p, l.cache))
      case Disconnect => l.(cache := OnDisconnect(p, l.cache))
      case Schedule(i) => ScheduleNext(l, i)
      case ScheduleLive(i) => ScheduleCaughtUp(l, i)
      case Take(i) => TakeOne(p, l, i)
      case Join(i) => l.(cache := OnJoin(l.cache, i))
      case Start(i) => l.(cache := OnStart(p, l.cache, i))
      case Leave(i) => l.(cache := OnLeave(l.cache, i))
  }

  function Run<E, D, O>(p: Projection<E, D, O>, events: seq<Event<E>>): Loop<E, D, O> {
    if events == [] then Loop([], [], 0, Initial(p)) else Next(p, Run(p, Front(events)), Last(events))
  }

  // ----- what the queues look like -----

  function EventsIn(queue: seq<Item>): nat {
    if queue == [] then 0 else EventsIn(Front(queue)) + if Last(queue).EventAt? then 1 else 0
  }

  /** Events in order up to the last one scheduled, and caught-up only behind what the log held. */
  predicate QueueOk(held: nat, sent: nat, queue: seq<Item>) {
    if queue == [] then true
    else
      match Last(queue)
      case EventAt(n) => sent == n + 1 && QueueOk(held, n, Front(queue))
      case LiveNow => sent >= held && QueueOk(held, sent, Front(queue))
  }

  lemma {:induction false} QueueBounds(held: nat, sent: nat, queue: seq<Item>)
    requires QueueOk(held, sent, queue)
    ensures EventsIn(queue) <= sent
  {
    if queue != [] {
      QueueBounds(held, if Last(queue).EventAt? then Last(queue).n else sent, Front(queue));
    }
  }

  /** The oldest callback of a queue is the next event, or caught-up with nothing of the held missing. */
  lemma {:induction false} OldestIsNext(held: nat, sent: nat, queue: seq<Item>)
    requires QueueOk(held, sent, queue) && queue != []
    ensures QueueOk(held, sent, queue[1..]) && EventsIn(queue) <= sent
    ensures match queue[0]
            case EventAt(n) => n == sent - EventsIn(queue) && EventsIn(queue[1..]) == EventsIn(queue) - 1
            case LiveNow => sent - EventsIn(queue) >= held && EventsIn(queue[1..]) == EventsIn(queue)
  {
    QueueBounds(held, sent, queue);
    if |queue| > 1 {
      assert Front(queue)[1..] == Front(queue[1..]) && Last(queue[1..]) == Last(queue);
      OldestIsNext(held, if Last(queue).EventAt? then Last(queue).n else sent, Front(queue));
    } else {
      assert Front(queue) == [] && queue[1..] == [];
    }
  }

  ghost predicate LoopOk<E(!new), D(!new), O(!new)>(l: Loop<E, D, O>) {
    && (forall i :: 0 <= i < |l.subs| ==> QueueOk(l.subs[i].held, l.subs[i].sent, l.subs[i].queue) && l.subs[i].sent <= |l.log|)
    && l.cache.gen == |l.subs|
    && (|l.subs| == 0 ==> l.delivered == 0)
    && (|l.subs| > 0 ==>
          var s := l.subs[|l.subs| - 1];
          EventsIn(s.queue) <= s.sent && (!l.cache.failed ==> l.delivered == s.sent - EventsIn(s.queue)))
  }

  /** The world of CacheRuns that a loop shows. */
  function Shown<E, D, O>(l: Loop<E, D, O>): World<E, D, O> {
    World(l.log, l.delivered, if l.subs == [] then 0 else Last(l.subs).held, l.cache)
  }

  /** What one event of the loop is there: scheduling is nothing, and neither are events for deaf ears. */
  function StepOf<E, D, O>(l: Loop<E, D, O>, a: Event<E>): seq<Step<E>> {
    match a
    case Append(e) => [CacheRuns.Append(e)]
    case Connect => [CacheRuns.Connect]
    case Disconnect => [CacheRuns.Disconnect]
    case Schedule(_) => []
    case ScheduleLive(_) => []
    case Take(i) =>
      if i >= |l.subs| || l.subs[i].queue == [] || l.cache.failed then []
      else if l.subs[i].queue[0].LiveNow? then [CaughtUp(i + 1)]
      else if i == |l.subs| - 1 then [Deliver] else []
    case Join(i) => [CacheRuns.Join(i)]
    case Start(i) => [CacheRuns.Start(i)]
    case Leave(i) => [CacheRuns.Leave(i)]
  }

  function StepsOf<E, D, O>(p: Projection<E, D, O>, events: seq<Event<E>>): seq<Step<E>> {
    if events == [] then []
    else StepsOf(p, Front(events)) + StepOf(Run(p, Front(events)), Last(events))
  }

  // ----- the loop runs what CacheRuns says -----

  /** One event of the loop is one step there, or none. A caught-up callback is never held back there. */
  ghost predicate Simulates<E(!new), D(!new), O(!new)>(p: Projection<E, D, O>, l: Loop<E, D, O>, a: Event<E>) {
    var w, w', steps := Shown(l), Shown(Next(p, l, a)), StepOf(l, a);
    if steps == [] then w' == w
    else w' == CacheRuns.Next(p, w, steps[0]) && (steps[0].CaughtUp? ==> Arrives(w, steps[0].gen))
  }

  lemma SubsKept(subs: seq<Subscription>, log: nat, i: nat, s: Subscription)
    requires forall k :: 0 <= k < |subs| ==> QueueOk(subs[k].held, subs[k].sent, subs[k].queue) && subs[k].sent <= log
    requires i < |subs| && QueueOk(s.held, s.sent, s.queue) && s.sent <= log
    ensures var subs' := subs[i := s];
            forall k :: 0 <= k < |subs'| ==> QueueOk(subs'[k].held, subs'[k].sent, subs'[k].queue) && subs'[k].sent <= log
  {
  }

  lemma TakeKeeps<E(!new), D(!new), O(!new)>(p: Projection<E, D, O>, l: Loop<E, D, O>, i: nat)
    requires LoopOk(l) && !l.cache.failed
    ensures LoopOk(TakeOne(p, l, i))
  {
    if i < |l.subs| && l.subs[i].queue != [] {
      var s := l.subs[i];
      OldestIsNext(s.held, s.sent, s.queue);
      QueueBounds(s.held, s.sent, s.queue[1..]);
      SubsKept(l.subs, |l.log|, i, s.(queue := s.queue[1..]));
    }
  }

  lemma TakeSimulates<E(!new), D(!new), O(!new)>(p: Projection<E, D, O>, l: Loop<E, D, O>, i: nat)
    requires LoopOk(l) && !l.cache.failed
    ensures Simulates(p, l, Take(i))
  {
    if i < |l.subs| && l.subs[i].queue != [] {
      var s := l.subs[i];
      OldestIsNext(s.held, s.sent, s.queue);
      assert TakeOne(p, l, i).subs[|l.subs| - 1].held == Last(l.subs).held;
    }
  }

  lemma ScheduleKeeps<E(!new), D(!new), O(!new)>(l: Loop<E, D, O>, i: nat)
    requires LoopOk(l)
    ensures LoopOk(ScheduleNext(l, i))
  {
    if i < |l.subs| && l.subs[i].sent < |l.log| {
      var s := l.subs[i];
      var more := s.queue + [EventAt(s.sent)];
      assert Front(more) == s.queue;
      QueueBounds(s.held, s.sent, s.queue);
      SubsKept(l.subs, |l.log|, i, s.(sent := s.sent + 1, queue := more));
    }
  }

  lemma ScheduleLiveKeeps<E(!new), D(!new), O(!new)>(l: Loop<E, D, O>, i: nat)
    requires LoopOk(l)
    ensures LoopOk(ScheduleCaughtUp(l, i))
  {
    if i < |l.subs| && l.subs[i].sent >= l.subs[i].held {
      var s := l.subs[i];
      var more := s.queue + [LiveNow];
      assert Front(more) == s.queue;
      SubsKept(l.subs, |l.log|, i, s.(queue := more));
    }
  }

  /** Scheduling shows nothing. */
  lemma ScheduleShowsNothing<E, D, O>(l: Loop<E, D, O>, i: nat)
    ensures Shown(ScheduleNext(l, i)) == Shown(l) && Shown(ScheduleCaughtUp(l, i)) == Shown(l)
  {
  }

  lemma EventSimulates<E(!new), D(!new), O(!new)>(p: Projection<E, D, O>, l: Loop<E, D, O>, a: Event<E>)
    requires LoopOk(l)
    ensures LoopOk(Next(p, l, a)) && Simulates(p, l, a)
  {
    if !a.Append? && !l.cache.failed {
      match a {
        case Take(i) =>
          TakeKeeps(p, l, i);
          TakeSimulates(p, l, i);
        case Schedule(i) =>
          ScheduleKeeps(l, i);
          ScheduleShowsNothing(l, i);
        case ScheduleLive(i) =>
          ScheduleLiveKeeps(l, i);
          ScheduleShowsNothing(l, i);
        case _ =>
      }
    }
  }

  /** Every run of the loop with its queues is a run of CacheRuns: the same log, deliveries and cache. */
  lemma {:induction false} QueuesRefineRuns<E(!new), D(!new), O(!new)>(p: Projection<E, D, O>, events: seq<Event<E>>)
    ensures LoopOk(Run(p, events))
    ensures Shown(Run(p, events)) == CacheRuns.Run(p, StepsOf(p, events))
  {
    if events != [] {
      QueuesRefineRuns(p, Front(events));
      var l, before := Run(p, Front(events)), StepsOf(p, Front(events));
      EventSimulates(p, l, Last(events));
      OneMore(p, before, StepOf(l, Last(events)));
    }
  }

  lemma OneMore<E(!new), D(!new), O(!new)>(p: Projection<E, D, O>, before: seq<Step<E>>, more: seq<Step<E>>)
    requires |more| <= 1
    ensures CacheRuns.Run(p, before + more) ==
            if more == [] then CacheRuns.Run(p, before) else CacheRuns.Next(p, CacheRuns.Run(p, before), more[0])
  {
    if more == [] {
      assert before + more == before;
    } else {
      assert more == [more[0]];
      RunSnoc(p, before, more[0]);
    }
  }

  /** In every run of the loop: when the caught-up callback of the current subscription is the next to
      run, all the events the log held when it started have been delivered. */
  lemma OwnCaughtUpIsGenuine<E(!new), D(!new), O(!new)>(p: Projection<E, D, O>, events: seq<Event<E>>)
    ensures var l := Run(p, events);
            l.subs != [] && Last(l.subs).queue != [] && Last(l.subs).queue[0] == LiveNow && !l.cache.failed ==>
              l.delivered >= Last(l.subs).held
  {
    QueuesRefineRuns(p, events);
    var l := Run(p, events);
    if l.subs != [] && Last(l.subs).queue != [] {
      OldestIsNext(Last(l.subs).held, Last(l.subs).sent, Last(l.subs).queue);
    }
  }

  /** So on the queues too, fresh snapshots cover the log throughout exactly when no caught-up callback of
      an earlier subscription is taken while the current one is loading. */
  lemma {:induction false} QueuesCoverExactly<E(!new), D(!new), O(!new)>(p: Projection<E, D, O>, events: seq<Event<E>>)
    ensures CoversThroughout(p, StepsOf(p, events)) <==> LoopUndisturbed(p, events)
  {
    CoversExactlyWhenUndisturbed(p, StepsOf(p, events));
    SameDisturbance(p, events);
  }

  /** The loop takes a caught-up callback that is not the current subscription's while that is loading. */
  predicate Disturbs<E, D, O>(l: Loop<E, D, O>, a: Event<E>) {
    && a.Take? && a.sub + 1 < |l.subs| && !l.cache.failed
    && l.subs[a.sub].queue != [] && l.subs[a.sub].queue[0] == LiveNow
    && l.delivered < Last(l.subs).held
  }

  predicate LoopUndisturbed<E, D, O>(p: Projection<E, D, O>, events: seq<Event<E>>) {
    events != [] ==> LoopUndisturbed(p, Front(events)) && !Disturbs(Run(p, Front(events)), Last(events))
  }

  lemma {:induction false} SameDisturbance<E(!new), D(!new), O(!new)>(p: Projection<E, D, O>, events: seq<Event<E>>)
    ensures NeverDisturbed(p, StepsOf(p, events)) <==> LoopUndisturbed(p, events)
  {
    if events != [] {
      SameDisturbance(p, Front(events));
      QueuesRefineRuns(p, Front(events));
      var l, before := Run(p, Front(events)), StepsOf(p, Front(events));
      SameStep(l, Last(events));
      DisturbedOneMore(p, before, StepOf(l, Last(events)));
    }
  }

  lemma SameStep<E(!new), D(!new), O(!new)>(l: Loop<E, D, O>, a: Event<E>)
    requires LoopOk(l)
    ensures Disturbs(l, a) <==> StepOf(l, a) != [] && IsForeign(Shown(l), StepOf(l, a)[0]) && StillLoading(Shown(l))
  {
  }

  lemma {:induction false} DisturbedOneMore<E, D, O>(p: Projection<E, D, O>, before: seq<Step<E>>, more: seq<Step<E>>)
    requires |more| <= 1
    ensures NeverDisturbed(p, before + more) <==>
            && NeverDisturbed(p, before)
            && (more == [] || !(IsForeign(CacheRuns.Run(p, before), more[0]) && StillLoading(CacheRuns.Run(p, before))))
  {
    if more == [] {
      assert before + more == before;
    } else {
      assert Front(before + more) == before && Last(before + more) == more[0];
    }
  }
}
