/** Operations against a service: each looks for the least loaded instance that is up, calls it, and then
    watches it with a heartbeat timer of its own. */
module Operations {
  import opened Prelude
  import opened Discovery
  import opened Sorting

  // ----- choosing an instance -----

  /** Down sorts last: it has no load. */
  predicate Less(x: Health, y: Health) {
    x.Up? && (y.Down? || x.load < y.load)
  }

  function HealthOf(d: Disco, id: string): Health {
    if id in d.shown then d.shown[id] else Down
  }

  function ByLoad(d: Disco): (string, string) -> bool {
    (x, y) => Less(HealthOf(d, x), HealthOf(d, y))
  }

  function FirstUp(d: Disco, ids: seq<string>): Option<string> {
    if ids == [] then None else if IsUp(d, ids[0]) then Some(ids[0]) else FirstUp(d, ids[1..])
  }

  function LeastLoaded(d: Disco): Option<string> {
    FirstUp(d, SortBy(ByLoad(d), d.order))
  }

  lemma LoadsAreOrdered(d: Disco)
    ensures WeakOrder(ByLoad(d))
  {
  }

  /** In a sorted list the first one is up if any is. */
  lemma {:induction false} FirstUpIsFirst(d: Disco, ids: seq<string>)
    requires Sorted(ByLoad(d), ids)
    ensures FirstUp(d, ids) == if ids != [] && IsUp(d, ids[0]) then Some(ids[0]) else None
    ensures FirstUp(d, ids) == None ==> forall id :: id in ids ==> !IsUp(d, id)
  {
    if ids != [] && !IsUp(d, ids[0]) {
      FirstUpIsFirst(d, ids[1..]);
      if |ids| > 1 {
        assert !ByLoad(d)(ids[1], ids[0]);
      }
    }
  }

  ghost predicate IsLeastUp(d: Disco, x: string) {
    && IsUp(d, x)
    && (forall y :: y in d.order && IsUp(d, y) ==> d.shown[x].load <= d.shown[y].load)
    && exists i: nat :: EarliestLeast(ByLoad(d), d.order, i) && d.order[i] == x
  }

  lemma LeastIsLeastUp(d: Disco, i: nat)
    requires EarliestLeast(ByLoad(d), d.order, i) && IsUp(d, d.order[i])
    ensures IsLeastUp(d, d.order[i])
  {
  }

  /** Sorting and taking the first that is up finds an instance if there is one, the least loaded, and of
      equally loaded ones the one heard first. */
  lemma LeastLoadedIsLeast(d: Disco)
    ensures LeastLoaded(d).Some? <==> ServiceUp(d)
    ensures LeastLoaded(d).Some? ==> IsLeastUp(d, LeastLoaded(d).value)
  {
    var less := ByLoad(d);
    LoadsAreOrdered(d);
    SortSorts(less, d.order);
    FirstUpIsFirst(d, SortBy(less, d.order));
    if LeastLoaded(d).Some? {
      assert LeastLoaded(d).value in SortBy(less, d.order);
      SortPutsLeastFirst(less, d.order);
      var i: nat :| EarliestLeast(less, d.order, i) && SortBy(less, d.order)[0] == d.order[i];
      LeastIsLeastUp(d, i);
    }
  }

  // ----- an operation -----

  datatype End = NoService | InstanceDown | ConnectionLost | CallFailed | Completed | Disposed

  /** Waiting for an instance; found one while still subscribing, so that the dictionary stays subscribed
      for one more time; or done with the dictionary. */
  datatype Search = Waiting | OnceMore | Over

  datatype Monitor = Monitor(id: string, since: int, due: int)

  datatype Op = Op(waits: bool, oneShot: bool, search: Search, monitors: seq<Monitor>, calls: seq<string>, ended: Option<End>)

  function Pick(op: Op, id: string, now: int): Op {
    op.(monitors := op.monitors + [Monitor(id, now, now + HEARTBEAT_TIMEOUT)],
        calls := if op.calls == [] then [id] else op.calls)
  }

  /** The dictionary as pushed, or as replayed while the operation still subscribes to it. */
  function OnDictionary(op: Op, d: Disco, subscribing: bool): Op {
    if op.ended.Some? || op.search.Over? then op
    else
      match LeastLoaded(d)
      case Some(id) => Pick(op, id, d.now).(search := if subscribing then OnceMore else Over)
      case None => if op.waits then op else op.(ended := Some(NoService))
  }

  function Restart(ms: seq<Monitor>, id: string, now: int): seq<Monitor> {
    seq(|ms|, k requires 0 <= k < |ms| => if ms[k].id == id then ms[k].(due := now + HEARTBEAT_TIMEOUT) else ms[k])
  }

  function Finish(op: Op, end: End): Op {
    if op.ended.Some? then op else op.(ended := Some(end))
  }

  function OnBeat(op: Op, id: string, now: int): Op {
    if op.ended.Some? then op else op.(monitors := Restart(op.monitors, id, now))
  }

  /** Every group of the epoch ends with an error. */
  function OnLost(op: Op): Op {
    if op.monitors != [] then Finish(op, ConnectionLost) else op
  }

  function OnMonitorTimeout(op: Op, k: nat, now: int): Op {
    if k < |op.monitors| && op.monitors[k].due <= now then Finish(op, InstanceDown) else op
  }

  function OnAnswer(op: Op, ok: bool): Op {
    if op.calls == [] then op
    else if !ok then Finish(op, CallFailed)
    else if op.oneShot then Finish(op, Completed)
    else op
  }

  function NewOp(waits: bool, oneShot: bool): Op {
    Op(waits || !oneShot, oneShot, Waiting, [], [], None)
  }

  /** The closure of one subscription to an operation. */
  class Operation {
    const waits: bool
    const oneShot: bool
    var search: Search
    var monitors: seq<Monitor>
    var hasSubscribed: bool
    var calls: seq<string>
    var ended: Option<End>

    function State(): Op
      reads this
    {
      Op(waits, oneShot, search, monitors, calls, ended)
    }

    ghost predicate Valid()
      reads this
    {
      hasSubscribed <==> calls != []
    }

    /** Subscribing replays the last dictionary at once. */
    constructor (waits: bool, oneShot: bool, d: Disco)
      ensures Valid() && State() == OnDictionary(NewOp(waits, oneShot), d, true)
    {
      this.waits, this.oneShot := waits || !oneShot, oneShot;
      search, monitors, hasSubscribed, calls, ended := Waiting, [], false, [], None;
      new;
      assert State() == NewOp(waits, oneShot);
      HandleDictionary(d, true);
    }

    method HandleDictionary(d: Disco, subscribing: bool)
      requires Valid()
      modifies this
      ensures Valid() && State() == OnDictionary(old(State()), d, subscribing)
    {
      if ended.Some? || search.Over? {
        return;
      }
      LeastLoadedIsLeast(d);
      match LeastLoaded(d) {
        case Some(id) =>
          search := if subscribing then OnceMore else Over;
          monitors := monitors + [Monitor(id, d.now, d.now + HEARTBEAT_TIMEOUT)];
          HandleStatus(id, d.shown[id]);
        case None =>
          if !waits {
            ended := Some(NoService);
          }
      }
    }

    /** A status of a watched instance: the first one that is up starts the remote call. */
    method HandleStatus(id: string, h: Health)
      requires Valid() && ended.None?
      modifies this`hasSubscribed, this`calls, this`ended
      ensures Valid()
      ensures State() == if h.Down? then Finish(old(State()), InstanceDown)
                         else old(State()).(calls := if old(calls) == [] then [id] else old(calls))
    {
      if h.Down? {
        ended := Some(InstanceDown);
      } else if !hasSubscribed {
        hasSubscribed := true;
        calls := [id];
      }
    }

    method HandleMonitorTimeout(k: nat, now: int)
      requires Valid() && ended.None? && k < |monitors| && monitors[k].due <= now
      modifies this
      ensures Valid() && State() == OnMonitorTimeout(old(State()), k, now)
    {
      HandleStatus(monitors[k].id, Down);
    }

    method HandleAnswer(ok: bool)
      requires Valid() && calls != []
      modifies this`ended
      ensures Valid() && State() == OnAnswer(old(State()), ok)
      ensures ended == if old(ended).Some? then old(ended)
                       else if !ok then Some(CallFailed)
                       else if oneShot then Some(Completed)
                       else None
    {
      if ended.None? {
        if !ok {
          ended := Some(CallFailed);
        } else if oneShot {
          ended := Some(Completed);
        }
      }
    }
  }

  // ----- runs -----

  datatype World = World(d: Disco, ops: map<nat, Op>)

  datatype Step =
    | Env(a: Discovery.Step)
    | Start(i: nat, waits: bool, oneShot: bool)
    | MonitorTimeout(i: nat, k: nat)
    | Answer(i: nat, ok: bool)
    | Dispose(i: nat)

  /** What a step of the service's pipeline does to one operation. */
  function React(op: Op, d: Disco, a: Discovery.Step): Op {
    var op1 := if Pushes(d, a) then OnDictionary(op, Discovery.Next(d, a), false) else op;
    if a.Heartbeat? && d.conn.isConnected then OnBeat(op1, a.id, d.now)
    else if a.Closed? && Pushes(d, a) then OnLost(op1)
    else op1
  }

  function Next(w: World, a: Step): World {
    match a
    case Env(b) => World(Discovery.Next(w.d, b), map i | i in w.ops :: React(w.ops[i], w.d, b))
    case Start(i, waits, oneShot) =>
      if i in w.ops then w else w.(ops := w.ops[i := OnDictionary(NewOp(waits, oneShot), w.d, true)])
    case MonitorTimeout(i, k) => if i in w.ops then w.(ops := w.ops[i := OnMonitorTimeout(w.ops[i], k, w.d.now)]) else w
    case Answer(i, ok) => if i in w.ops then w.(ops := w.ops[i := OnAnswer(w.ops[i], ok)]) else w
    case Dispose(i) => if i in w.ops then w.(ops := w.ops[i := Finish(w.ops[i], Disposed)]) else w
  }

  function Run(steps: seq<Step>): World {
    if steps == [] then World(NOBODY, map[]) else Next(Run(Front(steps)), Last(steps))
  }

  /** The steps of the pipeline among all steps. */
  function EnvOf(steps: seq<Step>): seq<Discovery.Step> {
    if steps == [] then [] else EnvOf(Front(steps)) + if Last(steps).Env? then [Last(steps).a] else []
  }

  lemma {:induction false} RunsTheService(steps: seq<Step>)
    ensures Run(steps).d == Discovery.Run(EnvOf(steps))
  {
    if steps != [] {
      RunsTheService(Front(steps));
      var before := EnvOf(Front(steps));
      if Last(steps).Env? {
        assert Front(before + [Last(steps).a]) == before;
      } else {
        assert before + [] == before;
      }
    }
  }

  // ----- what every run keeps -----

  predicate IsOpen(op: Op) {
    op.ended.None?
  }

  /** A monitor's timer runs from the pick or from a later heartbeat. */
  predicate MonitorOk(m: Monitor, now: int, heard: map<string, Heard>) {
    && m.id in heard && m.since <= now && heard[m.id].at <= now
    && m.due == (if heard[m.id].at >= m.since then heard[m.id].at else m.since) + HEARTBEAT_TIMEOUT
  }

  ghost predicate OpOk(op: Op, now: int, heard: map<string, Heard>) {
    && |op.calls| <= 1 && |op.monitors| <= 2
    && (op.calls == [] <==> op.monitors == [])
    && (op.calls != [] ==> op.monitors[0].id == op.calls[0])
    && (op.search.Waiting? ==> op.calls == [])
    && (op.search.OnceMore? ==> |op.monitors| == 1)
    && (IsOpen(op) && op.search.Over? ==> op.calls != [])
    && (IsOpen(op) ==> forall k :: 0 <= k < |op.monitors| ==> MonitorOk(op.monitors[k], now, heard))
    && (IsOpen(op) && |op.monitors| == 2 ==> op.monitors[0].since <= op.monitors[1].since)
  }

  lemma DictionaryKeeps(op: Op, d: Disco, heard: map<string, Heard>, subscribing: bool)
    requires OpOk(op, d.now, heard) && Agrees(d, heard)
    requires subscribing ==> op.search.Waiting?
    ensures OpOk(OnDictionary(op, d, subscribing), d.now, heard)
  {
    LeastLoadedIsLeast(d);
    if LeastLoaded(d).Some? {
      var id := LeastLoaded(d).value;
      assert id in heard && InstanceOk(d, id, heard[id]);
    }
  }

  lemma BeatKeeps(op: Op, now: int, heard: map<string, Heard>, id: string, load: int)
    requires OpOk(op, now, heard)
    ensures OpOk(OnBeat(op, id, now), now, heard[id := Heard(now, load)])
  {
  }

  lemma PickedIsHeard(d: Disco, heard: map<string, Heard>)
    requires Agrees(d, heard) && LeastLoaded(d).Some?
    ensures LeastLoaded(d).value in heard && heard[LeastLoaded(d).value].at <= d.now
  {
    LeastLoadedIsLeast(d);
    assert InstanceOk(d, LeastLoaded(d).value, heard[LeastLoaded(d).value]);
  }

  /** A pushed dictionary and the heartbeat that caused it, in this order. */
  lemma BeatReactKeeps(op: Op, d: Disco, heard: map<string, Heard>, id: string, load: int)
    requires OpOk(op, d.now, heard) && Agrees(d, heard) && d.conn.isConnected
    ensures OpOk(React(op, d, Heartbeat(id, load)), d.now, heard[id := Heard(d.now, load)])
  {
    var d', heard' := Beat(d, id, load), heard[id := Heard(d.now, load)];
    if Pushes(d, Heartbeat(id, load)) && LeastLoaded(d').Some? && IsOpen(op) && !op.search.Over? {
      var x := LeastLoaded(d').value;
      assert x in heard' && heard'[x].at <= d.now by {
        BeatAgrees(d, heard, id, load);
        PickedIsHeard(d', heard');
      }
      PickThenBeat(op, d.now, heard, heard', x, id, load);
    } else if op.ended.Some? {
    } else if Pushes(d, Heartbeat(id, load)) && !op.search.Over? && !op.waits {
      assert React(op, d, Heartbeat(id, load)) == op.(ended := Some(NoService));
    } else {
      assert React(op, d, Heartbeat(id, load)) == OnBeat(op, id, d.now);
      BeatKeeps(op, d.now, heard, id, load);
    }
  }

  lemma PickThenBeat(op: Op, now: int, heard: map<string, Heard>, heard': map<string, Heard>, x: string, id: string, load: int)
    requires OpOk(op, now, heard) && IsOpen(op) && !op.search.Over?
    requires heard' == heard[id := Heard(now, load)] && x in heard' && heard'[x].at <= now
    ensures OpOk(OnBeat(Pick(op, x, now).(search := Over), id, now), now, heard')
  {
  }

  lemma LostKeeps(op: Op, d: Disco, now: int, heard: map<string, Heard>)
    requires OpOk(op, now, heard) && d.order == []
    ensures OpOk(OnLost(OnDictionary(op, d, false)), now, map[])
  {
  }

  lemma SameHeardKeeps(op: Op, now: int, now': int, heard: map<string, Heard>)
    requires OpOk(op, now, heard) && now <= now'
    ensures OpOk(op, now', heard)
  {
  }

  lemma ReactKeeps(op: Op, steps: seq<Discovery.Step>, a: Discovery.Step)
    requires OpOk(op, Discovery.Run(steps).now, HeardBeats(steps))
    ensures OpOk(React(op, Discovery.Run(steps), a), Discovery.Run(steps + [a]).now, HeardBeats(steps + [a]))
  {
    var d, heard := Discovery.Run(steps), HeardBeats(steps);
    HeardAgrees(steps);
    ReactStepKeeps(op, d, heard, a);
    BeatsSnoc(steps, a);
  }

  lemma ReactStepKeeps(op: Op, d: Disco, heard: map<string, Heard>, a: Discovery.Step)
    requires OpOk(op, d.now, heard) && Agrees(d, heard)
    ensures OpOk(React(op, d, a), Discovery.Next(d, a).now, HeardAfter(d, heard, a))
  {
    StepAgrees(d, heard, a);
    if a.Heartbeat? && d.conn.isConnected {
      BeatReactKeeps(op, d, heard, a.id, a.load);
    } else if a.Closed? && Pushes(d, a) {
      LostKeeps(op, Discovery.Next(d, a), d.now, heard);
    } else {
      QuietReactKeeps(op, d, heard, a);
    }
  }

  /** A step after which the same heartbeats count. */
  lemma QuietReactKeeps(op: Op, d: Disco, heard: map<string, Heard>, a: Discovery.Step)
    requires OpOk(op, d.now, heard) && Agrees(Discovery.Next(d, a), heard) && d.now <= Discovery.Next(d, a).now
    requires !(a.Heartbeat? && d.conn.isConnected) && !(a.Closed? && Pushes(d, a))
    ensures OpOk(React(op, d, a), Discovery.Next(d, a).now, heard)
  {
    if a.Timeout? {
      DictionaryKeeps(op, Discovery.Next(d, a), heard, false);
    } else {
      SameHeardKeeps(op, d.now, Discovery.Next(d, a).now, heard);
    }
  }

  lemma {:induction false} OpsOk(steps: seq<Step>)
    ensures forall i :: i in Run(steps).ops ==> OpOk(Run(steps).ops[i], Run(steps).d.now, HeardBeats(EnvOf(steps)))
  {
    if steps != [] {
      OpsOk(Front(steps));
      RunsTheService(Front(steps));
      var w, env, a := Run(Front(steps)), EnvOf(Front(steps)), Last(steps);
      forall i | i in Run(steps).ops ensures OpOk(Run(steps).ops[i], Run(steps).d.now, HeardBeats(EnvOf(steps))) {
        if a.Env? {
          ReactKeeps(w.ops[i], env, a.a);
        } else {
          assert env + [] == env;
          OwnStepKeeps(w, env, a, i);
        }
      }
    }
  }

  /** The steps that are not the pipeline's. */
  lemma OwnStepKeeps(w: World, env: seq<Discovery.Step>, a: Step, i: nat)
    requires w.d == Discovery.Run(env) && !a.Env?
    requires i in w.ops ==> OpOk(w.ops[i], w.d.now, HeardBeats(env))
    requires i in Next(w, a).ops
    ensures OpOk(Next(w, a).ops[i], w.d.now, HeardBeats(env))
  {
    if a.Start? && i !in w.ops {
      RunAgrees(env);
      DictionaryKeeps(NewOp(a.waits, a.oneShot), w.d, HeardBeats(env), true);
    }
  }

  // ----- main results -----

  /** Over its whole life an operation makes at most one remote call, and picks at most two instances. */
  lemma {:induction false} AtMostOneCall(steps: seq<Step>, i: nat)
    requires i in Run(steps).ops
    ensures |Run(steps).ops[i].calls| <= 1 && |Run(steps).ops[i].monitors| <= 2
    ensures IsOpen(Run(steps).ops[i]) ==> (Run(steps).ops[i].calls != [] <==> !Run(steps).ops[i].search.Waiting?)
  {
    OpsOk(steps);
    assert OpOk(Run(steps).ops[i], Run(steps).d.now, HeardBeats(EnvOf(steps)));
  }

  lemma OpStays(w: World, a: Step, i: nat)
    requires i in w.ops
    ensures i in Next(w, a).ops
    ensures w.ops[i].calls <= Next(w, a).ops[i].calls || w.ops[i].calls == []
    ensures w.ops[i].ended.Some? ==> Next(w, a).ops[i] == w.ops[i]
  {
  }

  /** Once ended, an operation does nothing more; once made, its call is never replaced. */
  lemma {:induction false} EndIsFinal(steps: seq<Step>, more: seq<Step>, i: nat)
    requires i in Run(steps).ops
    ensures i in Run(steps + more).ops
    ensures Run(steps).ops[i].ended.Some? ==> Run(steps + more).ops[i] == Run(steps).ops[i]
    ensures Run(steps).ops[i].calls <= Run(steps + more).ops[i].calls
  {
    if more == [] {
      assert steps + more == steps;
    } else {
      assert Front(steps + more) == steps + Front(more) && Last(steps + more) == Last(more);
      EndIsFinal(steps, Front(more), i);
      OpStays(Run(steps + Front(more)), Last(more), i);
    }
  }

  /** The step that makes the call: it goes to an instance that is then up, and no other that is up has
      less load; among equals it is the one heard first. */
  lemma {:induction false} CallGoesToTheLeastLoaded(steps: seq<Step>, a: Step, i: nat)
    requires i in Next(Run(steps), a).ops && Next(Run(steps), a).ops[i].calls != []
    requires i in Run(steps).ops ==> Run(steps).ops[i].calls == []
    ensures var w := Next(Run(steps), a);
            |w.ops[i].calls| == 1 && IsLeastUp(w.d, w.ops[i].calls[0])
  {
    NewCallIsLeast(Run(steps), a, i);
  }

  lemma NewCallIsLeast(w: World, a: Step, i: nat)
    requires i in Next(w, a).ops && Next(w, a).ops[i].calls != []
    requires i in w.ops ==> w.ops[i].calls == []
    ensures |Next(w, a).ops[i].calls| == 1 && IsLeastUp(Next(w, a).d, Next(w, a).ops[i].calls[0])
  {
    LeastLoadedIsLeast(Next(w, a).d);
  }

  /** If due timers were run before, the instance called was heard less than the timeout ago, in this
      epoch. */
  lemma {:induction false} CallGoesToALiveInstance(steps: seq<Step>, a: Step, i: nat)
    requires i in Next(Run(steps), a).ops && Next(Run(steps), a).ops[i].calls != []
    requires i in Run(steps).ops ==> Run(steps).ops[i].calls == []
    requires Quiescent(Next(Run(steps), a).d)
    ensures HeardLately(EnvOf(steps + [a]), Next(Run(steps), a).ops[i].calls[0])
  {
    assert Front(steps + [a]) == steps;
    CallGoesToTheLeastLoaded(steps, a, i);
    RunsTheService(steps + [a]);
    ShownExactly(EnvOf(steps + [a]));
  }

  /** Every due timer was run, those of the operations too. */
  ghost predicate AllQuiescent(w: World) {
    && Quiescent(w.d)
    && forall i :: i in w.ops && IsOpen(w.ops[i]) ==>
                     forall k :: 0 <= k < |w.ops[i].monitors| ==> w.ops[i].monitors[k].due > w.d.now
  }

  /** An operation stays open only while each instance it watches was heard, or picked, less than the
      timeout ago. So one whose instance is down ends at the latest one timeout after the pick. */
  lemma OpenMeansWatched(steps: seq<Step>, i: nat, k: nat)
    requires AllQuiescent(Run(steps)) && i in Run(steps).ops && IsOpen(Run(steps).ops[i])
    requires k < |Run(steps).ops[i].monitors|
    ensures var w, m := Run(steps), Run(steps).ops[i].monitors[k];
            HeardLately(EnvOf(steps), m.id) || w.d.now - m.since < HEARTBEAT_TIMEOUT
  {
    OpsOk(steps);
    RunsTheService(steps);
    RunAgrees(EnvOf(steps));
    assert OpOk(Run(steps).ops[i], Run(steps).d.now, HeardBeats(EnvOf(steps)));
  }

  /** The operation's timer and the dictionary's are the same exactly when the instance was heard since
      it was picked; if not, the dictionary shows it down first and the operation is still open. */
  lemma {:induction false} TimersCoincide(steps: seq<Step>, i: nat, k: nat)
    requires i in Run(steps).ops && IsOpen(Run(steps).ops[i]) && k < |Run(steps).ops[i].monitors|
    ensures var w, m := Run(steps), Run(steps).ops[i].monitors[k];
            var heard := HeardBeats(EnvOf(steps));
            && m.id in heard
            && (m.id in w.d.timers ==>
                  && w.d.timers[m.id] <= m.due
                  && (w.d.timers[m.id] == m.due <==> heard[m.id].at >= m.since))
  {
    OpsOk(steps);
    RunsTheService(steps);
    RunAgrees(EnvOf(steps));
    var w, heard := Run(steps), HeardBeats(EnvOf(steps));
    assert OpOk(w.ops[i], w.d.now, heard);
    var m := w.ops[i].monitors[k];
    assert InstanceOk(w.d, m.id, heard[m.id]);
  }

  /** A monitor's timer ends an open operation exactly when neither a pick nor a heartbeat came for the
      whole timeout. */
  lemma {:induction false} MonitorEndsExactly(steps: seq<Step>, i: nat, k: nat)
    requires i in Run(steps).ops && IsOpen(Run(steps).ops[i]) && k < |Run(steps).ops[i].monitors|
    ensures var w, m := Run(steps), Run(steps).ops[i].monitors[k];
            Next(w, MonitorTimeout(i, k)).ops[i].ended == Some(InstanceDown) <==>
            !HeardLately(EnvOf(steps), m.id) && w.d.now - m.since >= HEARTBEAT_TIMEOUT
  {
    OpsOk(steps);
    RunsTheService(steps);
    RunAgrees(EnvOf(steps));
    assert OpOk(Run(steps).ops[i], Run(steps).d.now, HeardBeats(EnvOf(steps)));
  }

  /** The pipeline ends an open operation in two cases only: it is still looking, will not wait, and no
      instance is up in a dictionary just pushed; or it watches an instance and the epoch ended. */
  lemma {:induction false} PipelineEndsExactly(steps: seq<Step>, a: Discovery.Step, i: nat)
    requires i in Run(steps).ops && IsOpen(Run(steps).ops[i])
    ensures var w, op := Run(steps), Run(steps).ops[i];
            var d' := Discovery.Next(w.d, a);
            !IsOpen(Next(w, Env(a)).ops[i]) <==>
            Pushes(w.d, a) && ((!op.waits && !op.search.Over? && !ServiceUp(d')) || (a.Closed? && op.calls != []))
  {
    OpsOk(steps);
    RunsTheService(steps);
    RunAgrees(EnvOf(steps));
    var w := Run(steps);
    assert OpOk(w.ops[i], w.d.now, HeardBeats(EnvOf(steps)));
    ReactEndsExactly(w.ops[i], w.d, a);
  }

  lemma ReactEndsExactly(op: Op, d: Disco, a: Discovery.Step)
    requires IsOpen(op) && (op.calls == [] <==> op.monitors == [])
    ensures var d' := Discovery.Next(d, a);
            !IsOpen(React(op, d, a)) <==>
            Pushes(d, a) && ((!op.waits && !op.search.Over? && !ServiceUp(d')) || (a.Closed? && op.calls != []))
  {
    LeastLoadedIsLeast(Discovery.Next(d, a));
  }

  // ----- ended by an instance it never called -----

  /** It watches, by a second pick, an instance other than the one it called. */
  predicate WatchesStranger(op: Op) {
    |op.monitors| == 2 && op.calls != [] && op.monitors[1].id != op.calls[0]
  }

  /** When a timer ends an operation: the instance it called was heard less than the timeout ago if and only
      if the timer is that of a second pick, on another instance, and the first pick's is not due too. */
  lemma {:induction false} EndedByAStrangerExactly(steps: seq<Step>, i: nat, k: nat)
    requires i in Run(steps).ops && IsOpen(Run(steps).ops[i]) && k < |Run(steps).ops[i].monitors|
    requires Next(Run(steps), MonitorTimeout(i, k)).ops[i].ended == Some(InstanceDown)
    ensures var w, op := Run(steps), Run(steps).ops[i];
            && op.calls != []
            && (HeardLately(EnvOf(steps), op.calls[0]) <==>
                k == 1 && WatchesStranger(op) && op.monitors[0].due > w.d.now)
  {
    OpsOk(steps);
    RunsTheService(steps);
    RunAgrees(EnvOf(steps));
    StrangerTimer(Run(steps).ops[i], Run(steps).d.now, HeardBeats(EnvOf(steps)), k);
  }

  lemma StrangerTimer(op: Op, now: int, heard: map<string, Heard>, k: nat)
    requires OpOk(op, now, heard) && IsOpen(op) && k < |op.monitors| && op.monitors[k].due <= now
    ensures op.calls != [] && op.calls[0] in heard
    ensures now - heard[op.calls[0]].at < HEARTBEAT_TIMEOUT <==>
            k == 1 && WatchesStranger(op) && op.monitors[0].due > now
  {
    assert MonitorOk(op.monitors[0], now, heard) && MonitorOk(op.monitors[k], now, heard);
  }

  /** The operation was started at step s while the service was up, so it picked at once. */
  ghost predicate StartsUp(steps: seq<Step>, s: nat, i: nat) {
    && s < |steps| && steps[s].Start? && steps[s].i == i
    && i !in Run(steps[..s]).ops && ServiceUp(Run(steps[..s]).d)
  }

  /** Step u pushes a dictionary in which some instance is up. */
  ghost predicate OffersAt(steps: seq<Step>, u: nat) {
    && u < |steps| && steps[u].Env? && Pushes(Run(steps[..u]).d, steps[u].a)
    && ServiceUp(Discovery.Next(Run(steps[..u]).d, steps[u].a))
  }

  /** Since that start no dictionary with an instance up was pushed. */
  ghost predicate NothingOfferedSince(steps: seq<Step>, s: nat, i: nat) {
    StartsUp(steps, s, i) && forall u: nat :: s < u < |steps| ==> !OffersAt(steps, u)
  }

  ghost predicate IsOpenIn(w: World, i: nat) {
    i in w.ops && IsOpen(w.ops[i])
  }

  /** Step t is the first offer after the start, the operation is still open, and the least loaded instance
      is another one than at the start. */
  ghost predicate PicksStranger(steps: seq<Step>, i: nat, s: nat, t: nat) {
    && t < |steps| && s < t && NothingOfferedSince(steps[..t], s, i) && IsOpenIn(Run(steps[..t]), i)
    && OffersAt(steps, t)
    && LeastLoaded(Discovery.Next(Run(steps[..t]).d, steps[t].a)) != LeastLoaded(Run(steps[..s]).d)
  }

  /** Its one call went to the instance that was least loaded at step s. */
  ghost predicate CalledAt(steps: seq<Step>, s: nat, op: Op)
    requires s <= |steps|
  {
    |op.calls| == 1 && LeastLoaded(Run(steps[..s]).d) == Some(op.calls[0])
  }

  ghost predicate Traced(steps: seq<Step>, i: nat) {
    i in Run(steps).ops ==>
      var op := Run(steps).ops[i];
      && (IsOpen(op) ==> (op.search.OnceMore? <==> exists s: nat :: NothingOfferedSince(steps, s, i)))
      && (forall s: nat :: StartsUp(steps, s, i) ==> CalledAt(steps, s, op))
      && (WatchesStranger(op) <==> exists s: nat, t: nat :: PicksStranger(steps, i, s, t))
  }

  lemma PrefixOf(front: seq<Step>, a: Step, n: nat)
    requires n <= |front|
    ensures (front + [a])[..n] == front[..n]
  {
  }

  lemma {:induction false} StartsUpSnoc(front: seq<Step>, a: Step, s: nat, i: nat)
    ensures StartsUp(front + [a], s, i) <==>
            StartsUp(front, s, i) || (s == |front| && a.Start? && a.i == i && i !in Run(front).ops && ServiceUp(Run(front).d))
  {
    if s <= |front| {
      PrefixOf(front, a, s);
      assert front[..|front|] == front;
    }
  }

  lemma {:induction false} OffersSnoc(front: seq<Step>, a: Step, u: nat)
    ensures OffersAt(front + [a], u) <==>
            OffersAt(front, u)
            || (u == |front| && a.Env? && Pushes(Run(front).d, a.a) && ServiceUp(Discovery.Next(Run(front).d, a.a)))
  {
    if u <= |front| {
      PrefixOf(front, a, u);
      assert front[..|front|] == front;
    }
  }

  lemma {:induction false} PicksSnoc(front: seq<Step>, a: Step, i: nat, s: nat, t: nat)
    ensures PicksStranger(front + [a], i, s, t) <==>
            || PicksStranger(front, i, s, t)
            || (&& t == |front| && s < t && NothingOfferedSince(front, s, i) && IsOpenIn(Run(front), i)
                && OffersAt(front + [a], t)
                && LeastLoaded(Discovery.Next(Run(front).d, a.a)) != LeastLoaded(Run(front[..s]).d))
  {
    if s < t <= |front| {
      PrefixOf(front, a, t);
      PrefixOf(front, a, s);
      OffersSnoc(front, a, t);
      assert front[..|front|] == front;
    }
  }

  /** What a step does to the ids an operation watches and to its search. */
  lemma WatchStep(w: World, a: Step, i: nat)
    requires i in w.ops
    ensures i in Next(w, a).ops
    ensures var op, op' := w.ops[i], Next(w, a).ops[i];
            var offers := a.Env? && Pushes(w.d, a.a) && ServiceUp(Discovery.Next(w.d, a.a));
            if IsOpen(op) && !op.search.Over? && offers then
              && |op'.monitors| == |op.monitors| + 1 && op'.search.Over?
              && (forall k :: 0 <= k < |op.monitors| ==> op'.monitors[k].id == op.monitors[k].id)
              && LeastLoaded(Discovery.Next(w.d, a.a)) == Some(Last(op'.monitors).id)
            else
              && |op'.monitors| == |op.monitors| && op'.search == op.search
              && (forall k :: 0 <= k < |op.monitors| ==> op'.monitors[k].id == op.monitors[k].id)
    ensures Next(w, a).ops[i].ended == w.ops[i].ended || Next(w, a).ops[i].ended.Some?
  {
    if a.Env? {
      LeastLoadedIsLeast(Discovery.Next(w.d, a.a));
    }
  }

  lemma {:induction false} StaysIn(steps: seq<Step>, t: nat, i: nat)
    requires t <= |steps| && i in Run(steps[..t]).ops
    ensures i in Run(steps).ops
  {
    assert steps[..t] + steps[t..] == steps;
    EndIsFinal(steps[..t], steps[t..], i);
  }

  lemma StartedIsIn(steps: seq<Step>, s: nat, i: nat)
    requires StartsUp(steps, s, i)
    ensures i in Run(steps).ops
  {
    assert Front(steps[..s + 1]) == steps[..s] && Last(steps[..s + 1]) == steps[s];
    StaysIn(steps, s + 1, i);
  }

  /** The step that starts the operation. */
  lemma {:induction false} TracedFirst(front: seq<Step>, a: Step, i: nat)
    requires i !in Run(front).ops && i in Run(front + [a]).ops
    ensures Traced(front + [a], i)
  {
    var steps := front + [a];
    assert Front(steps) == front;
    LeastLoadedIsLeast(Run(front).d);
    forall s: nat ensures StartsUp(steps, s, i) <==> s == |front| && ServiceUp(Run(front).d) {
      StartsUpSnoc(front, a, s, i);
      if StartsUp(front, s, i) {
        StartedIsIn(front, s, i);
      }
    }
    assert steps[..|front|] == front;
    forall s: nat, t: nat ensures !PicksStranger(steps, i, s, t) {
      PicksSnoc(front, a, i, s, t);
      if PicksStranger(front, i, s, t) {
        StaysIn(front, t, i);
      }
    }
    if ServiceUp(Run(front).d) {
      assert NothingOfferedSince(steps, |front|, i);
    }
  }

  predicate Offers(w: World, a: Step) {
    a.Env? && Pushes(w.d, a.a) && ServiceUp(Discovery.Next(w.d, a.a))
  }

  lemma {:induction false} NothingOfferedSnoc(front: seq<Step>, a: Step, s: nat, i: nat)
    requires i in Run(front).ops
    ensures NothingOfferedSince(front + [a], s, i) <==> NothingOfferedSince(front, s, i) && !Offers(Run(front), a)
  {
    StartsUpSnoc(front, a, s, i);
    forall u: nat ensures OffersAt(front + [a], u) <==> OffersAt(front, u) || (u == |front| && Offers(Run(front), a)) {
      OffersSnoc(front, a, u);
    }
    assert OffersAt(front + [a], |front|) <==> Offers(Run(front), a);
  }

  /** A step of an operation that exists: its search and its call. */
  lemma {:induction false} TracedSearch(front: seq<Step>, a: Step, i: nat)
    requires i in Run(front).ops && Traced(front, i) && OpOk(Run(front).ops[i], Run(front).d.now, HeardBeats(EnvOf(front)))
    ensures i in Run(front + [a]).ops
    ensures var op := Run(front + [a]).ops[i];
            && (IsOpen(op) ==> (op.search.OnceMore? <==> exists s: nat :: NothingOfferedSince(front + [a], s, i)))
            && (forall s: nat :: StartsUp(front + [a], s, i) ==> CalledAt(front + [a], s, op))
  {
    var w := Run(front);
    assert Front(front + [a]) == front;
    WatchStep(w, a, i);
    OpStays(w, a, i);
    forall s: nat ensures NothingOfferedSince(front + [a], s, i) <==> NothingOfferedSince(front, s, i) && !Offers(w, a) {
      NothingOfferedSnoc(front, a, s, i);
    }
    forall s: nat | StartsUp(front + [a], s, i) ensures CalledAt(front + [a], s, Run(front + [a]).ops[i]) {
      StartsUpSnoc(front, a, s, i);
      PrefixOf(front, a, s);
      CallsStay(w, a, i);
    }
  }

  /** A call once made is never followed by another. */
  lemma CallsStay(w: World, a: Step, i: nat)
    requires i in w.ops && w.ops[i].calls != []
    ensures i in Next(w, a).ops && Next(w, a).ops[i].calls == w.ops[i].calls
  {
  }

  /** And whether it watches a stranger. */
  lemma {:induction false} TracedPicks(front: seq<Step>, a: Step, i: nat)
    requires i in Run(front).ops && Traced(front, i) && OpOk(Run(front).ops[i], Run(front).d.now, HeardBeats(EnvOf(front)))
    ensures i in Run(front + [a]).ops
    ensures WatchesStranger(Run(front + [a]).ops[i]) <==> exists s: nat, t: nat :: PicksStranger(front + [a], i, s, t)
  {
    var w := Run(front);
    var op := w.ops[i];
    assert Front(front + [a]) == front;
    WatchStep(w, a, i);
    if IsOpen(op) && op.search.OnceMore? && Offers(w, a) {
      SecondPickTraced(front, a, i);
    } else {
      NoPickTraced(front, a, i);
    }
  }

  lemma SecondPickTraced(front: seq<Step>, a: Step, i: nat)
    requires i in Run(front).ops && Traced(front, i) && OpOk(Run(front).ops[i], Run(front).d.now, HeardBeats(EnvOf(front)))
    requires IsOpen(Run(front).ops[i]) && Run(front).ops[i].search.OnceMore? && Offers(Run(front), a)
    ensures i in Run(front + [a]).ops
    ensures WatchesStranger(Run(front + [a]).ops[i]) <==> exists s: nat, t: nat :: PicksStranger(front + [a], i, s, t)
  {
    var w := Run(front);
    assert Front(front + [a]) == front;
    WatchStep(w, a, i);
    CallsStay(w, a, i);
    OffersSnoc(front, a, |front|);
    var s0: nat :| NothingOfferedSince(front, s0, i);
    assert CalledAt(front, s0, w.ops[i]);
    PicksSnoc(front, a, i, s0, |front|);
    assert forall s: nat, t: nat :: !PicksStranger(front, i, s, t);
    forall s: nat, t: nat | PicksStranger(front + [a], i, s, t) ensures WatchesStranger(Run(front + [a]).ops[i]) {
      PicksSnoc(front, a, i, s, t);
      assert StartsUp(front, s, i);
    }
  }

  lemma {:induction false} NoPickTraced(front: seq<Step>, a: Step, i: nat)
    requires i in Run(front).ops && Traced(front, i) && OpOk(Run(front).ops[i], Run(front).d.now, HeardBeats(EnvOf(front)))
    requires !(IsOpen(Run(front).ops[i]) && Run(front).ops[i].search.OnceMore? && Offers(Run(front), a))
    ensures i in Run(front + [a]).ops
    ensures WatchesStranger(Run(front + [a]).ops[i]) <==> exists s: nat, t: nat :: PicksStranger(front + [a], i, s, t)
  {
    var w := Run(front);
    assert Front(front + [a]) == front;
    WatchStep(w, a, i);
    if w.ops[i].calls != [] {
      CallsStay(w, a, i);
    }
    assert WatchesStranger(Run(front + [a]).ops[i]) <==> WatchesStranger(w.ops[i]);
    forall s: nat, t: nat ensures PicksStranger(front + [a], i, s, t) <==> PicksStranger(front, i, s, t) {
      PicksSnoc(front, a, i, s, t);
      OffersSnoc(front, a, |front|);
    }
  }

  lemma {:induction false} EveryRunIsTraced(steps: seq<Step>, i: nat)
    ensures Traced(steps, i)
  {
    if steps != [] {
      var front, a := Front(steps), Last(steps);
      assert steps == front + [a];
      EveryRunIsTraced(front, i);
      if i in Run(front).ops {
        OpsOk(front);
        TracedSearch(front, a, i);
        TracedPicks(front, a, i);
      } else if i in Run(steps).ops {
        TracedFirst(front, a, i);
      }
    }
  }

  /** In every run an operation watches a stranger if and only if it was started while the service was up,
      was still open when a dictionary with an instance up was next pushed, and the least loaded instance
      was then another one. */
  lemma {:induction false} StrangerExactly(steps: seq<Step>, i: nat)
    requires i in Run(steps).ops
    ensures WatchesStranger(Run(steps).ops[i]) <==> exists s: nat, t: nat :: PicksStranger(steps, i, s, t)
  {
    EveryRunIsTraced(steps, i);
  }

  // ----- two runs worth knowing -----

  lemma StrictlyLeast(d: Disco, x: string)
    requires x in d.order && IsUp(d, x)
    requires forall y :: y in d.order && y != x && IsUp(d, y) ==> d.shown[x].load < d.shown[y].load
    ensures LeastLoaded(d) == Some(x)
  {
    LeastLoadedIsLeast(d);
    var i: nat :| EarliestLeast(ByLoad(d), d.order, i) && d.order[i] == LeastLoaded(d).value;
    assert d.order[i] in d.order;
  }

  lemma Then(steps: seq<Step>, w: World, a: Step, w': World)
    requires Run(steps) == w && Next(w, a) == w'
    ensures Run(steps + [a]) == w'
  {
  }

  const ONLINE := Connection.Conn(true, true, true, Connection.Connected, Some(Connection.DISCONNECT_SESSION_AFTER))

  /** A connected browser that heard instance A once. */
  lemma HeardOnce(load: int)
    ensures Run([Env(Connect), Env(Opened), Env(Heartbeat("A", load))]) ==
            World(Disco(0, ONLINE, ["A"], map["A" := Up(load)], map["A" := 3000]), map[])
  {
    var s1, s2 := [Env(Connect)], [Env(Connect), Env(Opened)];
    var w0 := World(NOBODY, map[]);
    var w1 := World(NOBODY.(conn := Connection.NOT_CONNECTED.(connectCalled := true, attached := true)), map[]);
    var w2 := World(NOBODY.(conn := ONLINE), map[]);
    assert Next(w0, Env(Connect)).ops == map[];
    Then([], w0, Env(Connect), w1);
    assert [] + [Env(Connect)] == s1;
    assert Next(w1, Env(Opened)).ops == map[];
    Then(s1, w1, Env(Opened), w2);
    assert s1 + [Env(Opened)] == s2;
    var w3 := World(Disco(0, ONLINE, ["A"], map["A" := Up(load)], map["A" := 3000]), map[]);
    assert Next(w2, Env(Heartbeat("A", load))).ops == map[];
    assert w2.d.order + ["A"] == ["A"] && w2.d.shown["A" := Up(load)] == w3.d.shown && w2.d.timers["A" := 3000] == w3.d.timers;
    Then(s2, w2, Env(Heartbeat("A", load)), w3);
    assert s2 + [Env(Heartbeat("A", load))] == [Env(Connect), Env(Opened), Env(Heartbeat("A", load))];
  }

  const ONE_UP := Disco(0, ONLINE, ["A"], map["A" := Up(1)], map["A" := 3000])
  const LATE := Op(true, false, OnceMore, [Monitor("A", 2999, 5999)], ["A"], None)

  lemma StartLate(s: seq<Step>)
    requires Run(s) == World(ONE_UP, map[])
    ensures Run(s + [Env(Tick(2999))] + [Start(0, true, false)]) == World(ONE_UP.(now := 2999), map[0 := LATE])
  {
    var d := ONE_UP.(now := 2999);
    assert Next(World(ONE_UP, map[]), Env(Tick(2999))).ops == map[];
    Then(s, World(ONE_UP, map[]), Env(Tick(2999)), World(d, map[]));
    StrictlyLeast(d, "A");
    assert [] + [Monitor("A", 2999, 5999)] == LATE.monitors;
    Then(s + [Env(Tick(2999))], World(d, map[]), Start(0, true, false), World(d, map[0 := LATE]));
  }

  lemma TimeOutSoon(s: seq<Step>)
    requires Run(s) == World(ONE_UP.(now := 2999), map[0 := LATE])
    ensures Run(s + [Env(Tick(1))] + [Env(Timeout("A"))]) == World(Disco(3000, ONLINE, ["A"], map["A" := Down], map[]), map[0 := LATE])
  {
  }

  /** Every due timer was run, the service shows down, and operation 0 is open and has called A. */
  ghost predicate DownAndOpen(steps: seq<Step>) {
    var w := Run(steps);
    && AllQuiescent(w) && !ServiceUp(w.d)
    && 0 in w.ops && IsOpen(w.ops[0]) && w.ops[0].calls == ["A"]
  }

  lemma LateRun()
    ensures DownAndOpen([Env(Connect), Env(Opened), Env(Heartbeat("A", 1))] + [Env(Tick(2999))] + [Start(0, true, false)]
                        + [Env(Tick(1))] + [Env(Timeout("A"))])
  {
    var s := [Env(Connect), Env(Opened), Env(Heartbeat("A", 1))];
    HeardOnce(1);
    StartLate(s);
    TimeOutSoon(s + [Env(Tick(2999))] + [Start(0, true, false)]);
  }

  /** Started just before its instance times out, an operation is still open when the service shows down
      and every due timer was run. */
  lemma OpenWhileDown()
    ensures DownAndOpen([Env(Connect), Env(Opened), Env(Heartbeat("A", 1)), Env(Tick(2999)), Start(0, true, false),
                         Env(Tick(1)), Env(Timeout("A"))])
  {
    LateRun();
    assert [Env(Connect), Env(Opened), Env(Heartbeat("A", 1))] + [Env(Tick(2999))] + [Start(0, true, false)]
           + [Env(Tick(1))] + [Env(Timeout("A"))]
           == [Env(Connect), Env(Opened), Env(Heartbeat("A", 1)), Env(Tick(2999)), Start(0, true, false),
               Env(Tick(1)), Env(Timeout("A"))];
  }

  /** The second pick makes an operation watch an instance it never called: it ends when that one goes
      down, although the one that serves it is up. */
  lemma EndedByAStranger()
    ensures var steps := [Env(Connect), Env(Opened), Env(Heartbeat("A", 5)), Start(0, true, false), Env(Heartbeat("B", 1)),
                          Env(Tick(2000)), Env(Heartbeat("A", 5)), Env(Tick(1000)), MonitorTimeout(0, 1)];
            EndedWithAUp(steps)
  {
    var s := [Env(Connect), Env(Opened), Env(Heartbeat("A", 5))] + [Start(0, true, false)] + [Env(Heartbeat("B", 1))];
    StrangerRun();
    assert s + [Env(Tick(2000))] + [Env(Heartbeat("A", 5))] + [Env(Tick(1000))] + [MonitorTimeout(0, 1)]
           == [Env(Connect), Env(Opened), Env(Heartbeat("A", 5)), Start(0, true, false), Env(Heartbeat("B", 1)),
               Env(Tick(2000)), Env(Heartbeat("A", 5)), Env(Tick(1000)), MonitorTimeout(0, 1)];
  }

  ghost predicate EndedWithAUp(steps: seq<Step>) {
    var w := Run(steps);
    && 0 in w.ops && w.ops[0].calls == ["A"] && w.ops[0].ended == Some(InstanceDown)
    && IsUp(w.d, "A") && HeardLately(EnvOf(steps), "A")
  }

  lemma StrangerRun()
    ensures var s := [Env(Connect), Env(Opened), Env(Heartbeat("A", 5))] + [Start(0, true, false)] + [Env(Heartbeat("B", 1))];
            EndedWithAUp(s + [Env(Tick(2000))] + [Env(Heartbeat("A", 5))] + [Env(Tick(1000))] + [MonitorTimeout(0, 1)])
  {
    var s := [Env(Connect), Env(Opened), Env(Heartbeat("A", 5))];
    HeardOnce(5);
    FirstPick(s);
    SecondPick(s + [Start(0, true, false)]);
    LaterBeat(s + [Start(0, true, false)] + [Env(Heartbeat("B", 1))]);
    UpMeansHeard(s + [Start(0, true, false)] + [Env(Heartbeat("B", 1))] + [Env(Tick(2000))] + [Env(Heartbeat("A", 5))]
                 + [Env(Tick(1000))] + [MonitorTimeout(0, 1)], "A");
  }

  const FIVE_UP := Disco(0, ONLINE, ["A"], map["A" := Up(5)], map["A" := 3000])
  const PICKED_A := Op(true, false, OnceMore, [Monitor("A", 0, 3000)], ["A"], None)

  lemma FirstPick(s: seq<Step>)
    requires Run(s) == World(FIVE_UP, map[])
    ensures Run(s + [Start(0, true, false)]) == World(FIVE_UP, map[0 := PICKED_A])
  {
    StrictlyLeast(FIVE_UP, "A");
    assert [] + [Monitor("A", 0, 3000)] == PICKED_A.monitors;
    Then(s, World(FIVE_UP, map[]), Start(0, true, false), World(FIVE_UP, map[0 := PICKED_A]));
  }

  lemma UpMeansHeard(steps: seq<Step>, id: string)
    requires id in Run(steps).d.timers && Run(steps).d.timers[id] > Run(steps).d.now
    ensures HeardLately(EnvOf(steps), id)
  {
    RunsTheService(steps);
    RunAgrees(EnvOf(steps));
    assert InstanceOk(Run(steps).d, id, HeardBeats(EnvOf(steps))[id]);
  }

  const TWO_UP := Disco(0, ONLINE, ["A", "B"], map["A" := Up(5), "B" := Up(1)], map["A" := 3000, "B" := 3000])
  const BOTH := Op(true, false, Over, [Monitor("A", 0, 3000), Monitor("B", 0, 3000)], ["A"], None)

  lemma BeatB()
    ensures Beat(FIVE_UP, "B", 1) == TWO_UP
  {
    assert FIVE_UP.order + ["B"] == TWO_UP.order && FIVE_UP.shown["B" := Up(1)] == TWO_UP.shown
           && FIVE_UP.timers["B" := 3000] == TWO_UP.timers;
  }

  lemma PickB()
    ensures React(PICKED_A, FIVE_UP, Heartbeat("B", 1)) == BOTH
  {
    BeatB();
    StrictlyLeast(TWO_UP, "B");
    assert OnDictionary(PICKED_A, TWO_UP, false) == BOTH by {
      assert PICKED_A.monitors + [Monitor("B", 0, 3000)] == BOTH.monitors;
    }
    assert Restart(BOTH.monitors, "B", 0) == BOTH.monitors;
  }

  lemma SecondPick(s: seq<Step>)
    requires Run(s) == World(FIVE_UP, map[0 := PICKED_A])
    ensures Run(s + [Env(Heartbeat("B", 1))]) == World(TWO_UP, map[0 := BOTH])
  {
    BeatB();
    PickB();
    assert Next(World(FIVE_UP, map[0 := PICKED_A]), Env(Heartbeat("B", 1))).ops == map[0 := BOTH];
    Then(s, World(FIVE_UP, map[0 := PICKED_A]), Env(Heartbeat("B", 1)), World(TWO_UP, map[0 := BOTH]));
  }

  lemma LaterBeat(s: seq<Step>)
    requires Run(s) == World(TWO_UP, map[0 := BOTH])
    ensures var w := Run(s + [Env(Tick(2000))] + [Env(Heartbeat("A", 5))] + [Env(Tick(1000))] + [MonitorTimeout(0, 1)]);
            && w.d == Disco(3000, ONLINE, ["A", "B"], TWO_UP.shown, map["A" := 5000, "B" := 3000])
            && 0 in w.ops && w.ops[0].calls == ["A"] && w.ops[0].ended == Some(InstanceDown)
  {
    var w1 := World(TWO_UP.(now := 2000), map[0 := BOTH]);
    assert Next(World(TWO_UP, map[0 := BOTH]), Env(Tick(2000))).ops == map[0 := BOTH];
    Then(s, World(TWO_UP, map[0 := BOTH]), Env(Tick(2000)), w1);
    var later := BOTH.(monitors := [Monitor("A", 0, 5000), Monitor("B", 0, 3000)]);
    var d2 := Disco(2000, ONLINE, ["A", "B"], TWO_UP.shown, map["A" := 5000, "B" := 3000]);
    assert Beat(w1.d, "A", 5) == d2 by {
      assert w1.d.timers["A" := 5000] == d2.timers;
    }
    assert Restart(BOTH.monitors, "A", 2000) == later.monitors;
    assert Next(w1, Env(Heartbeat("A", 5))).ops == map[0 := later];
    Then(s + [Env(Tick(2000))], w1, Env(Heartbeat("A", 5)), World(d2, map[0 := later]));
    var w3 := World(d2.(now := 3000), map[0 := later]);
    assert Next(World(d2, map[0 := later]), Env(Tick(1000))).ops == map[0 := later];
    Then(s + [Env(Tick(2000))] + [Env(Heartbeat("A", 5))], World(d2, map[0 := later]), Env(Tick(1000)), w3);
    Then(s + [Env(Tick(2000))] + [Env(Heartbeat("A", 5))] + [Env(Tick(1000))], w3, MonitorTimeout(0, 1), Next(w3, MonitorTimeout(0, 1)));
  }
}
