/** What each step does to an operation, told from what happened: which steps end it and how, and what
    all others leave as it was. */
module OperationSteps {
  import opened Prelude
  import opened Discovery
  import opened Operations

  /** It still listens to the pushed dictionaries. */
  predicate Searching(op: Op) {
    op.search.Waiting? || op.search.OnceMore?
  }

  /** Neither a heartbeat of the watched instance nor the pick itself in the last three seconds. */
  ghost predicate Silent(steps: seq<Operations.Step>, m: Monitor) {
    var now, heard := Clock(EnvOf(steps)), HeardBeats(EnvOf(steps));
    now - m.since >= 3000 && (m.id in heard ==> now - heard[m.id].at >= 3000)
  }

  /** The end that a step calls for, if any, for an operation that is open. */
  ghost function EndCalledFor(steps: seq<Operations.Step>, a: Operations.Step, i: nat): Option<End>
    requires i in Operations.Run(steps).ops
  {
    var w, op := Operations.Run(steps), Operations.Run(steps).ops[i];
    match a
    case Env(b) =>
      if !Pushes(w.d, b) then None
      else if Searching(op) && !op.waits && !ServiceUp(Discovery.Next(w.d, b)) then Some(NoService)
      else if b.Closed? && op.calls != [] then Some(ConnectionLost)
      else None
    case MonitorTimeout(j, k) =>
      if j == i && k < |op.monitors| && Silent(steps, op.monitors[k]) then Some(InstanceDown) else None
    case Answer(j, ok) =>
      if j != i || op.calls == [] then None
      else if !ok then Some(CallFailed)
      else if op.oneShot then Some(Completed)
      else None
    case Dispose(j) => if j == i then Some(Disposed) else None
    case Start(_, _, _) => None
  }

  ghost predicate OpenIn(steps: seq<Operations.Step>, i: nat) {
    i in Operations.Run(steps).ops && IsOpen(Operations.Run(steps).ops[i])
  }

  lemma RunSnoc(steps: seq<Operations.Step>, a: Operations.Step)
    ensures Operations.Run(steps + [a]) == Operations.Next(Operations.Run(steps), a)
  {
  }

  /** In every run, the steps that end an open operation are these and no others, and each ends it so. */
  lemma EndsExactly(steps: seq<Operations.Step>, a: Operations.Step, i: nat)
    requires OpenIn(steps, i)
    ensures i in Operations.Run(steps + [a]).ops
    ensures Operations.Run(steps + [a]).ops[i].ended == EndCalledFor(steps, a, i)
  {
    RunSnoc(steps, a);
    OpStays(Operations.Run(steps), a, i);
    if a.Env? {
      PipelineEnds(steps, a.a, i);
    } else {
      OwnStepEnds(steps, a, i);
    }
  }

  lemma {:induction false} PipelineEnds(steps: seq<Operations.Step>, b: Discovery.Step, i: nat)
    requires OpenIn(steps, i)
    ensures React(Operations.Run(steps).ops[i], Operations.Run(steps).d, b).ended == EndCalledFor(steps, Env(b), i)
  {
    OpsOk(steps);
    PushEnds(Operations.Run(steps).ops[i], Operations.Run(steps).d, b);
  }

  lemma {:induction false} OwnStepEnds(steps: seq<Operations.Step>, a: Operations.Step, i: nat)
    requires OpenIn(steps, i) && !a.Env?
    ensures i in Operations.Next(Operations.Run(steps), a).ops
    ensures Operations.Next(Operations.Run(steps), a).ops[i].ended == EndCalledFor(steps, a, i)
  {
    var w := Operations.Run(steps);
    if a.MonitorTimeout? && a.i == i && a.k < |w.ops[i].monitors| {
      TimerAgrees(steps, i, a.k);
    }
  }

  lemma {:induction false} TimerAgrees(steps: seq<Operations.Step>, i: nat, k: nat)
    requires OpenIn(steps, i) && k < |Operations.Run(steps).ops[i].monitors|
    ensures Operations.Run(steps).ops[i].monitors[k].due <= Operations.Run(steps).d.now
            <==> Silent(steps, Operations.Run(steps).ops[i].monitors[k])
  {
    OpsOk(steps);
    RunsTheService(steps);
    RunAgrees(EnvOf(steps));
    DueMeansSilent(steps, Operations.Run(steps).ops[i], k);
  }

  lemma DueMeansSilent(steps: seq<Operations.Step>, op: Op, k: nat)
    requires OpOk(op, Clock(EnvOf(steps)), HeardBeats(EnvOf(steps))) && IsOpen(op) && k < |op.monitors|
    ensures op.monitors[k].due <= Clock(EnvOf(steps)) <==> Silent(steps, op.monitors[k])
  {
    assert MonitorOk(op.monitors[k], Clock(EnvOf(steps)), HeardBeats(EnvOf(steps)));
  }

  lemma PushEnds(op: Op, d: Disco, b: Discovery.Step)
    requires IsOpen(op) && (op.calls == [] <==> op.monitors == [])
    ensures React(op, d, b).ended ==
            if !Pushes(d, b) then None
            else if Searching(op) && !op.waits && !ServiceUp(Discovery.Next(d, b)) then Some(NoService)
            else if b.Closed? && op.calls != [] then Some(ConnectionLost)
            else None
  {
    LeastLoadedIsLeast(Discovery.Next(d, b));
    if b.Closed? && Pushes(d, b) {
      assert Discovery.Next(d, b).order == [];
    }
  }

  /** A step of another operation, or of this one other than the pipeline's, changes nothing of it but its
      end. An answer of a stream operation, or one without a call, changes nothing at all. */
  lemma {:induction false} OnlyItsEnd(steps: seq<Operations.Step>, a: Operations.Step, i: nat)
    requires OpenIn(steps, i) && !a.Env?
    ensures i in Operations.Run(steps + [a]).ops
    ensures Operations.Run(steps + [a]).ops[i] == Operations.Run(steps).ops[i].(ended := EndCalledFor(steps, a, i))
    ensures Operations.Run(steps + [a]).d == Operations.Run(steps).d
  {
    EndsExactly(steps, a, i);
    RunSnoc(steps, a);
  }

  /** Operations come by their start only, never go, and once ended are as they are. */
  lemma OperationsStay(steps: seq<Operations.Step>, a: Operations.Step)
    ensures Operations.Run(steps + [a]).ops.Keys == Operations.Run(steps).ops.Keys + if a.Start? then {a.i} else {}
    ensures forall i :: i in Operations.Run(steps).ops && !OpenIn(steps, i) ==>
                          Operations.Run(steps + [a]).ops[i] == Operations.Run(steps).ops[i]
  {
    RunSnoc(steps, a);
    forall i | i in Operations.Run(steps).ops && !OpenIn(steps, i)
      ensures i in Operations.Run(steps + [a]).ops && Operations.Run(steps + [a]).ops[i] == Operations.Run(steps).ops[i]
    {
      OpStays(Operations.Run(steps), a, i);
    }
  }

  // ----- picks -----

  /** Watching the same instances as before, since the same moments. */
  ghost predicate SameWatches(ms: seq<Monitor>, ms': seq<Monitor>) {
    |ms| <= |ms'| && forall k :: 0 <= k < |ms| ==> ms'[k].id == ms[k].id && ms'[k].since == ms[k].since
  }

  /** With an instance up it called the least loaded one, watches it and takes one more dictionary; with none
      up it waits, if it may, or has failed. */
  ghost predicate StartedWith(d: Disco, waits: bool, oneShot: bool, op: Op) {
    && op.oneShot == oneShot && op.waits == (waits || !oneShot)
    && if ServiceUp(d) then
         && |op.calls| == 1 && IsLeastUp(d, op.calls[0]) && IsOpen(op) && op.search == OnceMore
         && op.monitors == [Monitor(op.calls[0], d.now, d.now + 3000)]
       else
         && op.calls == [] && op.monitors == [] && op.search == Waiting
         && op.ended == if waits || !oneShot then None else Some(NoService)
  }

  lemma {:induction false} StartsExactly(steps: seq<Operations.Step>, i: nat, waits: bool, oneShot: bool)
    requires i !in Operations.Run(steps).ops
    ensures i in Operations.Run(steps + [Operations.Start(i, waits, oneShot)]).ops
    ensures StartedWith(Operations.Run(steps).d, waits, oneShot, Operations.Run(steps + [Operations.Start(i, waits, oneShot)]).ops[i])
  {
    NewOpIs(Operations.Run(steps).d, waits, oneShot);
    RunSnoc(steps, Operations.Start(i, waits, oneShot));
  }

  lemma NewOpIs(d: Disco, waits: bool, oneShot: bool)
    ensures StartedWith(d, waits, oneShot, OnDictionary(NewOp(waits, oneShot), d, true))
  {
    LeastLoadedIsLeast(d);
  }

  /** A pushed dictionary with an instance up is picked from by whoever still listens: the least loaded one
      is watched from then on, and called if none was called before. No other step of the pipeline picks. */
  lemma {:induction false} PicksExactly(steps: seq<Operations.Step>, b: Discovery.Step, i: nat)
    requires OpenIn(steps, i)
    ensures i in Operations.Run(steps + [Env(b)]).ops
    ensures var w, w' := Operations.Run(steps), Operations.Run(steps + [Env(b)]);
            var op, op' := w.ops[i], w'.ops[i];
            && op'.oneShot == op.oneShot && op'.waits == op.waits
            && SameWatches(op.monitors, op'.monitors)
            && if Searching(op) && Pushes(w.d, b) && ServiceUp(w'.d) then Picked(op, op', w'.d) else KeptWatch(op, op')
  {
    RunSnoc(steps, Env(b));
    ReactPicks(Operations.Run(steps).ops[i], Operations.Run(steps).d, b);
  }

  ghost predicate Picked(op: Op, op': Op, d: Disco) {
    && |op'.monitors| == |op.monitors| + 1 && op'.search == Over
    && IsLeastUp(d, Last(op'.monitors).id) && Last(op'.monitors).since == d.now
    && op'.calls == if op.calls == [] then [Last(op'.monitors).id] else op.calls
  }

  ghost predicate KeptWatch(op: Op, op': Op) {
    |op'.monitors| == |op.monitors| && op'.search == op.search && op'.calls == op.calls
  }

  lemma DictionaryPicks(op: Op, d: Disco)
    requires IsOpen(op)
    ensures var op' := OnDictionary(op, d, false);
            && op'.oneShot == op.oneShot && op'.waits == op.waits
            && SameWatches(op.monitors, op'.monitors)
            && if Searching(op) && ServiceUp(d) then Picked(op, op', d) else KeptWatch(op, op')
  {
    LeastLoadedIsLeast(d);
  }

  /** A heartbeat or a lost connection moves timers and ends, and nothing else. */
  lemma AfterTheDictionary(op: Op, id: string, now: int)
    ensures forall r :: r == OnBeat(op, id, now) || r == OnLost(op) ==>
              && r.oneShot == op.oneShot && r.waits == op.waits && KeptWatch(op, r)
              && SameWatches(op.monitors, r.monitors)
  {
  }

  lemma ReactPicks(op: Op, d: Disco, b: Discovery.Step)
    requires IsOpen(op)
    ensures var d', op' := Discovery.Next(d, b), React(op, d, b);
            && op'.oneShot == op.oneShot && op'.waits == op.waits
            && SameWatches(op.monitors, op'.monitors)
            && if Searching(op) && Pushes(d, b) && ServiceUp(d') then Picked(op, op', d') else KeptWatch(op, op')
  {
    var d' := Discovery.Next(d, b);
    var op1 := if Pushes(d, b) then OnDictionary(op, d', false) else op;
    DictionaryPicks(op, d');
    AfterTheDictionary(op1, if b.Heartbeat? then b.id else "", d.now);
    Compose(op, op1, React(op, d, b), d');
  }

  lemma Compose(op: Op, op1: Op, op': Op, d: Disco)
    requires SameWatches(op.monitors, op1.monitors) && SameWatches(op1.monitors, op'.monitors) && KeptWatch(op1, op')
    ensures SameWatches(op.monitors, op'.monitors)
    ensures KeptWatch(op, op1) ==> KeptWatch(op, op')
    ensures Picked(op, op1, d) ==> Picked(op, op', d)
  {
    if Picked(op, op1, d) {
      assert Last(op'.monitors).id == Last(op1.monitors).id && Last(op'.monitors).since == Last(op1.monitors).since;
    }
  }
}
