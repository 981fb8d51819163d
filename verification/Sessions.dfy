/** How long a browser's session lasts, told from the events of its connection, and that the timers of a
    service can always be run. */
module Sessions {
  import opened Prelude
  import Connection
  import opened Discovery

  /** When the session that is still to be ended began: the last open of this epoch, unless fifteen minutes
      passed and its timer was run. */
  function SessionSince(steps: seq<Step>): Option<int>
    decreases |steps|, 1
  {
    if steps == [] then None
    else if Last(steps).Opened? then (if Attached(Front(steps)) then Some(Clock(steps)) else None)
    else if Last(steps).Closed? || RunsOut(steps) then None
    else SessionSince(Front(steps))
  }

  predicate RunsOut(steps: seq<Step>)
    requires steps != []
    decreases |steps|, 0
  {
    Last(steps).AutoDisconnect? && SessionSince(Front(steps)).Some? && Clock(Front(steps)) - SessionSince(Front(steps)).value >= 900000
  }

  /** The user's last word was to connect, and no session ran out since. */
  predicate WantsConnection(steps: seq<Step>) {
    steps != [] && (Last(steps).Connect? || (!Last(steps).Disconnect? && !RunsOut(steps) && WantsConnection(Front(steps))))
  }

  /** The last open or close the connection heard of. */
  function LastHeard(steps: seq<Step>): Connection.Status {
    if steps == [] then Connection.Idle
    else
      match Last(steps)
      case Opened => if Attached(Front(steps)) then Connection.Connected else Connection.Idle
      case Closed(byUs) =>
        if !Attached(Front(steps)) then Connection.Idle
        else if byUs then Connection.SessionExpired
        else Connection.Disconnected
      case _ => LastHeard(Front(steps))
  }

  ghost predicate TellsConnection(c: Connection.Conn, status: Connection.Status, wanted: bool, since: Option<int>) {
    && c.status == status
    && (c.connectCalled <==> wanted)
    && c.timer == (if since.Some? then Some(since.value + 900000) else None)
    && (!c.attached ==> c.status.Idle? && c.timer.None?)
  }

  /** One step, with what was told before it. */
  lemma ConnStep(d: Disco, a: Step, status: Connection.Status, wanted: bool, since: Option<int>)
    requires TellsConnection(d.conn, status, wanted, since)
    ensures var out := a.AutoDisconnect? && since.Some? && d.now - since.value >= 900000;
            TellsConnection(Next(d, a).conn,
              if a.Opened? then (if d.conn.attached then Connection.Connected else Connection.Idle)
              else if a.Closed? then
                (if !d.conn.attached then Connection.Idle else if a.byUs then Connection.SessionExpired else Connection.Disconnected)
              else status,
              a.Connect? || (!a.Disconnect? && !out && wanted),
              if a.Opened? then (if d.conn.attached then Some(d.now) else None) else if a.Closed? || out then None else since)
  {
  }

  /** In every run the connection's status, the wish to connect and the session's timer are what its events
      tell; so a session that is neither closed nor ended earlier is ended fifteen minutes after its last
      open. */
  lemma {:induction false} ConnectionAgrees(steps: seq<Step>)
    ensures TellsConnection(Run(steps).conn, LastHeard(steps), WantsConnection(steps), SessionSince(steps))
  {
    if steps != [] {
      var front := Front(steps);
      ConnectionAgrees(front);
      ClockAgrees(front);
      ConnStep(Run(front), Last(steps), LastHeard(front), WantsConnection(front), SessionSince(front));
    }
  }

  // ----- timers -----

  predicate OnlyTimeouts(steps: seq<Step>) {
    forall k :: 0 <= k < |steps| ==> steps[k].Timeout?
  }

  lemma {:induction false} RunOn(steps: seq<Step>, more: seq<Step>)
    requires OnlyTimeouts(more)
    ensures Run(steps + more).now == Run(steps).now && HeardBeats(steps + more) == HeardBeats(steps)
    ensures Clock(steps + more) == Clock(steps)
  {
    if more == [] {
      assert steps + more == steps;
    } else {
      assert Front(steps + more) == steps + Front(more) && Last(steps + more) == Last(more);
      assert Last(more) == more[|more| - 1];
      assert forall k :: 0 <= k < |Front(more)| ==> Front(more)[k] == more[k];
      RunOn(steps, Front(more));
    }
  }

  /** From every reachable state the due timers can be run, in some order, until none is due: then what is
      shown is exact. */
  lemma {:induction false} TimersCanRun(steps: seq<Step>) returns (more: seq<Step>)
    ensures OnlyTimeouts(more) && Quiescent(Run(steps + more))
    ensures forall id :: IsUp(Run(steps + more), id) <==> HeardLately(steps, id)
    decreases |Run(steps).timers.Keys|
  {
    if Quiescent(Run(steps)) {
      more := [];
      assert steps + more == steps;
    } else {
      var id :| id in Run(steps).timers && Run(steps).timers[id] <= Run(steps).now;
      var rest := OneLess(steps, id);
      more := [Timeout(id)] + rest;
      assert steps + more == steps + [Timeout(id)] + rest;
    }
    RunOn(steps, more);
    ShownExactly(steps + more);
  }

  lemma {:induction false} OneLess(steps: seq<Step>, id: string) returns (rest: seq<Step>)
    requires id in Run(steps).timers && Run(steps).timers[id] <= Run(steps).now
    ensures OnlyTimeouts(rest) && Quiescent(Run(steps + [Timeout(id)] + rest))
    decreases |Run(steps).timers.Keys|, 0
  {
    var d, d' := Run(steps), Run(steps + [Timeout(id)]);
    assert Front(steps + [Timeout(id)]) == steps;
    assert d'.timers.Keys == d.timers.Keys - {id};
    rest := TimersCanRun(steps + [Timeout(id)]);
  }
}
