/** Which instances of a service are up. Heartbeats are grouped by instance, a missed heartbeat shows the
    instance as down, repeated statuses are dropped, and what is left is folded into a dictionary. Each
    connection epoch has a dictionary of its own. */
module Discovery {
  import opened Prelude
  import opened Connection

  /** A status as the dictionary keeps it. A disconnected instance has no load. */
  datatype Health = Up(load: int) | Down

  const HEARTBEAT_TIMEOUT := 3000

  datatype Disco = Disco(now: int, conn: Conn, order: seq<string>, shown: map<string, Health>, timers: map<string, int>)

  const NOBODY := Disco(0, NOT_CONNECTED, [], map[], map[])

  datatype Step =
    | Connect
    | Disconnect
    | Opened
    | Closed(byUs: bool)
    | AutoDisconnect
    | Heartbeat(id: string, load: int)
    | Timeout(id: string)        // the instance's timer is run, not before it is due
    | Tick(ms: nat)

  /** A status that differs from the instance's last one reaches the dictionary. */
  function Show(d: Disco, id: string, h: Health): Disco {
    if id !in d.shown then d.(order := d.order + [id], shown := d.shown[id := h])
    else if d.shown[id] == h then d
    else d.(shown := d.shown[id := h])
  }

  function Beat(d: Disco, id: string, load: int): Disco {
    if !d.conn.isConnected then d
    else Show(d, id, Up(load)).(timers := d.timers[id := d.now + HEARTBEAT_TIMEOUT])
  }

  predicate Due(d: Disco, id: string) {
    id in d.timers && d.timers[id] <= d.now
  }

  function Missed(d: Disco, id: string): Disco {
    if Due(d, id) then Show(d, id, Down).(timers := d.timers - {id}) else d
  }

  /** The connection's status goes from connected to something else: every group ends, and an empty
      dictionary takes over. */
  function Lose(d: Disco, conn: Conn): Disco {
    if d.conn.isConnected && !conn.isConnected then Disco(d.now, conn, [], map[], map[]) else d.(conn := conn)
  }

  function Next(d: Disco, a: Step): Disco {
    match a
    case Connect => d.(conn := OnConnect(d.conn))
    case Disconnect => d.(conn := OnDisconnect(d.conn))
    case Opened => d.(conn := OnOpened(d.conn, d.now))
    case Closed(byUs) => Lose(d, OnClosed(d.conn, byUs))
    case AutoDisconnect => d.(conn := OnAutoDisconnect(d.conn, d.now))
    case Heartbeat(id, load) => Beat(d, id, load)
    case Timeout(id) => Missed(d, id)
    case Tick(ms) => d.(now := d.now + ms)
  }

  function Run(steps: seq<Step>): Disco {
    if steps == [] then NOBODY else Next(Run(Front(steps)), Last(steps))
  }

  predicate IsUp(d: Disco, id: string) {
    id in d.shown && d.shown[id].Up?
  }

  /** The summary shown to the user. */
  predicate ServiceUp(d: Disco) {
    exists id :: id in d.order && IsUp(d, id)
  }

  // ----- the code's own form -----

  class LastValueObservableDictionary {
    var keys: seq<string>
    var values: map<string, Health>
    var version: nat

    constructor ()
      ensures keys == [] && values == map[] && version == 0
    {
      keys, values, version := [], map[], 0;
    }

    predicate HasKey(key: string)
      reads this
    {
      key in values
    }

    method Add(key: string, value: Health)
      requires !HasKey(key)
      modifies this
      ensures keys == old(keys) + [key] && values == old(values)[key := value] && version == old(version) + 1
    {
      keys := keys + [key];
      values := values[key := value];
      version := version + 1;
    }

    method UpdateWithLatestValue(key: string, value: Health)
      requires HasKey(key)
      modifies this`values, this`version
      ensures values == old(values)[key := value] && version == old(version) + 1
    {
      values := values[key := value];
      version := version + 1;
    }
  }

  /** The pipeline of one service: the dictionary of the current epoch and a timer a group, over a
      connection whose open and close events begin and end the epochs. */
  class ServiceInstances {
    const connection: RouterConnection
    var now: int
    var dictionary: LastValueObservableDictionary
    var timers: map<string, int>

    function State(): Disco
      reads this, connection, dictionary
    {
      Disco(now, connection.State(), dictionary.keys, dictionary.values, timers)
    }

    ghost predicate Valid()
      reads this, connection
    {
      ConnOk(connection.State())
    }

    constructor ()
      ensures Valid() && State() == NOBODY && fresh(connection) && fresh(dictionary)
    {
      connection := new RouterConnection();
      dictionary := new LastValueObservableDictionary();
      now, timers := 0, map[];
    }

    /** Answers whether the dictionary is pushed to its observers. */
    method OnStatus(id: string, h: Health) returns (pushed: bool)
      modifies dictionary
      ensures State() == Show(old(State()), id, h)
      ensures pushed <==> dictionary.version != old(dictionary.version)
      ensures pushed <==> id !in old(dictionary.values) || old(dictionary.values)[id] != h
    {
      if dictionary.HasKey(id) && dictionary.values[id] == h {
        return false;
      }
      if !dictionary.HasKey(id) {
        dictionary.Add(id, h);
      } else {
        dictionary.UpdateWithLatestValue(id, h);
      }
      pushed := true;
    }

    method OnHeartbeat(id: string, load: int) returns (pushed: bool)
      requires connection.isConnected
      modifies this`timers, dictionary
      ensures State() == Beat(old(State()), id, load)
      ensures pushed <==> Pushes(old(State()), Heartbeat(id, load))
    {
      timers := timers[id := now + HEARTBEAT_TIMEOUT];
      pushed := OnStatus(id, Up(load));
    }

    method OnTimeout(id: string) returns (pushed: bool)
      requires Due(State(), id) && IsUp(State(), id)
      modifies this`timers, dictionary
      ensures State() == Missed(old(State()), id)
      ensures pushed <==> Pushes(old(State()), Timeout(id))
    {
      timers := timers - {id};
      pushed := OnStatus(id, Down);
    }

    method OnConnectionOpened()
      requires Valid() && connection.attached
      modifies connection
      ensures Valid() && State() == Next(old(State()), Opened)
    {
      connection.Opened(now);
    }

    method OnConnectionClosed(byUs: bool) returns (pushed: bool)
      requires Valid() && connection.attached
      modifies this, connection
      ensures Valid() && State() == Next(old(State()), Closed(byUs))
      ensures pushed <==> Pushes(old(State()), Closed(byUs))
      ensures if pushed then fresh(dictionary) else dictionary == old(dictionary)
    {
      pushed := connection.isConnected;
      connection.Closed(byUs);
      if pushed {
        dictionary := new LastValueObservableDictionary();
        timers := map[];
      }
    }

    /** The user, or the timer that ends a long session; the close itself is told by a later event. */
    method CallConnect()
      requires Valid()
      modifies connection
      ensures Valid() && State() == Next(old(State()), Connect)
    {
      connection.Connect();
    }

    method CallDisconnect() returns (closing: bool)
      requires Valid()
      modifies connection
      ensures Valid() && State() == Next(old(State()), Disconnect)
      ensures closing == old(connection.connectCalled)
    {
      closing := connection.Disconnect();
    }

    method OnSessionTimer() returns (closing: bool)
      requires Valid() && connection.autoDisconnect.Some? && connection.autoDisconnect.value <= now
      modifies connection
      ensures Valid() && State() == Next(old(State()), AutoDisconnect)
      ensures closing == old(connection.connectCalled)
    {
      closing := connection.AutoDisconnect(now);
    }
  }

  /** Whether a step pushes a dictionary to the observers. */
  predicate Pushes(d: Disco, a: Step) {
    match a
    case Heartbeat(id, load) => d.conn.isConnected && (id !in d.shown || d.shown[id] != Up(load))
    case Timeout(id) => Due(d, id)
    case Closed(byUs) => d.conn.isConnected && !OnClosed(d.conn, byUs).isConnected
    case _ => false
  }

  // ----- what happened, told independently -----

  datatype Heard = Heard(at: int, load: int)

  function Clock(steps: seq<Step>): int {
    if steps == [] then 0 else Clock(Front(steps)) + if Last(steps).Tick? then Last(steps).ms else 0
  }

  /** Whether the last open was not yet followed by a close. */
  predicate InEpoch(steps: seq<Step>) {
    steps != [] &&
    match Last(steps)
    case Opened => Attached(Front(steps)) || InEpoch(Front(steps))
    case Closed(_) => false
    case _ => InEpoch(Front(steps))
  }

  predicate Attached(steps: seq<Step>) {
    steps != [] && (Last(steps).Connect? || Attached(Front(steps)))
  }

  /** The last heartbeat of each instance heard in this epoch. */
  function HeardBeats(steps: seq<Step>): map<string, Heard> {
    if steps == [] then map[]
    else
      var before := HeardBeats(Front(steps));
      match Last(steps)
      case Closed(_) => map[]
      case Heartbeat(id, load) => if InEpoch(steps) then before[id := Heard(Clock(steps), load)] else before
      case _ => before
  }

  /** The instances of this epoch in the order of their first heartbeats. */
  function FirstHeard(steps: seq<Step>): seq<string> {
    if steps == [] then []
    else
      var before := FirstHeard(Front(steps));
      match Last(steps)
      case Closed(_) => []
      case Heartbeat(id, _) => if InEpoch(steps) && id !in before then before + [id] else before
      case _ => before
  }

  // ----- the two agree -----

  /** The timer of an instance is pending exactly as long as it is shown up. */
  predicate InstanceOk(d: Disco, id: string, h: Heard) {
    && id in d.shown && h.at <= d.now
    && (if id in d.timers then d.timers[id] == h.at + HEARTBEAT_TIMEOUT && d.shown[id] == Up(h.load)
        else h.at + HEARTBEAT_TIMEOUT <= d.now && d.shown[id] == Down)
  }

  ghost predicate Agrees(d: Disco, heard: map<string, Heard>) {
    && ConnOk(d.conn)
    && heard.Keys == d.shown.Keys
    && d.timers.Keys <= d.shown.Keys
    && (forall id :: id in heard ==> InstanceOk(d, id, heard[id]))
    && (!d.conn.isConnected ==> heard == map[])
    && Distinct(d.order)
    && (forall id :: id in d.order <==> id in d.shown)
  }

  lemma BeatAgrees(d: Disco, heard: map<string, Heard>, id: string, load: int)
    requires Agrees(d, heard) && d.conn.isConnected
    ensures Agrees(Beat(d, id, load), heard[id := Heard(d.now, load)])
  {
    var d', heard' := Beat(d, id, load), heard[id := Heard(d.now, load)];
    forall x | x in heard' ensures InstanceOk(d', x, heard'[x]) {
      assert x != id ==> InstanceOk(d, x, heard[x]);
    }
  }

  lemma MissedAgrees(d: Disco, heard: map<string, Heard>, id: string)
    requires Agrees(d, heard)
    ensures Agrees(Missed(d, id), heard)
  {
  }

  lemma OthersAgree(d: Disco, d': Disco, heard: map<string, Heard>)
    requires Agrees(d, heard) && ConnOk(d'.conn)
    requires d' == d.(now := d'.now, conn := d'.conn) && d.now <= d'.now
    requires d.conn.isConnected ==> d'.conn.isConnected
    ensures Agrees(d', heard)
  {
  }

  lemma FirstIsHeard(d: Disco, heard: map<string, Heard>)
    requires Agrees(d, heard)
    ensures d.order != [] ==> d.order[0] in heard
  {
  }

  lemma {:induction false} ClockAgrees(steps: seq<Step>)
    ensures Run(steps).now == Clock(steps)
    ensures Run(steps).conn.isConnected == InEpoch(steps) && Run(steps).conn.attached == Attached(steps)
    ensures ConnOk(Run(steps).conn)
  {
    if steps != [] {
      ClockAgrees(Front(steps));
    }
  }

  lemma BeatsSnoc(steps: seq<Step>, a: Step)
    ensures Run(steps + [a]) == Next(Run(steps), a)
    ensures HeardBeats(steps + [a]) == HeardAfter(Run(steps), HeardBeats(steps), a)
  {
    assert Front(steps + [a]) == steps;
    ClockAgrees(steps);
  }

  lemma {:induction false} HeardAgrees(steps: seq<Step>)
    ensures Agrees(Run(steps), HeardBeats(steps))
  {
    if steps != [] {
      HeardAgrees(Front(steps));
      StepAgrees(Run(Front(steps)), HeardBeats(Front(steps)), Last(steps));
      assert steps == Front(steps) + [Last(steps)];
      BeatsSnoc(Front(steps), Last(steps));
    }
  }

  lemma {:induction false} OrderAgrees(steps: seq<Step>)
    ensures Run(steps).order == FirstHeard(steps)
  {
    if steps != [] {
      OrderAgrees(Front(steps));
      ClockAgrees(Front(steps));
      HeardAgrees(Front(steps));
      StepOrders(Run(Front(steps)), HeardBeats(Front(steps)), Last(steps));
    }
  }

  /** What a step makes of the order. */
  lemma StepOrders(d: Disco, heard: map<string, Heard>, a: Step)
    requires Agrees(d, heard)
    ensures a.Closed? ==> Next(d, a).order == []
    ensures a.Heartbeat? ==> Next(d, a).order == d.order + if d.conn.isConnected && a.id !in d.order then [a.id] else []
    ensures !a.Closed? && !a.Heartbeat? ==> Next(d, a).order == d.order
  {
    if a.Closed? {
      StepAgrees(d, heard, a);
    }
  }

  /** In every run the dictionary, the timers, the clock and the epoch are what the steps tell. */
  lemma {:induction false} RunAgrees(steps: seq<Step>)
    ensures Agrees(Run(steps), HeardBeats(steps))
    ensures Run(steps).now == Clock(steps)
    ensures Run(steps).conn.isConnected == InEpoch(steps) && Run(steps).conn.attached == Attached(steps)
    ensures Run(steps).order == FirstHeard(steps)
  {
    ClockAgrees(steps);
    HeardAgrees(steps);
    OrderAgrees(steps);
  }

  /** What a step makes of the heartbeats heard. */
  function HeardAfter(d: Disco, heard: map<string, Heard>, a: Step): map<string, Heard> {
    match a
    case Closed(_) => map[]
    case Heartbeat(id, load) => if d.conn.isConnected then heard[id := Heard(d.now, load)] else heard
    case _ => heard
  }

  lemma StepAgrees(d: Disco, heard: map<string, Heard>, a: Step)
    requires Agrees(d, heard)
    ensures Agrees(Next(d, a), HeardAfter(d, heard, a))
    ensures a.Closed? ==> Next(d, a).order == []
  {
    match a {
      case Heartbeat(id, load) =>
        if d.conn.isConnected {
          BeatAgrees(d, heard, id, load);
        }
      case Timeout(id) => MissedAgrees(d, heard, id);
      case Closed(byUs) =>
        if !d.conn.isConnected {
          OthersAgree(d, Next(d, a), heard);
          FirstIsHeard(d, heard);
        }
      case _ => OthersAgree(d, Next(d, a), heard);
    }
  }

  predicate Quiescent(d: Disco) {
    forall id :: id in d.timers ==> d.timers[id] > d.now
  }

  /** Whether this instance was heard in this epoch less than the timeout ago. */
  predicate HeardLately(steps: seq<Step>, id: string) {
    id in HeardBeats(steps) && Clock(steps) - HeardBeats(steps)[id].at < HEARTBEAT_TIMEOUT
  }

  /** In every run, once due timers were run: an instance shows as up exactly when a heartbeat came from
      it in this epoch less than the timeout ago, with the load of its last heartbeat; and the service is
      up exactly when some instance is. */
  lemma ShownExactly(steps: seq<Step>)
    requires Quiescent(Run(steps))
    ensures forall id :: IsUp(Run(steps), id) <==> HeardLately(steps, id)
    ensures forall id :: HeardLately(steps, id) ==> id in Run(steps).shown && Run(steps).shown[id] == Up(HeardBeats(steps)[id].load)
    ensures ServiceUp(Run(steps)) <==> exists id :: HeardLately(steps, id)
  {
    RunAgrees(steps);
    var d, heard := Run(steps), HeardBeats(steps);
    forall id ensures IsUp(d, id) <==> HeardLately(steps, id)
              ensures HeardLately(steps, id) ==> id in d.shown && d.shown[id] == Up(heard[id].load)
    {
      assert id in heard ==> InstanceOk(d, id, heard[id]);
    }
    if id :| HeardLately(steps, id) {
      assert IsUp(d, id) && id in d.order;
    }
  }

  /** At any moment, late timers or not: an instance shown down was silent for the whole timeout, and one
      shown up shows its last load. */
  lemma NeverDownTooEarly(steps: seq<Step>, id: string)
    requires id in HeardBeats(steps)
    ensures id in Run(steps).shown
    ensures Run(steps).shown[id].Down? ==> !HeardLately(steps, id)
    ensures Run(steps).shown[id].Up? ==> Run(steps).shown[id].load == HeardBeats(steps)[id].load
  {
    RunAgrees(steps);
    assert InstanceOk(Run(steps), id, HeardBeats(steps)[id]);
  }

  /** Observers are pushed a dictionary exactly when what it shows changes; only the end of an epoch is
      pushed even if nothing was shown. */
  lemma {:induction false} PushedExactlyOnChange(steps: seq<Step>, a: Step)
    ensures var d, d' := Run(steps), Next(Run(steps), a);
            Pushes(d, a) <==> d'.shown != d.shown || (a.Closed? && d.conn.isConnected && !d'.conn.isConnected)
  {
    RunAgrees(steps);
    var d := Run(steps);
    if a.Timeout? && Due(d, a.id) {
      assert InstanceOk(d, a.id, HeardBeats(steps)[a.id]);
    } else if a.Heartbeat? && d.conn.isConnected {
      assert Next(d, a).shown[a.id] == Up(a.load);
    } else if a.Closed? && !d.conn.isConnected {
      assert Next(d, a).shown == d.shown;
    }
  }

  /** What the pipeline's own timer handler relies on. */
  lemma DueMeansUp(steps: seq<Step>, id: string)
    requires Due(Run(steps), id)
    ensures IsUp(Run(steps), id)
  {
    RunAgrees(steps);
    assert InstanceOk(Run(steps), id, HeardBeats(steps)[id]);
  }
}
