/** Who is sent an acknowledgement, and whose session is watched, told from the requests alone. */
module StreamAcks {
  import opened Prelude
  import opened StreamServer

  /** A request that gets as far as its handler. */
  predicate Passes(sessionRequired: bool, r: Request) {
    r.readable && r.hasClientId && (sessionRequired ==> r.hasSession)
  }

  /** What handle h was made for. */
  function RequestOf(steps: seq<Step>, h: nat): Option<Request> {
    if steps == [] then None
    else if RequestOf(Front(steps), h).Some? then RequestOf(Front(steps), h)
    else if Last(steps).Subscribe? && Last(steps).h == h then Some(Last(steps).request)
    else None
  }

  /** Its acknowledgement was sent, or tried. */
  predicate WasAcked(sessionRequired: bool, steps: seq<Step>, h: nat) {
    steps != [] &&
    (|| WasAcked(sessionRequired, Front(steps), h)
     || (Last(steps).SendAck? && Last(steps).h == h && RequestOf(Front(steps), h).Some?
         && Passes(sessionRequired, RequestOf(Front(steps), h).value)))
  }

  function AcksIn(sent: seq<Message>): nat {
    if sent == [] then 0 else AcksIn(Front(sent)) + if Last(sent).Ack? then 1 else 0
  }

  lemma AcksSnoc(sent: seq<Message>, m: Message)
    ensures AcksIn(sent + [m]) == AcksIn(sent) + if m.Ack? then 1 else 0
  {
  }

  predicate SameAck(s: Sub, s': Sub) {
    s'.ackDue == s.ackDue && s'.watchesSession == s.watchesSession && AcksIn(s'.sent) == AcksIn(s.sent)
  }

  ghost predicate SameAcks(v: Server, v': Server) {
    && v'.subs.Keys == v.subs.Keys && v'.sessionRequired == v.sessionRequired
    && forall h :: h in v.subs ==> SameAck(v.subs[h], v'.subs[h])
  }

  lemma AcksTwice(v: Server, v1: Server, v2: Server)
    requires SameAcks(v, v1) && SameAcks(v1, v2)
    ensures SameAcks(v, v2)
  {
  }

  lemma UnsubscribedAcks(v: Server, id: string)
    ensures SameAcks(v, Unsubscribed(v, id))
  {
  }

  lemma SentAcks(v: Server, h: nat, m: Message, published: bool)
    requires h in v.subs && !m.Ack?
    ensures SameAcks(v, Sent(v, h, m, published))
  {
    var v1 := v.(subs := v.subs[h := v.subs[h].(sent := v.subs[h].sent + [m])]);
    AcksSnoc(v.subs[h].sent, m);
    assert SameAcks(v, v1);
    UnsubscribedAcks(v1, v.subs[h].id);
    AcksTwice(v, v1, Unsubscribed(v1, v.subs[h].id));
  }

  lemma EndedAcks(v: Server, h: nat, m: Message, published: bool)
    requires h in v.subs && !m.Ack?
    ensures SameAcks(v, Ended(v, h, m, published))
  {
    var v1 := Unsubscribed(v, v.subs[h].id);
    UnsubscribedAcks(v, v.subs[h].id);
    SentAcks(v1, h, m, published);
    AcksTwice(v, v1, Sent(v1, h, m, published));
  }

  lemma NotifiedAcks(v: Server, h: nat, c: Callback)
    requires h in v.subs
    ensures SameAcks(v, Notified(v, h, c))
  {
    var v1 := SetFinished(v, h);
    assert SameAcks(v, v1);
    match c {
      case Update(value, _, published) =>
        SentAcks(v, h, Value(value), published);
        EndedAcks(v, h, Error, published);
      case Fail(published) =>
        EndedAcks(v1, h, Error, published);
        AcksTwice(v, v1, Ended(v1, h, Error, published));
      case Complete(published) =>
        EndedAcks(v1, h, Completion, published);
        AcksTwice(v, v1, Ended(v1, h, Completion, published));
    }
  }

  lemma {:induction false} ScriptAcks(v: Server, h: nat, script: seq<Callback>)
    requires h in v.subs
    ensures SameAcks(v, NotifiedAll(v, h, script))
  {
    if script != [] {
      var v1 := NotifiedAll(v, h, Front(script));
      ScriptAcks(v, h, Front(script));
      NotifiedAcks(v1, h, Last(script));
      AcksTwice(v, v1, Notified(v1, h, Last(script)));
    }
  }

  lemma ReturnedAcks(v: Server, h: nat, r: Request)
    requires h in v.subs
    ensures SameAcks(v, Returned(v, h, r))
  {
    EndedAcks(v, h, Error, r.errorPublished);
  }

  /** Nobody but h is affected, and how. */
  ghost predicate OnlyNew(v: Server, v': Server, h: nat, due: bool, watches: bool) {
    && v'.subs.Keys == v.subs.Keys + {h} && v'.sessionRequired == v.sessionRequired
    && (forall k :: k in v.subs && k != h ==> SameAck(v.subs[k], v'.subs[k]))
    && h in v'.subs && v'.subs[h].ackDue == due && v'.subs[h].watchesSession == watches && AcksIn(v'.subs[h].sent) == 0
  }

  lemma AdmittedAcks(v: Server, h: nat, id: string, r: Request)
    requires h in v.subs && AcksIn(v.subs[h].sent) == 0
    ensures OnlyNew(v, Admitted(v, h, id, r), h, true, v.subs[h].watchesSession)
  {
    var v1 := Entered(v, h, id);
    assert SameAcks(v, v1);
    var v2 := NotifiedAll(v1, h, r.script);
    ScriptAcks(v1, h, r.script);
    AcksTwice(v, v1, v2);
    ReturnedAcks(v2, h, r);
    AcksTwice(v, v2, Returned(v2, h, r));
    OwedAcks(v, Returned(v2, h, r), h);
  }

  lemma OwedAcks(v: Server, v': Server, h: nat)
    requires SameAcks(v, v') && h in v.subs && AcksIn(v.subs[h].sent) == 0
    ensures OnlyNew(v, Owed(v', h), h, true, v.subs[h].watchesSession)
  {
    assert SameAck(v.subs[h], v'.subs[h]);
  }

  lemma UnreadableAcks(v: Server, h: nat, id: string, published: bool)
    requires h !in v.subs
    ensures OnlyNew(v, Sent(v.(subs := v.subs[h := NewSub(id)]), h, Error, published), h, false, false)
  {
    var v0 := v.(subs := v.subs[h := NewSub(id)]);
    SentAcks(v0, h, Error, published);
    NewAcks(v, v0, Sent(v0, h, Error, published), h, NewSub(id));
  }

  /** A new entry whose acknowledgement nothing after it touched. */
  lemma NewAcks(v: Server, v0: Server, v': Server, h: nat, s: Sub)
    requires v0 == v.(subs := v.subs[h := s]) && SameAcks(v0, v') && AcksIn(s.sent) == 0
    ensures OnlyNew(v, v', h, s.ackDue, s.watchesSession)
  {
    assert SameAck(v0.subs[h], v'.subs[h]);
    forall k | k in v.subs && k != h ensures SameAck(v.subs[k], v'.subs[k]) {
      assert SameAck(v0.subs[k], v'.subs[k]);
    }
  }

  lemma SubscribedAcks(v: Server, h: nat, id: string, r: Request)
    requires h !in v.subs && id !in v.table
    ensures OnlyNew(v, Subscribed(v, h, id, r), h, Passes(v.sessionRequired, r), r.readable && r.hasClientId && v.sessionRequired)
  {
    if !r.readable {
      UnreadableAcks(v, h, id, r.errorPublished);
    } else if r.hasClientId && !(v.sessionRequired && !r.hasSession) {
      AdmittedAcks(v.(subs := v.subs[h := NewSub(id).(watchesSession := v.sessionRequired)]), h, id, r);
    }
  }

  ghost predicate AckAdded(v: Server, v': Server, h: nat) {
    && v'.subs.Keys == v.subs.Keys && h in v.subs
    && (forall k :: k in v.subs && k != h ==> SameAck(v.subs[k], v'.subs[k]))
    && v'.subs[h].watchesSession == v.subs[h].watchesSession
    && AcksIn(v'.subs[h].sent) == AcksIn(v.subs[h].sent) + 1
  }

  lemma AckedAcks(v: Server, h: nat, published: bool)
    requires h in v.subs && v.subs[h].ackDue
    ensures AckAdded(v, Acked(v, h, published), h) && !Acked(v, h, published).subs[h].ackDue
  {
    var v0 := v.(subs := v.subs[h := v.subs[h].(ackDue := false)]);
    AckIsSent(v0, h, published);
    SameBefore(v, v0, Sent(v0, h, Ack, published), h);
  }

  lemma SameBefore(v: Server, v0: Server, v': Server, h: nat)
    requires h in v.subs && v0.subs == v.subs[h := v.subs[h].(ackDue := false)] && AckAdded(v0, v', h)
    ensures AckAdded(v, v', h)
  {
    assert forall k :: k in v.subs && k != h ==> v0.subs[k] == v.subs[k];
  }

  lemma AckIsSent(v: Server, h: nat, published: bool)
    requires h in v.subs
    ensures AckAdded(v, Sent(v, h, Ack, published), h)
    ensures Sent(v, h, Ack, published).subs[h].ackDue == v.subs[h].ackDue
  {
    var v1 := v.(subs := v.subs[h := v.subs[h].(sent := v.subs[h].sent + [Ack])]);
    AcksSnoc(v.subs[h].sent, Ack);
    UnsubscribedAcks(v1, v.subs[h].id);
    AddedBefore(v, v1, Sent(v, h, Ack, published), h);
  }

  lemma AddedBefore(v: Server, v1: Server, v': Server, h: nat)
    requires AckAdded(v, v1, h) && SameAcks(v1, v') && v1.subs[h].ackDue == v.subs[h].ackDue
    ensures AckAdded(v, v', h) && v'.subs[h].ackDue == v.subs[h].ackDue
  {
    assert SameAck(v1.subs[h], v'.subs[h]);
    forall k | k in v.subs && k != h ensures SameAck(v.subs[k], v'.subs[k]) {
      assert SameAck(v1.subs[k], v'.subs[k]);
    }
  }

  /** Steps that make no handle and send no acknowledgement. */
  lemma PlainAcks(v: Server, a: Step)
    requires a.Unsubscribe? || a.Notify? || a.LoseSession?
    ensures SameAcks(v, Next(v, a))
  {
    match a {
      case Unsubscribe(id) => UnsubscribedAcks(v, id);
      case Notify(h, c) =>
        if h in v.subs && v.subs[h].started {
          NotifiedAcks(v, h, c);
        }
      case LoseSession(h) =>
    }
  }

  /** The state of h agrees with what its request and the steps tell. */
  ghost predicate AckAgrees(sessionRequired: bool, steps: seq<Step>, v: Server, h: nat) {
    && (h in v.subs <==> RequestOf(steps, h).Some?)
    && (h in v.subs ==>
          var r, s := RequestOf(steps, h).value, v.subs[h];
          && (s.watchesSession <==> r.readable && r.hasClientId && sessionRequired)
          && (s.ackDue <==> Passes(sessionRequired, r) && !WasAcked(sessionRequired, steps, h))
          && AcksIn(s.sent) == if WasAcked(sessionRequired, steps, h) then 1 else 0)
    && (WasAcked(sessionRequired, steps, h) ==> RequestOf(steps, h).Some? && Passes(sessionRequired, RequestOf(steps, h).value))
  }

  lemma TellSnoc(sessionRequired: bool, steps: seq<Step>, a: Step, h: nat)
    ensures RequestOf(steps + [a], h) ==
            if RequestOf(steps, h).Some? then RequestOf(steps, h)
            else if a.Subscribe? && a.h == h then Some(a.request) else None
    ensures WasAcked(sessionRequired, steps + [a], h) <==>
            WasAcked(sessionRequired, steps, h)
            || (a.SendAck? && a.h == h && RequestOf(steps, h).Some? && Passes(sessionRequired, RequestOf(steps, h).value))
  {
    assert Front(steps + [a]) == steps;
  }

  lemma StepAgrees(sessionRequired: bool, steps: seq<Step>, v: Server, a: Step, h: nat)
    requires AckAgrees(sessionRequired, steps, v, h) && v.sessionRequired == sessionRequired
    requires a.Subscribe? && a.h !in v.subs ==> a.id !in v.table
    ensures AckAgrees(sessionRequired, steps + [a], Next(v, a), h)
  {
    TellSnoc(sessionRequired, steps, a, h);
    match a {
      case Subscribe(k, id, r) =>
        if k !in v.subs {
          SubscribedAcks(v, k, id, r);
        }
      case SendAck(k, published) =>
        if k in v.subs && v.subs[k].ackDue {
          AckedAcks(v, k, published);
        }
      case _ => PlainAcks(v, a);
    }
  }

  /** In every run with fresh ids: a request that gets as far as its handler, whether that throws, ends or
      keeps its stream, is sent one acknowledgement and no other request any; and its session is watched
      exactly if sessions are required and the request could be read and named its client. */
  lemma {:induction false} AcksExactly(sessionRequired: bool, steps: seq<Step>, h: nat)
    requires Fresh(Run(sessionRequired, steps))
    ensures AckAgrees(sessionRequired, steps, Run(sessionRequired, steps), h)
  {
    if steps != [] {
      var front, a := Front(steps), Last(steps);
      var v := Run(sessionRequired, front);
      NextKept(v, a);
      FreshBefore(v, Next(v, a));
      AcksExactly(sessionRequired, front, h);
      SameRequirement(sessionRequired, front);
      if a.Subscribe? && a.h !in v.subs {
        IdIsNew(sessionRequired, front, a);
      }
      StepAgrees(sessionRequired, front, v, a, h);
      assert steps == front + [a];
    }
  }

  lemma {:induction false} IdIsNew(sessionRequired: bool, front: seq<Step>, a: Step)
    requires a.Subscribe? && a.h !in Run(sessionRequired, front).subs
    requires Fresh(Run(sessionRequired, front)) && Fresh(Next(Run(sessionRequired, front), a))
    ensures a.id !in Run(sessionRequired, front).table
  {
    var v := Run(sessionRequired, front);
    EveryRunIsOk(sessionRequired, front);
    SubscribedKept(v, a.h, a.id, a.request);
    FreshBefore(v.(subs := v.subs[a.h := NewSub(a.id)]), Next(v, a));
    NewIdNotInTable(v, a.h, a.id);
  }
}
