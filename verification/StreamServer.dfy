/** The server side of a request for a stream: a table of subscriptions, each with what has to be disposed
    when it goes, and the messages sent to the one who asked. */
module StreamServer {
  import opened Prelude

  datatype Message = Ack | Value(value: int) | Error | Completion

  /** One call of the source into its handler: what it says, whether the update can be serialized, and
      whether the message that results can be published. */
  datatype Callback =
    | Update(value: int, serializes: bool, published: bool)
    | Fail(published: bool)
    | Complete(published: bool)

  /** A request as it arrives, and what its handler does: the callbacks it makes before it returns, and
      whether it throws in the end. */
  datatype Request = Request(readable: bool, hasClientId: bool, hasSession: bool, script: seq<Callback>,
                             throws: bool, errorPublished: bool)

  /** One processed request: its composite disposable, the source in it, the finished flag, and history:
      whether its handler was called, how often the source was disposed, whether it ended by itself first,
      and everything sent. */
  datatype Sub = Sub(id: string, watchesSession: bool, started: bool, disposed: bool, hasSource: bool, finished: bool,
                     disposals: nat, endedItself: bool, ackDue: bool, sent: seq<Message>)

  datatype Server = Server(sessionRequired: bool, table: map<string, nat>, subs: map<nat, Sub>)

  function NewSub(id: string): Sub {
    Sub(id, false, false, false, false, false, 0, false, false, [])
  }

  // ----- disposables -----

  /** What is in the composite for the source. */
  function DisposeSource(s: Sub): Sub {
    if s.finished then s else s.(finished := true, disposals := s.disposals + 1)
  }

  function DisposeAll(s: Sub): Sub {
    if s.disposed then s
    else if s.hasSource then DisposeSource(s.(disposed := true))
    else s.(disposed := true)
  }

  /** Adding to a composite that is disposed disposes what is added. */
  function AddSource(s: Sub): Sub {
    if s.disposed then DisposeSource(s.(hasSource := true)) else s.(hasSource := true)
  }

  // ----- the table -----

  function Unsubscribed(v: Server, id: string): Server {
    if id !in v.table then v
    else
      var h := v.table[id];
      v.(table := v.table - {id}, subs := if h in v.subs then v.subs[h := DisposeAll(v.subs[h])] else v.subs)
  }

  predicate IsSubscribed(v: Server, h: nat) {
    h in v.subs && v.subs[h].id in v.table
  }

  /** A message that cannot be published ends the subscription. */
  function Sent(v: Server, h: nat, m: Message, published: bool): Server
    requires h in v.subs
  {
    var v' := v.(subs := v.subs[h := v.subs[h].(sent := v.subs[h].sent + [m])]);
    if published then v' else Unsubscribed(v', v.subs[h].id)
  }

  /** Ends the subscription with a last message, if it still is one. */
  function Ended(v: Server, h: nat, m: Message, published: bool): Server
    requires h in v.subs
  {
    if IsSubscribed(v, h) then Sent(Unsubscribed(v, v.subs[h].id), h, m, published) else v
  }

  function SetFinished(v: Server, h: nat): Server
    requires h in v.subs
  {
    v.(subs := v.subs[h := v.subs[h].(finished := true, endedItself := true)])
  }

  function Notified(v: Server, h: nat, c: Callback): Server
    requires h in v.subs
    ensures h in Notified(v, h, c).subs
  {
    match c
    case Update(value, serializes, published) =>
      if !IsSubscribed(v, h) then v
      else if serializes then Sent(v, h, Value(value), published)
      else Ended(v, h, Error, published)
    case Fail(published) => if v.subs[h].finished then v else Ended(SetFinished(v, h), h, Error, published)
    case Complete(published) => if v.subs[h].finished then v else Ended(SetFinished(v, h), h, Completion, published)
  }

  function NotifiedAll(v: Server, h: nat, script: seq<Callback>): Server
    requires h in v.subs
    ensures h in NotifiedAll(v, h, script).subs
  {
    if script == [] then v else Notified(NotifiedAll(v, h, Front(script)), h, Last(script))
  }

  /** The handler ran: it returned the source, or threw. */
  function Returned(v: Server, h: nat, r: Request): Server
    requires h in v.subs
  {
    if r.throws then Ended(v, h, Error, r.errorPublished) else v.(subs := v.subs[h := AddSource(v.subs[h])])
  }

  function Owed(v: Server, h: nat): Server
    requires h in v.subs
  {
    v.(subs := v.subs[h := v.subs[h].(ackDue := true)])
  }

  /** In the table, and the handler is called. */
  function Entered(v: Server, h: nat, id: string): Server
    requires h in v.subs
  {
    v.(table := v.table[id := h], subs := v.subs[h := v.subs[h].(started := true)])
  }

  /** A request that needs no session or has one, and whose id is not in the table. */
  function Admitted(v: Server, h: nat, id: string, r: Request): Server
    requires h in v.subs
  {
    Owed(Returned(NotifiedAll(Entered(v, h, id), h, r.script), h, r), h)
  }

  function Subscribed(v: Server, h: nat, id: string, r: Request): Server {
    if h in v.subs then v
    else
      var v0 := v.(subs := v.subs[h := NewSub(id)]);
      if !r.readable then Sent(v0, h, Error, r.errorPublished)
      else if !r.hasClientId then v0
      else
        var v1 := v.(subs := v.subs[h := NewSub(id).(watchesSession := v.sessionRequired)]);
        if v.sessionRequired && !r.hasSession then v1.(subs := v1.subs[h := DisposeAll(v1.subs[h])])
        else if id in v.table then v1             // adding the same key throws
        else Admitted(v1, h, id, r)
  }

  function Acked(v: Server, h: nat, published: bool): Server {
    if h !in v.subs || !v.subs[h].ackDue then v
    else Sent(v.(subs := v.subs[h := v.subs[h].(ackDue := false)]), h, Ack, published)
  }

  /** The watch is in the composite: once that is disposed it tells nothing more. */
  function SessionLost(v: Server, h: nat): Server {
    if h !in v.subs || !v.subs[h].watchesSession || v.subs[h].disposed then v
    else v.(subs := v.subs[h := DisposeAll(v.subs[h])], table := v.table - {v.subs[h].id})
  }

  datatype Step =
    | Subscribe(h: nat, id: string, request: Request)
    | SendAck(h: nat, published: bool)        // after the lock was released
    | Unsubscribe(id: string)
    | Notify(h: nat, callback: Callback)
    | LoseSession(h: nat)

  function Next(v: Server, a: Step): Server {
    match a
    case Subscribe(h, id, r) => Subscribed(v, h, id, r)
    case SendAck(h, published) => Acked(v, h, published)
    case Unsubscribe(id) => Unsubscribed(v, id)
    case Notify(h, c) => if h in v.subs && v.subs[h].started then Notified(v, h, c) else v
    case LoseSession(h) => SessionLost(v, h)
  }

  function Run(sessionRequired: bool, steps: seq<Step>): Server {
    if steps == [] then Server(sessionRequired, map[], map[]) else Next(Run(sessionRequired, Front(steps)), Last(steps))
  }

  // ----- the code's own form -----

  class RequestStreamServer {
    const sessionRequired: bool
    var subscriptions: map<string, nat>
    var subs: map<nat, Sub>

    function State(): Server
      reads this
    {
      Server(sessionRequired, subscriptions, subs)
    }

    constructor (sessionRequired: bool)
      ensures State() == Run(sessionRequired, [])
    {
      this.sessionRequired, subscriptions, subs := sessionRequired, map[], map[];
    }

    method ProcessUnsubscription(id: string)
      modifies this
      ensures State() == Unsubscribed(old(State()), id)
    {
      if id in subscriptions {
        var h := subscriptions[id];
        subscriptions := subscriptions - {id};
        if h in subs {
          subs := subs[h := DisposeAll(subs[h])];
        }
      }
    }

    method SendMessage(h: nat, m: Message, published: bool)
      requires h in subs
      modifies this
      ensures State() == Sent(old(State()), h, m, published)
    {
      var id := subs[h].id;
      subs := subs[h := subs[h].(sent := subs[h].sent + [m])];
      if !published {
        ProcessUnsubscription(id);
      }
    }

    method End(h: nat, m: Message, published: bool)
      requires h in subs
      modifies this
      ensures State() == Ended(old(State()), h, m, published)
    {
      if subs[h].id in subscriptions {
        ProcessUnsubscription(subs[h].id);
        SendMessage(h, m, published);
      }
    }

    method OnCallback(h: nat, c: Callback)
      requires h in subs
      modifies this
      ensures State() == Notified(old(State()), h, c) && h in subs
    {
      match c {
        case Update(value, serializes, published) =>
          if subs[h].id in subscriptions {
            if serializes {
              SendMessage(h, Value(value), published);
            } else {
              End(h, Error, published);
            }
          }
        case Fail(published) =>
          if !subs[h].finished {
            subs := subs[h := subs[h].(finished := true, endedItself := true)];
            End(h, Error, published);
          }
        case Complete(published) =>
          if !subs[h].finished {
            subs := subs[h := subs[h].(finished := true, endedItself := true)];
            End(h, Completion, published);
          }
      }
    }

    method RunHandler(h: nat, r: Request)
      requires h in subs
      modifies this
      ensures State() == Returned(NotifiedAll(old(State()), h, r.script), h, r) && h in subs
    {
      assert r.script[..0] == [];
      for i := 0 to |r.script|
        invariant h in subs
        invariant State() == NotifiedAll(old(State()), h, r.script[..i])
      {
        assert Front(r.script[..i + 1]) == r.script[..i];
        OnCallback(h, r.script[i]);
      }
      assert r.script[..|r.script|] == r.script;
      if r.throws {
        End(h, Error, r.errorPublished);
      } else {
        subs := subs[h := AddSource(subs[h])];
      }
    }

    method ProcessSubscription(h: nat, id: string, r: Request)
      requires h !in subs
      modifies this
      ensures State() == Subscribed(old(State()), h, id, r)
    {
      ghost var before := subs;
      subs := subs[h := NewSub(id)];
      if !r.readable {
        SendMessage(h, Error, r.errorPublished);
        return;
      }
      if !r.hasClientId {
        return;
      }
      subs := subs[h := subs[h].(watchesSession := sessionRequired)];
      assert subs == before[h := NewSub(id).(watchesSession := sessionRequired)];
      if sessionRequired && !r.hasSession {
        subs := subs[h := DisposeAll(subs[h])];
        return;
      }
      if id in subscriptions {
        return;
      }
      subscriptions := subscriptions[id := h];
      subs := subs[h := subs[h].(started := true)];
      RunHandler(h, r);
      subs := subs[h := subs[h].(ackDue := true)];
    }

    method OnSessionDestroyed(h: nat)
      requires h in subs && subs[h].watchesSession && !subs[h].disposed
      modifies this
      ensures State() == SessionLost(old(State()), h)
    {
      var id := subs[h].id;
      subs := subs[h := DisposeAll(subs[h])];
      subscriptions := subscriptions - {id};
    }
  }

  // ----- one subscription at a time -----

  /** No two requests used the same subscription id. */
  ghost predicate Fresh(v: Server) {
    forall h, k :: h in v.subs && k in v.subs && h != k ==> v.subs[h].id != v.subs[k].id
  }

  ghost predicate TableOk(v: Server) {
    forall id :: id in v.table ==> v.table[id] in v.subs && v.subs[v.table[id]].id == id
  }

  /** Terminal messages say that no more will come. */
  predicate IsTerminal(m: Message) {
    m.Error? || m.Completion?
  }

  /** After a terminal message nothing follows but the acknowledgement. */
  ghost predicate Closed(sent: seq<Message>) {
    forall i, j :: 0 <= i < j < |sent| && IsTerminal(sent[i]) ==> sent[j].Ack?
  }

  ghost predicate NoTerminal(sent: seq<Message>) {
    forall i :: 0 <= i < |sent| ==> !IsTerminal(sent[i])
  }

  ghost predicate SubOk(s: Sub, live: bool) {
    && Closed(s.sent)
    && (live ==> s.started && NoTerminal(s.sent) && !s.disposed && !s.endedItself)
    && s.disposals <= 1
    && (s.finished <==> s.endedItself || s.disposals == 1)
    && !(s.endedItself && s.disposals == 1)
    && (s.disposals == 1 ==> s.disposed && s.hasSource)
    && (s.hasSource && s.disposed ==> s.finished)
    && (s.hasSource && !live ==> s.finished)
  }

  /** The table has an entry under its id, its own or another's. */
  predicate Live(v: Server, h: nat)
    requires h in v.subs
  {
    v.subs[h].id in v.table
  }

  predicate Owns(v: Server, h: nat)
    requires h in v.subs
  {
    v.subs[h].id in v.table && v.table[v.subs[h].id] == h
  }

  /** If its id is in the table, the entry is its own. */
  ghost predicate Sole(v: Server, h: nat) {
    h in v.subs && (Live(v, h) ==> Owns(v, h))
  }

  ghost predicate ServerOk(v: Server) {
    && TableOk(v)
    && forall h :: h in v.subs ==> SubOk(v.subs[h], Owns(v, h))
  }

  /** v' differs from v in the subscription of h alone. */
  ghost predicate OnlyTouches(v: Server, v': Server, h: nat) {
    && h in v.subs && v'.subs.Keys == v.subs.Keys
    && v'.subs[h].id == v.subs[h].id
    && (forall k :: k in v.subs && k != h ==> v'.subs[k] == v.subs[k])
    && (forall id :: id != v.subs[h].id ==> (id in v'.table <==> id in v.table) && (id in v.table ==> v'.table[id] == v.table[id]))
    && (v.subs[h].id in v'.table ==> v'.table[v.subs[h].id] == h)
  }

  /** So it is enough to look at that one. */
  lemma TouchKeeps(v: Server, v': Server, h: nat)
    requires ServerOk(v) && Sole(v, h) && OnlyTouches(v, v', h)
    requires SubOk(v'.subs[h], Live(v', h))
    ensures ServerOk(v') && Sole(v', h)
  {
    forall k | k in v'.subs ensures SubOk(v'.subs[k], Owns(v', k)) {
      if k != h {
        assert SubOk(v.subs[k], Owns(v, k));
        assert Owns(v', k) <==> Owns(v, k);
      }
    }
  }

  lemma FreshIsSole(v: Server, h: nat)
    requires Fresh(v) && TableOk(v) && h in v.subs
    ensures Sole(v, h)
  {
  }

  lemma UnsubscribedTouches(v: Server, h: nat)
    requires Sole(v, h)
    ensures var v' := Unsubscribed(v, v.subs[h].id);
            && OnlyTouches(v, v', h) && !Live(v', h)
            && v'.subs[h] == if Live(v, h) then DisposeAll(v.subs[h]) else v.subs[h]
  {
  }

  lemma SentTouches(v: Server, h: nat, m: Message, published: bool)
    requires Sole(v, h)
    ensures var v' := Sent(v, h, m, published);
            var s := v.subs[h].(sent := v.subs[h].sent + [m]);
            && OnlyTouches(v, v', h) && (Live(v', h) <==> Live(v, h) && published)
            && v'.subs[h] == if Live(v, h) && !published then DisposeAll(s) else s
  {
    var v1 := v.(subs := v.subs[h := v.subs[h].(sent := v.subs[h].sent + [m])]);
    assert Sole(v1, h) && OnlyTouches(v, v1, h);
    if !published {
      UnsubscribedTouches(v1, h);
      TouchTwice(v, v1, Unsubscribed(v1, v.subs[h].id), h);
    }
  }

  /** Touching twice, with the facts in between. */
  lemma TouchTwice(v: Server, v1: Server, v2: Server, h: nat)
    requires OnlyTouches(v, v1, h) && OnlyTouches(v1, v2, h)
    ensures OnlyTouches(v, v2, h)
  {
  }

  lemma EndedTouches(v: Server, h: nat, m: Message, published: bool)
    requires Sole(v, h)
    ensures var v' := Ended(v, h, m, published);
            && OnlyTouches(v, v', h) && !Live(v', h)
            && v'.subs[h] == if Live(v, h) then DisposeAll(v.subs[h]).(sent := v.subs[h].sent + [m]) else v.subs[h]
  {
    if Live(v, h) {
      UnsubscribedTouches(v, h);
      var v1 := Unsubscribed(v, v.subs[h].id);
      SentTouches(v1, h, m, published);
      TouchTwice(v, v1, Ended(v, h, m, published), h);
    }
  }

  /** What a callback does to its own subscription. */
  function AfterCallback(s: Sub, live: bool, c: Callback): Sub {
    match c
    case Update(value, serializes, published) =>
      if !live then s
      else if !serializes then DisposeAll(s).(sent := s.sent + [Error])
      else if published then s.(sent := s.sent + [Value(value)])
      else DisposeAll(s.(sent := s.sent + [Value(value)]))
    case Fail(_) => EndsItself(s, live, Error)
    case Complete(_) => EndsItself(s, live, Completion)
  }

  function EndsItself(s: Sub, live: bool, m: Message): Sub {
    if s.finished then s
    else
      var s' := s.(finished := true, endedItself := true);
      if live then DisposeAll(s').(sent := s.sent + [m]) else s'
  }

  predicate LiveAfter(s: Sub, live: bool, c: Callback) {
    live && match c
            case Update(_, serializes, published) => serializes && published
            case _ => s.finished
  }

  lemma NotifiedTouches(v: Server, h: nat, c: Callback)
    requires Sole(v, h)
    ensures var v' := Notified(v, h, c);
            && OnlyTouches(v, v', h)
            && v'.subs[h] == AfterCallback(v.subs[h], Live(v, h), c)
            && (Live(v', h) <==> LiveAfter(v.subs[h], Live(v, h), c))
  {
    if c.Update? {
      if Live(v, h) && c.serializes {
        SentTouches(v, h, Value(c.value), c.published);
      } else if Live(v, h) {
        EndedTouches(v, h, Error, c.published);
      }
    } else if !v.subs[h].finished {
      var v1 := SetFinished(v, h);
      assert OnlyTouches(v, v1, h) && Sole(v1, h);
      EndedTouches(v1, h, if c.Fail? then Error else Completion, c.published);
      TouchTwice(v, v1, Notified(v, h, c), h);
    }
  }

  lemma ClosedSnoc(sent: seq<Message>, m: Message)
    requires Closed(sent) && (m.Ack? || NoTerminal(sent))
    ensures Closed(sent + [m]) && (!IsTerminal(m) && NoTerminal(sent) ==> NoTerminal(sent + [m]))
  {
  }

  /** In the table, or already disposed. */
  predicate Settled(s: Sub, live: bool) {
    live || s.disposed
  }

  lemma CallbackKeeps(s: Sub, live: bool, c: Callback)
    requires SubOk(s, live)
    ensures SubOk(AfterCallback(s, live, c), LiveAfter(s, live, c))
    ensures Settled(s, live) ==> Settled(AfterCallback(s, live, c), LiveAfter(s, live, c))
    ensures AfterCallback(s, live, c).hasSource == s.hasSource
  {
  }

  lemma NotifiedKeeps(v: Server, h: nat, c: Callback)
    requires ServerOk(v) && Sole(v, h)
    ensures var v' := Notified(v, h, c);
            && ServerOk(v') && Sole(v', h) && OnlyTouches(v, v', h)
            && (Settled(v.subs[h], Live(v, h)) ==> Settled(v'.subs[h], Live(v', h)))
            && v'.subs[h].hasSource == v.subs[h].hasSource
  {
    assert SubOk(v.subs[h], Owns(v, h));
    NotifiedTouches(v, h, c);
    CallbackKeeps(v.subs[h], Live(v, h), c);
    TouchKeeps(v, Notified(v, h, c), h);
  }

  lemma {:induction false} ScriptKeeps(v: Server, h: nat, script: seq<Callback>)
    requires ServerOk(v) && Sole(v, h) && Settled(v.subs[h], Live(v, h)) && !v.subs[h].hasSource
    ensures var v' := NotifiedAll(v, h, script);
            && ServerOk(v') && Sole(v', h) && OnlyTouches(v, v', h)
            && Settled(v'.subs[h], Live(v', h)) && !v'.subs[h].hasSource
  {
    if script != [] {
      ScriptKeeps(v, h, Front(script));
      var v1 := NotifiedAll(v, h, Front(script));
      NotifiedKeeps(v1, h, Last(script));
      TouchTwice(v, v1, NotifiedAll(v, h, script), h);
    }
  }

  lemma ReturnedKeeps(v: Server, h: nat, r: Request)
    requires ServerOk(v) && Sole(v, h) && Settled(v.subs[h], Live(v, h)) && !v.subs[h].hasSource
    ensures ServerOk(Returned(v, h, r)) && Sole(Returned(v, h, r), h)
  {
    var v' := Returned(v, h, r);
    var s := v.subs[h];
    assert SubOk(s, Owns(v, h));
    if r.throws {
      EndedTouches(v, h, Error, r.errorPublished);
      if Live(v, h) {
        ClosedSnoc(s.sent, Error);
      }
    }
    TouchKeeps(v, v', h);
  }

  /** A record is replaced by one as good, under the same id. */
  lemma ReplaceKeeps(v: Server, h: nat, s: Sub)
    requires ServerOk(v) && h in v.subs && s.id == v.subs[h].id && SubOk(s, Owns(v, h))
    ensures ServerOk(v.(subs := v.subs[h := s]))
  {
    var v' := v.(subs := v.subs[h := s]);
    forall k | k in v'.subs ensures SubOk(v'.subs[k], Owns(v', k)) {
      assert SubOk(v.subs[k], Owns(v, k));
    }
  }

  lemma OwedKeeps(v: Server, h: nat)
    requires ServerOk(v) && h in v.subs
    ensures ServerOk(Owed(v, h))
  {
    assert SubOk(v.subs[h], Owns(v, h));
    ReplaceKeeps(v, h, v.subs[h].(ackDue := true));
  }

  /** A new id is not in the table. */
  lemma NewIdNotInTable(v: Server, h: nat, id: string)
    requires TableOk(v) && h !in v.subs && Fresh(v.(subs := v.subs[h := NewSub(id)]))
    ensures id !in v.table && Fresh(v)
  {
    var v0 := v.(subs := v.subs[h := NewSub(id)]);
    forall k, l | k in v.subs && l in v.subs && k != l ensures v.subs[k].id != v.subs[l].id {
      assert v0.subs[k].id != v0.subs[l].id;
    }
    forall k | k in v.subs ensures v.subs[k].id != id {
      assert v0.subs[k].id != v0.subs[h].id;
    }
  }

  /** A new record has no entry of its own, whatever its id. */
  lemma AddedKeeps(v: Server, h: nat, s: Sub)
    requires ServerOk(v) && h !in v.subs && SubOk(s, false)
    ensures ServerOk(v.(subs := v.subs[h := s]))
  {
    var v' := v.(subs := v.subs[h := s]);
    forall k | k in v'.subs ensures SubOk(v'.subs[k], Owns(v', k)) {
      assert k != h ==> SubOk(v.subs[k], Owns(v, k));
    }
  }

  lemma EnteredKeeps(v: Server, h: nat, id: string)
    requires ServerOk(v) && h in v.subs && id !in v.table
    requires v.subs[h] == NewSub(id).(watchesSession := v.subs[h].watchesSession)
    ensures var v' := Entered(v, h, id);
            ServerOk(v') && Sole(v', h) && Settled(v'.subs[h], Live(v', h)) && !v'.subs[h].hasSource
  {
    var v' := Entered(v, h, id);
    forall k | k in v'.subs ensures SubOk(v'.subs[k], Owns(v', k)) {
      assert SubOk(v.subs[k], Owns(v, k));
    }
  }

  lemma AdmittedKeeps(v: Server, h: nat, id: string, r: Request)
    requires ServerOk(v) && h in v.subs && id !in v.table
    requires v.subs[h] == NewSub(id).(watchesSession := v.subs[h].watchesSession)
    ensures ServerOk(Admitted(v, h, id, r))
  {
    EnteredKeeps(v, h, id);
    var v1 := Entered(v, h, id);
    ScriptKeeps(v1, h, r.script);
    var v2 := NotifiedAll(v1, h, r.script);
    ReturnedKeeps(v2, h, r);
    OwedKeeps(Returned(v2, h, r), h);
  }

  lemma UnsubscribedKeeps(v: Server, id: string)
    requires ServerOk(v)
    ensures ServerOk(Unsubscribed(v, id))
  {
    if id in v.table {
      var h := v.table[id];
      assert SubOk(v.subs[h], Owns(v, h));
      UnsubscribedTouches(v, h);
      TouchKeeps(v, Unsubscribed(v, id), h);
    }
  }

  /** No request disturbs another, whatever ids they use. */
  lemma SubscribedKeeps(v: Server, h: nat, id: string, r: Request)
    requires ServerOk(v) && h !in v.subs
    ensures ServerOk(Subscribed(v, h, id, r))
  {
    var s1 := NewSub(id).(watchesSession := v.sessionRequired);
    if !r.readable {
      UnreadableKeeps(v, h, id, r.errorPublished);
    } else if !r.hasClientId {
      AddedKeeps(v, h, NewSub(id));
    } else if v.sessionRequired && !r.hasSession {
      AddedKeeps(v, h, DisposeAll(s1));
      assert v.subs[h := s1][h := DisposeAll(s1)] == v.subs[h := DisposeAll(s1)];
    } else {
      AddedKeeps(v, h, s1);
      if id !in v.table {
        AdmittedKeeps(v.(subs := v.subs[h := s1]), h, id, r);
      }
    }
  }

  lemma UnreadableKeeps(v: Server, h: nat, id: string, published: bool)
    requires ServerOk(v) && h !in v.subs
    ensures ServerOk(Sent(v.(subs := v.subs[h := NewSub(id)]), h, Error, published))
  {
    var s := NewSub(id).(sent := [Error]);
    var v1 := v.(subs := v.subs[h := s]);
    assert [] + [Error] == [Error];
    assert v.subs[h := NewSub(id)][h := s] == v.subs[h := s];
    AddedKeeps(v, h, s);
    UnsubscribedKeeps(v1, id);
  }

  lemma AckedKeeps(v: Server, h: nat, published: bool)
    requires ServerOk(v)
    ensures ServerOk(Acked(v, h, published))
  {
    if h in v.subs && v.subs[h].ackDue {
      var s := v.subs[h];
      var s' := s.(ackDue := false, sent := s.sent + [Ack]);
      assert SubOk(s, Owns(v, h));
      ClosedSnoc(s.sent, Ack);
      ReplaceKeeps(v, h, s');
      var v1 := v.(subs := v.subs[h := s']);
      assert v.subs[h := s.(ackDue := false)][h := s'] == v.subs[h := s'];
      UnsubscribedKeeps(v1, s.id);
    }
  }

  lemma LostKeeps(v: Server, h: nat)
    requires ServerOk(v) && Sole(v, h)
    ensures ServerOk(SessionLost(v, h))
  {
    if v.subs[h].watchesSession && !v.subs[h].disposed {
      assert SubOk(v.subs[h], Owns(v, h));
      TouchKeeps(v, SessionLost(v, h), h);
    }
  }

  /** What the guarantees ask of a step: who calls back or loses a session finds no entry of another's
      under its id. */
  ghost predicate Safe(v: Server, a: Step) {
    match a
    case Notify(h, _) => h in v.subs && v.subs[h].started ==> Sole(v, h)
    case LoseSession(h) => h in v.subs && v.subs[h].watchesSession && !v.subs[h].disposed ==> Sole(v, h)
    case _ => true
  }

  lemma StepKeeps(v: Server, a: Step)
    requires ServerOk(v) && Safe(v, a)
    ensures ServerOk(Next(v, a))
  {
    match a {
      case Subscribe(h, id, r) =>
        if h !in v.subs {
          SubscribedKeeps(v, h, id, r);
        }
      case SendAck(h, published) => AckedKeeps(v, h, published);
      case Unsubscribe(id) => UnsubscribedKeeps(v, id);
      case Notify(h, c) =>
        if h in v.subs && v.subs[h].started {
          NotifiedKeeps(v, h, c);
        }
      case LoseSession(h) =>
        if h in v.subs && v.subs[h].watchesSession && !v.subs[h].disposed {
          LostKeeps(v, h);
        }
    }
  }

  // ----- ids stay, so freshness at the end is freshness all along -----

  ghost predicate Kept(v: Server, v': Server) {
    forall h :: h in v.subs ==> h in v'.subs && v'.subs[h].id == v.subs[h].id
  }

  /** No request came or went. */
  ghost predicate Same(v: Server, v': Server) {
    && v'.subs.Keys == v.subs.Keys && v'.sessionRequired == v.sessionRequired
    && Kept(v, v')
    && (forall h :: h in v.subs && v'.subs[h].watchesSession ==> v.subs[h].watchesSession || v.sessionRequired)
  }

  lemma SameTwice(v: Server, v1: Server, v2: Server)
    requires Same(v, v1) && Same(v1, v2)
    ensures Same(v, v2)
  {
  }

  lemma UnsubscribedKept(v: Server, id: string)
    ensures Same(v, Unsubscribed(v, id))
  {
  }

  lemma SentKept(v: Server, h: nat, m: Message, published: bool)
    requires h in v.subs
    ensures Same(v, Sent(v, h, m, published))
  {
    var v1 := v.(subs := v.subs[h := v.subs[h].(sent := v.subs[h].sent + [m])]);
    assert Same(v, v1);
    UnsubscribedKept(v1, v.subs[h].id);
    SameTwice(v, v1, Unsubscribed(v1, v.subs[h].id));
  }

  lemma EndedKept(v: Server, h: nat, m: Message, published: bool)
    requires h in v.subs
    ensures Same(v, Ended(v, h, m, published))
  {
    var v1 := Unsubscribed(v, v.subs[h].id);
    UnsubscribedKept(v, v.subs[h].id);
    SentKept(v1, h, m, published);
    SameTwice(v, v1, Sent(v1, h, m, published));
  }

  lemma SetFinishedKept(v: Server, h: nat, m: Message, published: bool)
    requires h in v.subs
    ensures Same(v, Ended(SetFinished(v, h), h, m, published))
  {
    var v1 := SetFinished(v, h);
    assert Same(v, v1);
    EndedKept(v1, h, m, published);
    SameTwice(v, v1, Ended(v1, h, m, published));
  }

  lemma NotifiedKept(v: Server, h: nat, c: Callback)
    requires h in v.subs
    ensures Same(v, Notified(v, h, c))
  {
    match c {
      case Update(value, _, published) =>
        EndedKept(v, h, Error, published);
        SentKept(v, h, Value(value), published);
      case Fail(published) => SetFinishedKept(v, h, Error, published);
      case Complete(published) => SetFinishedKept(v, h, Completion, published);
    }
  }

  lemma {:induction false} ScriptKept(v: Server, h: nat, script: seq<Callback>)
    requires h in v.subs
    ensures Same(v, NotifiedAll(v, h, script))
  {
    if script != [] {
      ScriptKept(v, h, Front(script));
      NotifiedKept(NotifiedAll(v, h, Front(script)), h, Last(script));
    }
  }

  lemma ReturnedKept(v: Server, h: nat, r: Request)
    requires h in v.subs
    ensures Same(v, Owed(Returned(v, h, r), h))
  {
    var v1 := Returned(v, h, r);
    if r.throws {
      EndedKept(v, h, Error, r.errorPublished);
    } else {
      ReplacedKept(v, h, AddSource(v.subs[h]));
    }
    ReplacedKept(v1, h, v1.subs[h].(ackDue := true));
    SameTwice(v, v1, Owed(v1, h));
  }

  lemma ReplacedKept(v: Server, h: nat, s: Sub)
    requires h in v.subs && s.id == v.subs[h].id && s.watchesSession == v.subs[h].watchesSession
    ensures Same(v, v.(subs := v.subs[h := s]))
  {
  }

  lemma AdmittedKept(v: Server, h: nat, id: string, r: Request)
    requires h in v.subs
    ensures Same(v, Admitted(v, h, id, r))
  {
    var v1 := Entered(v, h, id);
    assert Same(v, v1);
    ScriptKept(v1, h, r.script);
    var v2 := NotifiedAll(v1, h, r.script);
    SameTwice(v, v1, v2);
    ReturnedKept(v2, h, r);
    SameTwice(v, v2, Admitted(v, h, id, r));
  }

  lemma SubscribedKept(v: Server, h: nat, id: string, r: Request)
    requires h !in v.subs
    ensures Same(v.(subs := v.subs[h := NewSub(id)]), Subscribed(v, h, id, r))
  {
    var v0 := v.(subs := v.subs[h := NewSub(id)]);
    if !r.readable {
      SentKept(v0, h, Error, r.errorPublished);
    } else if r.hasClientId {
      var s1 := NewSub(id).(watchesSession := v.sessionRequired);
      var v1 := v.(subs := v.subs[h := s1]);
      assert v.subs[h := NewSub(id)][h := s1] == v.subs[h := s1];
      WatchKept(v0, h, s1);
      if v.sessionRequired && !r.hasSession {
        ReplacedKept(v1, h, DisposeAll(s1));
        SameTwice(v0, v1, Subscribed(v, h, id, r));
      } else if id !in v.table {
        AdmittedKept(v1, h, id, r);
        SameTwice(v0, v1, Subscribed(v, h, id, r));
      }
    }
  }

  lemma WatchKept(v: Server, h: nat, s: Sub)
    requires h in v.subs && s.id == v.subs[h].id && (s.watchesSession ==> v.sessionRequired)
    ensures Same(v, v.(subs := v.subs[h := s]))
  {
  }

  lemma NextKept(v: Server, a: Step)
    ensures Kept(v, Next(v, a))
  {
    match a {
      case Subscribe(h, id, r) =>
        if h !in v.subs {
          SubscribedKept(v, h, id, r);
          KeptWithNew(v, Subscribed(v, h, id, r), h, id);
        }
      case Notify(h, c) =>
        if h in v.subs {
          NotifiedKept(v, h, c);
        }
      case SendAck(h, published) =>
        if h in v.subs {
          AckedKept(v, h, published);
        }
      case Unsubscribe(id) => UnsubscribedKept(v, id);
      case LoseSession(h) => LostKept(v, h);
    }
  }

  lemma KeptWithNew(v: Server, v': Server, h: nat, id: string)
    requires h !in v.subs && Kept(v.(subs := v.subs[h := NewSub(id)]), v')
    ensures Kept(v, v')
  {
  }

  lemma AckedKept(v: Server, h: nat, published: bool)
    requires h in v.subs
    ensures Same(v, Acked(v, h, published))
  {
    var v1 := v.(subs := v.subs[h := v.subs[h].(ackDue := false)]);
    assert Same(v, v1);
    SentKept(v1, h, Ack, published);
    SameTwice(v, v1, Sent(v1, h, Ack, published));
  }

  lemma LostKept(v: Server, h: nat)
    ensures Same(v, SessionLost(v, h))
  {
  }

  lemma FreshBefore(v: Server, v': Server)
    requires Kept(v, v') && Fresh(v')
    ensures Fresh(v)
  {
  }

  lemma FreshIsSafe(v: Server, a: Step)
    requires Fresh(v) && ServerOk(v)
    ensures Safe(v, a)
  {
  }

  lemma {:induction false} EveryRunIsOk(sessionRequired: bool, steps: seq<Step>)
    requires Fresh(Run(sessionRequired, steps))
    ensures ServerOk(Run(sessionRequired, steps))
  {
    if steps != [] {
      var v, a := Run(sessionRequired, Front(steps)), Last(steps);
      NextKept(v, a);
      FreshBefore(v, Next(v, a));
      EveryRunIsOk(sessionRequired, Front(steps));
      FreshIsSafe(v, a);
      StepKeeps(v, a);
    }
  }

  // ----- main results -----

  /** What one subscription may rely on. */
  ghost predicate Guaranteed(s: Sub, live: bool) {
    && (forall i, j :: 0 <= i < j < |s.sent| && IsTerminal(s.sent[i]) ==> s.sent[j] == Ack)
    && (live ==> s.disposals == 0 && !s.endedItself && forall i :: 0 <= i < |s.sent| ==> !IsTerminal(s.sent[i]))
    && (!live && s.hasSource ==> s.disposals == if s.endedItself then 0 else 1)
    && (!s.hasSource ==> s.disposals == 0)
  }

  /** In every run with fresh subscription ids: at most one terminal message, nothing but the
      acknowledgement after it; while a subscription is in the table it got no terminal message and its
      source is untouched; once it is gone its source was disposed exactly once, or had ended itself and
      was not disposed at all. */
  lemma {:induction false} OneTerminalOneDisposal(sessionRequired: bool, steps: seq<Step>, h: nat)
    requires Fresh(Run(sessionRequired, steps)) && h in Run(sessionRequired, steps).subs
    ensures Guaranteed(Run(sessionRequired, steps).subs[h], Owns(Run(sessionRequired, steps), h))
  {
    EveryRunIsOk(sessionRequired, steps);
    assert SubOk(Run(sessionRequired, steps).subs[h], Owns(Run(sessionRequired, steps), h));
  }

  /** A subscription that is gone stays gone and is sent nothing more but an acknowledgement it is owed. */
  lemma GoneStaysGone(v: Server, a: Step, h: nat)
    requires Fresh(Next(v, a)) && ServerOk(v) && h in v.subs && !Live(v, h)
    ensures h in Next(v, a).subs && !Live(Next(v, a), h)
    ensures Next(v, a).subs[h].sent == v.subs[h].sent + if a.SendAck? && a.h == h && v.subs[h].ackDue then [Ack] else []
    ensures Next(v, a).subs[h].ackDue ==> v.subs[h].ackDue
  {
    NextKept(v, a);
    FreshBefore(v, Next(v, a));
    match a {
      case Subscribe(k, id, r) =>
        if k !in v.subs {
          SubscribedKept(v, k, id, r);
          FreshBefore(v.(subs := v.subs[k := NewSub(id)]), Next(v, a));
          SubscribeLeaves(v, k, id, r, h);
        }
      case Notify(k, c) =>
        if k in v.subs && v.subs[k].started {
          NotifyLeaves(v, k, c, h);
        }
      case Unsubscribe(id) => UnsubscribeLeaves(v, id, h);
      case SendAck(k, published) =>
        if k in v.subs && v.subs[k].ackDue {
          AckLeaves(v, k, published, h);
        }
      case LoseSession(k) =>
        LoseLeaves(v, k, h);
    }
  }

  lemma NotifyLeaves(v: Server, k: nat, c: Callback, h: nat)
    requires Fresh(v) && TableOk(v) && h in v.subs && k in v.subs && !Live(v, h)
    ensures h in Notified(v, k, c).subs && !Live(Notified(v, k, c), h)
    ensures Notified(v, k, c).subs[h].sent == v.subs[h].sent && Notified(v, k, c).subs[h].ackDue == v.subs[h].ackDue
  {
    FreshIsSole(v, k);
    NotifiedTouches(v, k, c);
    if k != h {
      assert v.subs[h].id != v.subs[k].id;
    }
  }

  lemma UnsubscribeLeaves(v: Server, id: string, h: nat)
    requires Fresh(v) && TableOk(v) && h in v.subs && (id == v.subs[h].id ==> !Live(v, h))
    ensures h in Unsubscribed(v, id).subs && Unsubscribed(v, id).subs[h] == v.subs[h]
    ensures Live(Unsubscribed(v, id), h) <==> Live(v, h)
  {
  }

  lemma LoseLeaves(v: Server, k: nat, h: nat)
    requires Fresh(v) && h in v.subs && (k == h ==> !Live(v, h))
    ensures h in SessionLost(v, k).subs
    ensures SessionLost(v, k).subs[h].sent == v.subs[h].sent && SessionLost(v, k).subs[h].ackDue == v.subs[h].ackDue
    ensures Live(SessionLost(v, k), h) <==> Live(v, h)
  {
  }

  lemma AckLeaves(v: Server, k: nat, published: bool, h: nat)
    requires Fresh(v) && TableOk(v) && h in v.subs && k in v.subs && v.subs[k].ackDue && (k == h ==> !Live(v, h))
    ensures h in Acked(v, k, published).subs && (Live(Acked(v, k, published), h) <==> Live(v, h))
    ensures Acked(v, k, published).subs[h] ==
            if k == h then v.subs[h].(ackDue := false, sent := v.subs[h].sent + [Ack]) else v.subs[h]
  {
  }

  lemma SubscribeLeaves(v: Server, k: nat, id: string, r: Request, h: nat)
    requires ServerOk(v) && k !in v.subs && Fresh(v.(subs := v.subs[k := NewSub(id)]))
    requires h in v.subs
    ensures h in Subscribed(v, k, id, r).subs && Subscribed(v, k, id, r).subs[h] == v.subs[h]
    ensures Live(Subscribed(v, k, id, r), h) <==> Live(v, h)
  {
    var v0 := v.(subs := v.subs[k := NewSub(id)]);
    NewIdNotInTable(v, k, id);
    assert v0.subs[h].id != v0.subs[k].id;
    if !r.readable {
      SentTouches(v0, k, Error, r.errorPublished);
    } else if r.hasClientId && (!v.sessionRequired || r.hasSession) {
      var s1 := NewSub(id).(watchesSession := v.sessionRequired);
      AddedKeeps(v, k, s1);
      AdmittedLeaves(v.(subs := v.subs[k := s1]), k, id, r, h);
    }
  }

  lemma AdmittedLeaves(v: Server, k: nat, id: string, r: Request, h: nat)
    requires ServerOk(v) && k in v.subs && id !in v.table
    requires v.subs[k] == NewSub(id).(watchesSession := v.subs[k].watchesSession)
    requires h in v.subs && h != k && v.subs[h].id != id
    ensures h in Admitted(v, k, id, r).subs && Admitted(v, k, id, r).subs[h] == v.subs[h]
    ensures Live(Admitted(v, k, id, r), h) <==> Live(v, h)
  {
    EnteredKeeps(v, k, id);
    AdmittedTouches(Entered(v, k, id), k, r);
  }

  /** The handler and what follows it, with the request in the table. */
  lemma AdmittedTouches(v: Server, k: nat, r: Request)
    requires ServerOk(v) && Sole(v, k) && Settled(v.subs[k], Live(v, k)) && !v.subs[k].hasSource
    ensures OnlyTouches(v, Owed(Returned(NotifiedAll(v, k, r.script), k, r), k), k)
  {
    ScriptKeeps(v, k, r.script);
    var v1 := NotifiedAll(v, k, r.script);
    ReturnedTouches(v1, k, r);
    TouchTwice(v, v1, Owed(Returned(v1, k, r), k), k);
  }

  lemma ReturnedTouches(v: Server, k: nat, r: Request)
    requires Sole(v, k)
    ensures OnlyTouches(v, Owed(Returned(v, k, r), k), k)
  {
    if r.throws {
      EndedTouches(v, k, Error, r.errorPublished);
    }
  }

  // ----- what is sent, told independently -----

  /** What happens to one subscription, without flags, tables and disposables. */
  datatype Happening = Called(c: Callback) | Threw | Removed

  /** What a subscriber should be sent, acknowledgements aside: every update until the first failure,
      completion, removal or message that cannot be published, and then at most one last word. */
  datatype Transcript = Transcript(open: bool, said: seq<Message>)

  function Then(t: Transcript, e: Happening): Transcript {
    match e
    case Removed => t.(open := false)
    case Threw => if t.open then Transcript(false, t.said + [Error]) else t
    case Called(c) =>
      if !t.open then t
      else
        match c
        case Update(value, serializes, published) =>
          if serializes then Transcript(published, t.said + [Value(value)]) else Transcript(false, t.said + [Error])
        case Fail(_) => Transcript(false, t.said + [Error])
        case Complete(_) => Transcript(false, t.said + [Completion])
  }

  function ThenAll(t: Transcript, script: seq<Callback>): Transcript {
    if script == [] then t else Then(ThenAll(t, Front(script)), Called(Last(script)))
  }

  /** A request's first steps, up to the return of its handler. */
  function Opening(sessionRequired: bool, r: Request): Transcript {
    if !r.readable then Transcript(false, [Error])
    else if !r.hasClientId || (sessionRequired && !r.hasSession) then Transcript(false, [])
    else
      var t := ThenAll(Transcript(true, []), r.script);
      if r.throws then Then(t, Threw) else t
  }

  /** What a step means to a subscription that exists. */
  function Means(v: Server, a: Step, h: nat): seq<Happening>
    requires h in v.subs
  {
    match a
    case Notify(k, c) => if k == h then [Called(c)] else []
    case Unsubscribe(id) => if id == v.subs[h].id then [Removed] else []
    case LoseSession(k) => if k == h && v.subs[h].watchesSession then [Removed] else []
    case SendAck(k, published) => if k == h && v.subs[h].ackDue && !published then [Removed] else []
    case Subscribe(_, _, _) => []
  }

  /** The transcript of subscription h in a run. */
  function Story(sessionRequired: bool, steps: seq<Step>, h: nat): Transcript {
    if steps == [] then Transcript(false, [])
    else
      var v, before, a := Run(sessionRequired, Front(steps)), Story(sessionRequired, Front(steps), h), Last(steps);
      if h in v.subs then (if Means(v, a, h) == [] then before else Then(before, Means(v, a, h)[0]))
      else if a.Subscribe? && a.h == h then Opening(sessionRequired, a.request)
      else before
  }

  function NoAcks(sent: seq<Message>): seq<Message> {
    if sent == [] then [] else NoAcks(Front(sent)) + if Last(sent).Ack? then [] else [Last(sent)]
  }

  lemma NoAcksSnoc(sent: seq<Message>, m: Message)
    ensures NoAcks(sent + [m]) == NoAcks(sent) + if m.Ack? then [] else [m]
  {
  }

  ghost predicate Matches(s: Sub, live: bool, t: Transcript) {
    (live <==> t.open) && NoAcks(s.sent) == t.said
  }

  lemma CallbackMatches(s: Sub, live: bool, c: Callback, t: Transcript)
    requires SubOk(s, live) && Matches(s, live, t)
    ensures Matches(AfterCallback(s, live, c), LiveAfter(s, live, c), Then(t, Called(c)))
  {
  }

  lemma {:induction false} ScriptMatches(v: Server, h: nat, script: seq<Callback>, t: Transcript)
    requires ServerOk(v) && Sole(v, h) && Settled(v.subs[h], Live(v, h)) && !v.subs[h].hasSource
    requires Matches(v.subs[h], Live(v, h), t)
    ensures h in NotifiedAll(v, h, script).subs
    ensures Matches(NotifiedAll(v, h, script).subs[h], Live(NotifiedAll(v, h, script), h), ThenAll(t, script))
  {
    if script != [] {
      ScriptMatches(v, h, Front(script), t);
      ScriptKeeps(v, h, Front(script));
      var v1 := NotifiedAll(v, h, Front(script));
      assert SubOk(v1.subs[h], Owns(v1, h));
      NotifiedTouches(v1, h, Last(script));
      CallbackMatches(v1.subs[h], Live(v1, h), Last(script), ThenAll(t, Front(script)));
    }
  }

  lemma AdmittedMatches(v: Server, h: nat, id: string, r: Request)
    requires ServerOk(v) && h in v.subs && id !in v.table
    requires v.subs[h] == NewSub(id).(watchesSession := v.subs[h].watchesSession)
    ensures var v', t := Admitted(v, h, id, r), ThenAll(Transcript(true, []), r.script);
            && h in v'.subs
            && Matches(v'.subs[h], Live(v', h), if r.throws then Then(t, Threw) else t)
  {
    EnteredKeeps(v, h, id);
    var v1 := Entered(v, h, id);
    ScriptMatches(v1, h, r.script, Transcript(true, []));
    ScriptKeeps(v1, h, r.script);
    ReturnedMatches(NotifiedAll(v1, h, r.script), h, r, ThenAll(Transcript(true, []), r.script));
  }

  lemma ReturnedMatches(v: Server, h: nat, r: Request, t: Transcript)
    requires Sole(v, h) && Matches(v.subs[h], Live(v, h), t)
    ensures h in Owed(Returned(v, h, r), h).subs
    ensures Matches(Owed(Returned(v, h, r), h).subs[h], Live(Owed(Returned(v, h, r), h), h), if r.throws then Then(t, Threw) else t)
  {
    if r.throws {
      ThrowMatches(v, h, r.errorPublished, t);
      var v1 := Ended(v, h, Error, r.errorPublished);
      assert Owed(v1, h).subs[h].sent == v1.subs[h].sent && (Live(Owed(v1, h), h) <==> Live(v1, h));
    } else {
      var v1 := Returned(v, h, r);
      assert Owed(v1, h).subs[h].sent == v.subs[h].sent && (Live(Owed(v1, h), h) <==> Live(v, h));
    }
  }

  lemma ThrowMatches(v: Server, h: nat, published: bool, t: Transcript)
    requires Sole(v, h) && Matches(v.subs[h], Live(v, h), t)
    ensures h in Ended(v, h, Error, published).subs
    ensures Matches(Ended(v, h, Error, published).subs[h], Live(Ended(v, h, Error, published), h), Then(t, Threw))
  {
    EndedTouches(v, h, Error, published);
    LastWordMatches(v.subs[h], Live(v, h), Ended(v, h, Error, published).subs[h], t);
  }

  lemma LastWordMatches(s: Sub, live: bool, s': Sub, t: Transcript)
    requires Matches(s, live, t) && s'.sent == if live then s.sent + [Error] else s.sent
    ensures Matches(s', false, Then(t, Threw))
  {
    NoAcksSnoc(s.sent, Error);
  }

  lemma OpeningMatches(v: Server, h: nat, id: string, r: Request)
    requires ServerOk(v) && h !in v.subs && Fresh(v.(subs := v.subs[h := NewSub(id)]))
    ensures h in Subscribed(v, h, id, r).subs
    ensures Matches(Subscribed(v, h, id, r).subs[h], Live(Subscribed(v, h, id, r), h), Opening(v.sessionRequired, r))
  {
    NewIdNotInTable(v, h, id);
    var v0 := v.(subs := v.subs[h := NewSub(id)]);
    var s1 := NewSub(id).(watchesSession := v.sessionRequired);
    if !r.readable {
      SentTouches(v0, h, Error, r.errorPublished);
      NoAcksSnoc([], Error);
    } else if r.hasClientId && !(v.sessionRequired && !r.hasSession) {
      AddedKeeps(v, h, s1);
      AdmittedMatches(v.(subs := v.subs[h := s1]), h, id, r);
    }
  }

  lemma NotifyMatches(v: Server, k: nat, c: Callback, h: nat, t: Transcript)
    requires Fresh(v) && ServerOk(v) && h in v.subs && k in v.subs && Matches(v.subs[h], Live(v, h), t)
    ensures h in Notified(v, k, c).subs
    ensures Matches(Notified(v, k, c).subs[h], Live(Notified(v, k, c), h), if k == h then Then(t, Called(c)) else t)
  {
    assert SubOk(v.subs[h], Owns(v, h));
    FreshIsSole(v, k);
    NotifiedTouches(v, k, c);
    if k == h {
      CallbackMatches(v.subs[h], Live(v, h), c, t);
    } else {
      assert v.subs[h].id != v.subs[k].id;
    }
  }

  lemma AckMatches(v: Server, k: nat, published: bool, h: nat, t: Transcript)
    requires Fresh(v) && ServerOk(v) && h in v.subs && k in v.subs && v.subs[k].ackDue && Matches(v.subs[h], Live(v, h), t)
    ensures h in Acked(v, k, published).subs
    ensures Matches(Acked(v, k, published).subs[h], Live(Acked(v, k, published), h),
                    if k == h && !published then Then(t, Removed) else t)
  {
    if k != h {
      assert v.subs[h].id != v.subs[k].id;
      AckLeaves(v, k, published, h);
    } else {
      FreshIsSole(v, h);
      OwnAckMatches(v, h, published, t);
    }
  }

  lemma OwnAckMatches(v: Server, h: nat, published: bool, t: Transcript)
    requires Sole(v, h) && v.subs[h].ackDue && Matches(v.subs[h], Live(v, h), t)
    ensures h in Acked(v, h, published).subs
    ensures Matches(Acked(v, h, published).subs[h], Live(Acked(v, h, published), h), if !published then Then(t, Removed) else t)
  {
  }

  lemma StepMatches(v: Server, a: Step, h: nat, t: Transcript)
    requires Fresh(Next(v, a)) && Fresh(v) && ServerOk(v) && h in v.subs && Matches(v.subs[h], Live(v, h), t)
    ensures h in Next(v, a).subs
    ensures Matches(Next(v, a).subs[h], Live(Next(v, a), h), if Means(v, a, h) == [] then t else Then(t, Means(v, a, h)[0]))
  {
    match a {
      case Subscribe(k, id, r) =>
        if k !in v.subs {
          SubscribedKept(v, k, id, r);
          FreshBefore(v.(subs := v.subs[k := NewSub(id)]), Next(v, a));
          SubscribeLeaves(v, k, id, r, h);
        }
      case Notify(k, c) =>
        assert SubOk(v.subs[h], Owns(v, h));
        FreshIsSole(v, h);
        if k in v.subs && v.subs[k].started {
          NotifyMatches(v, k, c, h, t);
        }
      case Unsubscribe(id) =>
        if id == v.subs[h].id {
          FreshIsSole(v, h);
          UnsubscribedTouches(v, h);
        } else {
          UnsubscribeLeaves(v, id, h);
        }
      case SendAck(k, published) =>
        if k in v.subs && v.subs[k].ackDue {
          AckMatches(v, k, published, h, t);
        }
      case LoseSession(k) =>
        if k != h {
          LoseLeaves(v, k, h);
        } else {
          assert SubOk(v.subs[h], Owns(v, h));
          FreshIsSole(v, h);
        }
    }
  }

  /** In every run with fresh ids a subscriber is sent, acknowledgements aside, exactly what the story of
      its subscription says: the updates in order, none lost, none after the end. */
  lemma {:induction false} SaidExactly(sessionRequired: bool, steps: seq<Step>, h: nat)
    requires Fresh(Run(sessionRequired, steps)) && h in Run(sessionRequired, steps).subs
    ensures NoAcks(Run(sessionRequired, steps).subs[h].sent) == Story(sessionRequired, steps, h).said
    ensures Live(Run(sessionRequired, steps), h) <==> Story(sessionRequired, steps, h).open
  {
    assert steps != [];
    var v, a := Run(sessionRequired, Front(steps)), Last(steps);
    NextKept(v, a);
    FreshBefore(v, Next(v, a));
    EveryRunIsOk(sessionRequired, Front(steps));
    SameRequirement(sessionRequired, Front(steps));
    if h in v.subs {
      SaidExactly(sessionRequired, Front(steps), h);
      StepMatches(v, a, h, Story(sessionRequired, Front(steps), h));
    } else {
      OnlySubscribeAdds(v, a, h);
      SubscribedKept(v, h, a.id, a.request);
      FreshBefore(v.(subs := v.subs[h := NewSub(a.id)]), Next(v, a));
      OpeningMatches(v, h, a.id, a.request);
    }
  }

  lemma {:induction false} SameRequirement(sessionRequired: bool, steps: seq<Step>)
    ensures Run(sessionRequired, steps).sessionRequired == sessionRequired
  {
    if steps != [] {
      SameRequirement(sessionRequired, Front(steps));
      var v := Run(sessionRequired, Front(steps));
      match Last(steps) {
        case Subscribe(h, id, r) =>
          if h !in v.subs {
            SubscribedKept(v, h, id, r);
          }
        case Notify(h, c) =>
          if h in v.subs {
            NotifiedKept(v, h, c);
          }
        case _ =>
      }
    }
  }

  lemma OnlySubscribeAdds(v: Server, a: Step, h: nat)
    requires h !in v.subs && h in Next(v, a).subs
    ensures a.Subscribe? && a.h == h
  {
    if a.Subscribe? && a.h !in v.subs {
      SubscribedKept(v, a.h, a.id, a.request);
    } else if a.Notify? && a.h in v.subs {
      NotifiedKept(v, a.h, a.callback);
    }
  }

  // ----- exactly the lists of distinct ids are safe -----

  /** The ids of the requests processed, in order. */
  function IdsUsed(sessionRequired: bool, steps: seq<Step>): seq<string> {
    if steps == [] then []
    else
      var a := Last(steps);
      IdsUsed(sessionRequired, Front(steps)) +
      if a.Subscribe? && a.h !in Run(sessionRequired, Front(steps)).subs then [a.id] else []
  }

  ghost predicate AllGuaranteed(v: Server) {
    forall h :: h in v.subs ==> Guaranteed(v.subs[h], Owns(v, h))
  }

  lemma {:induction false} DistinctIdsAreFresh(sessionRequired: bool, steps: seq<Step>)
    ensures forall h :: h in Run(sessionRequired, steps).subs ==> Run(sessionRequired, steps).subs[h].id in IdsUsed(sessionRequired, steps)
    ensures Distinct(IdsUsed(sessionRequired, steps)) ==> Fresh(Run(sessionRequired, steps))
  {
    if steps != [] {
      DistinctIdsAreFresh(sessionRequired, Front(steps));
      var v, a := Run(sessionRequired, Front(steps)), Last(steps);
      var before, v' := IdsUsed(sessionRequired, Front(steps)), Next(v, a);
      NextKept(v, a);
      if a.Subscribe? && a.h !in v.subs {
        SubscribedKept(v, a.h, a.id, a.request);
        DistinctSnoc(before, a.id);
      } else {
        assert before + [] == before;
        forall h | h in v'.subs ensures h in v.subs {
          if h !in v.subs {
            OnlySubscribeAdds(v, a, h);
          }
        }
      }
    }
  }

  lemma DistinctSnoc(ids: seq<string>, id: string)
    ensures Distinct(ids + [id]) ==> Distinct(ids) && id !in ids
  {
    if Distinct(ids + [id]) {
      forall i, j | 0 <= i < j < |ids| ensures ids[i] != ids[j] {
        assert (ids + [id])[i] != (ids + [id])[j];
      }
      forall i | 0 <= i < |ids| ensures ids[i] != id {
        assert (ids + [id])[i] != (ids + [id])[|ids|];
      }
    }
  }

  const PLAIN := Request(true, true, true, [], false, true)
  const BAD := Update(0, false, true)

  /** A plain request came: in the table with its source, unless its id is taken. */
  ghost predicate PlainNext(v: Server, v': Server, h: nat, id: string) {
    && v'.subs.Keys == v.subs.Keys + {h}
    && (forall k :: k in v.subs && k != h ==> v'.subs[k] == v.subs[k])
    && v'.table == (if id in v.table then v.table else v.table[id := h])
    && v'.subs[h] == (var s := NewSub(id).(watchesSession := v.sessionRequired);
                      if id in v.table then s else s.(started := true, hasSource := true, ackDue := true))
  }

  lemma PlainSubscribe(v: Server, h: nat, id: string)
    requires h !in v.subs
    ensures PlainNext(v, Next(v, Subscribe(h, id, PLAIN)), h, id)
  {
  }

  /** A failure to serialize, for a subscription whose id is in the table, whoever's entry that is. */
  lemma BadUpdate(v: Server, h: nat)
    requires h in v.subs && v.subs[h].started && v.subs[h].id in v.table && v.table[v.subs[h].id] in v.subs
    ensures var v' := Next(v, Notify(h, BAD));
            && v'.subs.Keys == v.subs.Keys
            && v'.table == v.table - {v.subs[h].id}
            && v'.subs[h].id == v.subs[h].id && v'.subs[h].sent == v.subs[h].sent + [Error] && v'.subs[h].started
  {
  }

  /** Plain requests after these steps, with the ids from m to n, each with its place as its handle. */
  function Requests(before: seq<Step>, ids: seq<string>, m: nat, n: nat): seq<Step>
    requires n <= |ids|
    decreases n - m
  {
    if n <= m then before else Requests(before + [Subscribe(m, ids[m], PLAIN)], ids, m + 1, n)
  }

  lemma {:induction false} RequestsSnoc(before: seq<Step>, ids: seq<string>, m: nat, n: nat)
    requires m < n <= |ids|
    ensures Requests(before, ids, m, n) == Requests(before, ids, m, n - 1) + [Subscribe(n - 1, ids[n - 1], PLAIN)]
    decreases n - m
  {
    if m < n - 1 {
      RequestsSnoc(before + [Subscribe(m, ids[m], PLAIN)], ids, m + 1, n);
    }
  }

  ghost predicate HandlesBelow(v: Server, n: nat) {
    && (forall h :: h in v.subs ==> h < n)
    && (forall id :: id in v.table ==> v.table[id] in v.subs)
  }

  /** Requests with these ids came since v. */
  ghost predicate Extends(v: Server, v': Server, ids: seq<string>) {
    && (forall h :: h in v.subs ==> h in v'.subs && v'.subs[h] == v.subs[h])
    && (forall id :: id in v'.table <==> id in v.table || id in ids)
    && (forall id :: id in v.table ==> v'.table[id] == v.table[id])
  }

  lemma ExtendsPlain(v: Server, v1: Server, v': Server, ids: seq<string>, h: nat, id: string)
    requires Extends(v, v1, ids) && HandlesBelow(v1, h) && PlainNext(v1, v', h, id)
    ensures Extends(v, v', ids + [id]) && HandlesBelow(v', h + 1)
  {
    assert forall x :: x in ids + [id] <==> x in ids || x == id;
  }

  lemma OneMoreRequest(v: Server, v1: Server, ids: seq<string>, h: nat, id: string)
    requires Extends(v, v1, ids) && HandlesBelow(v1, h)
    ensures var v' := Next(v1, Subscribe(h, id, PLAIN));
            Extends(v, v', ids + [id]) && HandlesBelow(v', h + 1)
  {
    PlainSubscribe(v1, h, id);
    ExtendsPlain(v, v1, Next(v1, Subscribe(h, id, PLAIN)), ids, h, id);
  }

  ghost predicate Reached(sessionRequired: bool, before: seq<Step>, steps: seq<Step>, part: seq<string>, n: nat) {
    && HandlesBelow(Run(sessionRequired, steps), n)
    && Extends(Run(sessionRequired, before), Run(sessionRequired, steps), part)
    && IdsUsed(sessionRequired, steps) == IdsUsed(sessionRequired, before) + part
  }

  lemma ReachOne(sessionRequired: bool, before: seq<Step>, steps: seq<Step>, part: seq<string>, n: nat, id: string)
    requires Reached(sessionRequired, before, steps, part, n)
    ensures Reached(sessionRequired, before, steps + [Subscribe(n, id, PLAIN)], part + [id], n + 1)
  {
    RunSnoc(sessionRequired, steps, Subscribe(n, id, PLAIN));
    OneMoreRequest(Run(sessionRequired, before), Run(sessionRequired, steps), part, n, id);
    assert IdsUsed(sessionRequired, before) + part + [id] == IdsUsed(sessionRequired, before) + (part + [id]);
  }

  lemma ReachNone(sessionRequired: bool, before: seq<Step>, n: nat)
    requires HandlesBelow(Run(sessionRequired, before), n)
    ensures Reached(sessionRequired, before, before, [], n)
  {
  }

  lemma PartsJoin(part: seq<string>, ids: seq<string>, m: nat, n: nat)
    requires m <= n <= |ids|
    ensures part + ids[m..n] == if m == n then part else part + [ids[m]] + ids[m + 1..n]
  {
  }

  lemma {:induction false} ReachMore(sessionRequired: bool, before: seq<Step>, steps: seq<Step>, part: seq<string>, ids: seq<string>, m: nat, n: nat)
    requires m <= n <= |ids| && Reached(sessionRequired, before, steps, part, m)
    ensures Reached(sessionRequired, before, Requests(steps, ids, m, n), part + ids[m..n], n)
    decreases n - m
  {
    PartsJoin(part, ids, m, n);
    if m < n {
      ReachOne(sessionRequired, before, steps, part, m, ids[m]);
      ReachMore(sessionRequired, before, steps + [Subscribe(m, ids[m], PLAIN)], part + [ids[m]], ids, m + 1, n);
    }
  }

  lemma AfterRequests(sessionRequired: bool, before: seq<Step>, ids: seq<string>, m: nat, n: nat)
    requires m <= n <= |ids| && HandlesBelow(Run(sessionRequired, before), m)
    ensures Reached(sessionRequired, before, Requests(before, ids, m, n), ids[m..n], n)
  {
    ReachNone(sessionRequired, before, m);
    assert [] + ids[m..n] == ids[m..n];
    ReachMore(sessionRequired, before, before, [], ids, m, n);
  }

  /** Everybody subscribes up to i, who then fails. */
  function HalfRun(ids: seq<string>, i: nat): seq<Step>
    requires i < |ids|
  {
    Requests([], ids, 0, i + 1) + [Notify(i, BAD)]
  }

  /** The run that breaks a list with a repeated id: everybody subscribes, but the first with that id
      fails once as soon as it has subscribed, and once more at the end. */
  function BreakingRun(ids: seq<string>, i: nat): seq<Step>
    requires i < |ids|
  {
    Requests(HalfRun(ids, i), ids, i + 1, |ids|) + [Notify(i, BAD)]
  }

  lemma RunSnoc(sessionRequired: bool, steps: seq<Step>, a: Step)
    ensures Run(sessionRequired, steps + [a]) == Next(Run(sessionRequired, steps), a)
    ensures IdsUsed(sessionRequired, steps + [a]) == IdsUsed(sessionRequired, steps) +
            if a.Subscribe? && a.h !in Run(sessionRequired, steps).subs then [a.id] else []
  {
    assert Front(steps + [a]) == steps;
  }

  ghost predicate FailedOnce(sessionRequired: bool, steps: seq<Step>, h: nat, id: string) {
    var v := Run(sessionRequired, steps);
    HandlesBelow(v, h + 1) && h in v.subs && v.subs[h].id == id && v.subs[h].started && v.subs[h].sent == [Error]
  }

  /** Subscribes under a new id and fails. */
  lemma FailsOnce(sessionRequired: bool, steps: seq<Step>, h: nat, id: string)
    requires HandlesBelow(Run(sessionRequired, steps), h) && id !in Run(sessionRequired, steps).table
    ensures var steps' := steps + [Subscribe(h, id, PLAIN)] + [Notify(h, BAD)];
            && FailedOnce(sessionRequired, steps', h, id)
            && IdsUsed(sessionRequired, steps') == IdsUsed(sessionRequired, steps) + [id]
  {
    RunSnoc(sessionRequired, steps, Subscribe(h, id, PLAIN));
    RunSnoc(sessionRequired, steps + [Subscribe(h, id, PLAIN)], Notify(h, BAD));
    FailsAt(Run(sessionRequired, steps), h, id);
    assert IdsUsed(sessionRequired, steps) + [id] + [] == IdsUsed(sessionRequired, steps) + [id];
  }

  lemma FailsAt(v: Server, h: nat, id: string)
    requires HandlesBelow(v, h) && id !in v.table
    ensures var v' := Next(Next(v, Subscribe(h, id, PLAIN)), Notify(h, BAD));
            && HandlesBelow(v', h + 1) && h in v'.subs
            && v'.subs[h].id == id && v'.subs[h].started && v'.subs[h].sent == [Error]
  {
    PlainSubscribe(v, h, id);
    BadUpdate(Next(v, Subscribe(h, id, PLAIN)), h);
    assert [] + [Error] == [Error];
  }

  lemma FirstHalf(sessionRequired: bool, ids: seq<string>, i: nat)
    requires i < |ids| && ids[i] !in ids[..i]
    ensures FailedOnce(sessionRequired, HalfRun(ids, i), i, ids[i])
    ensures IdsUsed(sessionRequired, HalfRun(ids, i)) == ids[..i + 1]
  {
    var steps := Requests([], ids, 0, i);
    RequestsSnoc([], ids, 0, i + 1);
    assert ids[..i + 1] == ids[..i] + [ids[i]];
    FromNothing(sessionRequired, ids, i);
    FailsOnce(sessionRequired, steps, i, ids[i]);
  }

  lemma FromNothing(sessionRequired: bool, ids: seq<string>, n: nat)
    requires n <= |ids|
    ensures var steps := Requests([], ids, 0, n);
            && HandlesBelow(Run(sessionRequired, steps), n)
            && (forall id :: id in Run(sessionRequired, steps).table <==> id in ids[..n])
            && IdsUsed(sessionRequired, steps) == ids[..n]
  {
    AfterRequests(sessionRequired, [], ids, 0, n);
    assert ids[0..n] == ids[..n] && [] + ids[..n] == ids[..n];
  }

  /** Once more, when the id is in the table again. */
  lemma SecondError(sessionRequired: bool, steps: seq<Step>, i: nat, n: nat)
    requires HandlesBelow(Run(sessionRequired, steps), n)
    requires i in Run(sessionRequired, steps).subs && Run(sessionRequired, steps).subs[i].sent == [Error]
    requires Run(sessionRequired, steps).subs[i].started
    requires Run(sessionRequired, steps).subs[i].id in Run(sessionRequired, steps).table
    ensures var v := Run(sessionRequired, steps + [Notify(i, BAD)]);
            i in v.subs && v.subs[i].sent == [Error, Error]
    ensures IdsUsed(sessionRequired, steps + [Notify(i, BAD)]) == IdsUsed(sessionRequired, steps)
  {
    RunSnoc(sessionRequired, steps, Notify(i, BAD));
    BadUpdate(Run(sessionRequired, steps), i);
    assert [Error] + [Error] == [Error, Error];
  }

  /** The first client with a repeated id gets two terminal messages. */
  lemma {:induction false} RepeatedIdBreaks(sessionRequired: bool, ids: seq<string>, i: nat, j: nat)
    requires i < j < |ids| && ids[i] == ids[j] && ids[i] !in ids[..i]
    ensures IdsUsed(sessionRequired, BreakingRun(ids, i)) == ids
    ensures var v := Run(sessionRequired, BreakingRun(ids, i));
            i in v.subs && v.subs[i].sent == [Error, Error]
  {
    var half, rest := HalfRun(ids, i), ids[i + 1..|ids|];
    assert rest[j - i - 1] == ids[i];
    assert ids[..i + 1] + rest == ids;
    FirstHalf(sessionRequired, ids, i);
    AfterRequests(sessionRequired, half, ids, i + 1, |ids|);
    FailsAgain(sessionRequired, half, Requests(half, ids, i + 1, |ids|), rest, i, |ids|, ids[i]);
  }

  lemma {:induction false} FailsAgain(sessionRequired: bool, half: seq<Step>, most: seq<Step>, rest: seq<string>, i: nat, n: nat, id: string)
    requires FailedOnce(sessionRequired, half, i, id) && Reached(sessionRequired, half, most, rest, n) && id in rest
    ensures var steps := most + [Notify(i, BAD)];
            && IdsUsed(sessionRequired, steps) == IdsUsed(sessionRequired, half) + rest
            && i in Run(sessionRequired, steps).subs && Run(sessionRequired, steps).subs[i].sent == [Error, Error]
  {
    assert i in Run(sessionRequired, half).subs;
    SecondError(sessionRequired, most, i, n);
  }

  lemma {:induction false} FirstOf(ids: seq<string>, j: nat) returns (i: nat)
    requires j < |ids|
    ensures i <= j && ids[i] == ids[j] && ids[i] !in ids[..i]
  {
    i := j;
    if k :| 0 <= k < j && ids[k] == ids[j] {
      i := FirstOf(ids, k);
    }
  }

  /** Where a source may go on calling after it was disposed: for any list of ids, every run whose requests
      use these ids, in this order, keeps the guarantees if and only if the ids are pairwise distinct. */
  lemma SafeExactlyWhenDistinct(sessionRequired: bool, ids: seq<string>)
    ensures (forall steps :: IdsUsed(sessionRequired, steps) == ids ==> AllGuaranteed(Run(sessionRequired, steps))) <==> Distinct(ids)
  {
    if Distinct(ids) {
      forall steps | IdsUsed(sessionRequired, steps) == ids ensures AllGuaranteed(Run(sessionRequired, steps)) {
        DistinctIdsAreFresh(sessionRequired, steps);
        forall h | h in Run(sessionRequired, steps).subs
          ensures Guaranteed(Run(sessionRequired, steps).subs[h], Owns(Run(sessionRequired, steps), h))
        {
          OneTerminalOneDisposal(sessionRequired, steps, h);
        }
      }
    } else {
      var k, j :| 0 <= k < j < |ids| && ids[k] == ids[j];
      var i := FirstOf(ids, k);
      RepeatedIdBreaks(sessionRequired, ids, i, j);
      var v := Run(sessionRequired, BreakingRun(ids, i));
      assert IsTerminal(v.subs[i].sent[0]) && v.subs[i].sent[1] != Ack;
      assert !Guaranteed(v.subs[i], Owns(v, i));
    }
  }

  // ----- sources that keep silent -----

  /** Its handler returned it, and it neither ended itself nor was disposed. */
  predicate Running(s: Sub) {
    s.started && s.hasSource && !s.finished
  }

  predicate CallsInTime(v: Server, a: Step) {
    a.Notify? && a.h in v.subs && v.subs[a.h].started ==> Running(v.subs[a.h])
  }

  /** After its handler returned no source calls unless it is running. */
  predicate Silent(sessionRequired: bool, steps: seq<Step>) {
    steps != [] ==> Silent(sessionRequired, Front(steps)) && CallsInTime(Run(sessionRequired, Front(steps)), Last(steps))
  }

  ghost predicate NoWatches(v: Server) {
    !v.sessionRequired && forall h :: h in v.subs ==> !v.subs[h].watchesSession
  }

  lemma NoWatchesStep(v: Server, a: Step)
    requires NoWatches(v)
    ensures NoWatches(Next(v, a))
  {
    match a {
      case Subscribe(h, id, r) =>
        if h !in v.subs {
          SubscribedKept(v, h, id, r);
        }
      case Notify(h, c) =>
        if h in v.subs {
          NotifiedKept(v, h, c);
        }
      case SendAck(h, published) =>
        if h in v.subs {
          AckedKept(v, h, published);
        }
      case Unsubscribe(id) => UnsubscribedKept(v, id);
      case LoseSession(h) =>
    }
  }

  /** A source that is running has its own entry in the table. */
  lemma RunningIsSole(v: Server, a: Step)
    requires ServerOk(v) && NoWatches(v) && CallsInTime(v, a)
    ensures Safe(v, a)
  {
    if a.Notify? && a.h in v.subs {
      assert SubOk(v.subs[a.h], Owns(v, a.h));
    }
  }

  lemma {:induction false} SilentRunIsOk(steps: seq<Step>)
    requires Silent(false, steps)
    ensures ServerOk(Run(false, steps)) && NoWatches(Run(false, steps))
  {
    if steps != [] {
      var v, a := Run(false, Front(steps)), Last(steps);
      SilentRunIsOk(Front(steps));
      RunningIsSole(v, a);
      StepKeeps(v, a);
      NoWatchesStep(v, a);
    }
  }

  /** Without sessions, and with sources that keep silent, any ids will do, however often they are used. */
  lemma SilentSourcesAreSafe(steps: seq<Step>)
    requires Silent(false, steps)
    ensures AllGuaranteed(Run(false, steps))
  {
    SilentRunIsOk(steps);
    var v := Run(false, steps);
    forall h | h in v.subs ensures Guaranteed(v.subs[h], Owns(v, h)) {
      assert SubOk(v.subs[h], Owns(v, h));
    }
  }

  // ----- the watch a repeated id leaves behind -----

  /** j found the id taken by i: its request was refused and its watch stayed. */
  ghost predicate Stranded(v: Server, i: nat, j: nat, id: string) {
    && HasEntry(v, i, id)
    && j in v.subs && j != i && v.subs[j].id == id && v.subs[j].watchesSession && !v.subs[j].disposed
  }

  ghost predicate HasEntry(v: Server, i: nat, id: string) {
    && i in v.subs && v.subs[i].id == id && id in v.table && v.table[id] == i
    && v.subs[i].hasSource && v.subs[i].disposals == 0 && !v.subs[i].endedItself
  }

  /** When j's session goes, i loses its entry and keeps its source. */
  lemma StrandedBreaks(v: Server, i: nat, j: nat, id: string)
    requires Stranded(v, i, j, id)
    ensures KeepsItsSource(Next(v, LoseSession(j)), i)
  {
  }

  /** No entry, and a source that was neither disposed nor ended. */
  ghost predicate KeepsItsSource(v: Server, i: nat) {
    && i in v.subs && !Owns(v, i)
    && v.subs[i].hasSource && v.subs[i].disposals == 0 && !v.subs[i].endedItself
  }

  ghost predicate LeavesASource(sessionRequired: bool, steps: seq<Step>, i: nat) {
    KeepsItsSource(Run(sessionRequired, steps), i)
  }

  lemma EntryStays(v: Server, v': Server, ids: seq<string>, i: nat, id: string)
    requires Extends(v, v', ids) && HasEntry(v, i, id)
    ensures HasEntry(v', i, id)
  {
  }

  /** Everybody subscribes, and then the session of j goes. */
  function LosingRun(ids: seq<string>, j: nat): seq<Step>
    requires j < |ids|
  {
    Requests(SomeRun(ids, j), ids, j + 1, |ids|) + [LoseSession(j)]
  }

  lemma FirstHasEntry(sessionRequired: bool, ids: seq<string>, i: nat)
    requires i < |ids| && ids[i] !in ids[..i]
    ensures HasEntry(Run(sessionRequired, Requests([], ids, 0, i + 1)), i, ids[i])
  {
    FromNothing(sessionRequired, ids, i);
    RequestsSnoc([], ids, 0, i + 1);
    RunSnoc(sessionRequired, Requests([], ids, 0, i), Subscribe(i, ids[i], PLAIN));
    PlainSubscribe(Run(sessionRequired, Requests([], ids, 0, i)), i, ids[i]);
  }

  lemma {:induction false} RequestsCompose(before: seq<Step>, ids: seq<string>, l: nat, m: nat, n: nat)
    requires l <= m <= n <= |ids|
    ensures Requests(Requests(before, ids, l, m), ids, m, n) == Requests(before, ids, l, n)
    decreases m - l
  {
    if l < m {
      RequestsCompose(before + [Subscribe(l, ids[l], PLAIN)], ids, l + 1, m, n);
    }
  }

  lemma {:induction false} EntryUpTo(sessionRequired: bool, ids: seq<string>, i: nat, j: nat)
    requires i < j <= |ids| && ids[i] !in ids[..i]
    ensures HasEntry(Run(sessionRequired, Requests([], ids, 0, j)), i, ids[i])
  {
    var first := Requests([], ids, 0, i + 1);
    FirstHasEntry(sessionRequired, ids, i);
    FromNothing(sessionRequired, ids, i + 1);
    AfterRequests(sessionRequired, first, ids, i + 1, j);
    RequestsCompose([], ids, 0, i + 1, j);
    EntryStays(Run(sessionRequired, first), Run(sessionRequired, Requests([], ids, 0, j)), ids[i + 1..j], i, ids[i]);
  }

  ghost predicate StrandedIn(sessionRequired: bool, steps: seq<Step>, i: nat, j: nat, id: string) {
    HandlesBelow(Run(sessionRequired, steps), j + 1) && Stranded(Run(sessionRequired, steps), i, j, id)
  }

  lemma StrandsAt(v: Server, i: nat, j: nat, id: string)
    requires HasEntry(v, i, id) && HandlesBelow(v, j) && v.sessionRequired
    ensures var v' := Next(v, Subscribe(j, id, PLAIN));
            HandlesBelow(v', j + 1) && Stranded(v', i, j, id)
  {
    PlainSubscribe(v, j, id);
  }

  lemma Strands(sessionRequired: bool, steps: seq<Step>, i: nat, j: nat, id: string)
    requires sessionRequired && HasEntry(Run(sessionRequired, steps), i, id) && HandlesBelow(Run(sessionRequired, steps), j)
    ensures StrandedIn(sessionRequired, steps + [Subscribe(j, id, PLAIN)], i, j, id)
  {
    SameRequirement(sessionRequired, steps);
    StrandsAt(Run(sessionRequired, steps), i, j, id);
    RunSnoc(sessionRequired, steps, Subscribe(j, id, PLAIN));
  }

  /** Everybody subscribes up to j. */
  function SomeRun(ids: seq<string>, j: nat): seq<Step>
    requires j < |ids|
  {
    Requests([], ids, 0, j) + [Subscribe(j, ids[j], PLAIN)]
  }

  lemma StrandedAt(sessionRequired: bool, ids: seq<string>, i: nat, j: nat)
    requires sessionRequired && i < j < |ids| && ids[i] == ids[j] && ids[i] !in ids[..i]
    ensures StrandedIn(sessionRequired, SomeRun(ids, j), i, j, ids[i])
  {
    var earlier := Requests([], ids, 0, j);
    assert HasEntry(Run(sessionRequired, earlier), i, ids[i]) by {
      EntryUpTo(sessionRequired, ids, i, j);
    }
    assert HandlesBelow(Run(sessionRequired, earlier), j) by {
      FromNothing(sessionRequired, ids, j);
    }
    Strands(sessionRequired, earlier, i, j, ids[j]);
  }

  lemma {:induction false} SomeRunReached(sessionRequired: bool, ids: seq<string>, j: nat)
    requires j < |ids|
    ensures HandlesBelow(Run(sessionRequired, SomeRun(ids, j)), j + 1)
    ensures IdsUsed(sessionRequired, SomeRun(ids, j)) == ids[..j + 1]
  {
    var earlier := Requests([], ids, 0, j);
    assert [] + (ids[0..j] + [ids[j]]) == ids[..j + 1];
    assert Reached(sessionRequired, [], earlier, ids[0..j], j) by {
      AfterRequests(sessionRequired, [], ids, 0, j);
    }
    ReachOne(sessionRequired, [], earlier, ids[0..j], j, ids[j]);
  }

  lemma LosingRunUses(sessionRequired: bool, ids: seq<string>, j: nat)
    requires j < |ids|
    ensures IdsUsed(sessionRequired, LosingRun(ids, j)) == ids
  {
    var some, part := SomeRun(ids, j), ids[j + 1..|ids|];
    var all := Requests(some, ids, j + 1, |ids|);
    assert IdsUsed(sessionRequired, all) == IdsUsed(sessionRequired, some) + part by {
      SomeRunReached(sessionRequired, ids, j);
      AfterRequests(sessionRequired, some, ids, j + 1, |ids|);
    }
    assert IdsUsed(sessionRequired, some) == ids[..j + 1] by {
      SomeRunReached(sessionRequired, ids, j);
    }
    assert ids[..j + 1] + part + [] == ids;
    RunSnoc(sessionRequired, all, LoseSession(j));
  }

  ghost predicate RestReached(sessionRequired: bool, some: seq<Step>, ids: seq<string>, m: nat) {
    m <= |ids| && Reached(sessionRequired, some, Requests(some, ids, m, |ids|), ids[m..|ids|], |ids|)
  }

  lemma TheRestReached(sessionRequired: bool, ids: seq<string>, j: nat)
    requires j < |ids|
    ensures RestReached(sessionRequired, SomeRun(ids, j), ids, j + 1)
  {
    SomeRunReached(sessionRequired, ids, j);
    AfterRequests(sessionRequired, SomeRun(ids, j), ids, j + 1, |ids|);
  }

  lemma RepeatedIdStrands(sessionRequired: bool, ids: seq<string>, i: nat, j: nat)
    requires sessionRequired && i < j < |ids| && ids[i] == ids[j] && ids[i] !in ids[..i]
    ensures LeavesASource(sessionRequired, LosingRun(ids, j), i)
  {
    StrandedAt(sessionRequired, ids, i, j);
    TheRestReached(sessionRequired, ids, j);
    LosesRest(sessionRequired, SomeRun(ids, j), ids, i, j, ids[i]);
  }

  lemma {:induction false} LosesRest(sessionRequired: bool, some: seq<Step>, ids: seq<string>, i: nat, j: nat, id: string)
    requires j < |ids| && StrandedIn(sessionRequired, some, i, j, id) && RestReached(sessionRequired, some, ids, j + 1)
    ensures LeavesASource(sessionRequired, Requests(some, ids, j + 1, |ids|) + [LoseSession(j)], i)
  {
    LosesLater(sessionRequired, some, Requests(some, ids, j + 1, |ids|), ids[j + 1..|ids|], |ids|, i, j, id);
  }

  lemma LosesLater(sessionRequired: bool, some: seq<Step>, all: seq<Step>, part: seq<string>, n: nat, i: nat, j: nat, id: string)
    requires StrandedIn(sessionRequired, some, i, j, id) && Reached(sessionRequired, some, all, part, n)
    ensures LeavesASource(sessionRequired, all + [LoseSession(j)], i)
  {
    StillStranded(Run(sessionRequired, some), Run(sessionRequired, all), part, i, j, id);
    StrandedBreaks(Run(sessionRequired, all), i, j, id);
    RunSnoc(sessionRequired, all, LoseSession(j));
  }

  lemma StillStranded(v: Server, v': Server, ids: seq<string>, i: nat, j: nat, id: string)
    requires Extends(v, v', ids) && Stranded(v, i, j, id)
    ensures Stranded(v', i, j, id)
  {
  }

  lemma SilentSnoc(sessionRequired: bool, steps: seq<Step>, a: Step)
    requires Silent(sessionRequired, steps) && !a.Notify?
    ensures Silent(sessionRequired, steps + [a])
  {
    assert Front(steps + [a]) == steps;
  }

  lemma {:induction false} RequestsAreSilent(sessionRequired: bool, before: seq<Step>, ids: seq<string>, m: nat, n: nat)
    requires n <= |ids| && Silent(sessionRequired, before)
    ensures Silent(sessionRequired, Requests(before, ids, m, n))
    decreases n - m
  {
    if m < n {
      SilentSnoc(sessionRequired, before, Subscribe(m, ids[m], PLAIN));
      RequestsAreSilent(sessionRequired, before + [Subscribe(m, ids[m], PLAIN)], ids, m + 1, n);
    }
  }

  lemma LosingRunIsSilent(ids: seq<string>, j: nat)
    requires j < |ids|
    ensures Silent(true, LosingRun(ids, j))
  {
    var some := SomeRun(ids, j);
    RequestsAreSilent(true, [], ids, 0, j);
    SilentSnoc(true, Requests([], ids, 0, j), Subscribe(j, ids[j], PLAIN));
    RequestsAreSilent(true, some, ids, j + 1, |ids|);
    SilentSnoc(true, Requests(some, ids, j + 1, |ids|), LoseSession(j));
  }

  ghost predicate KeptBySilence(sessionRequired: bool, ids: seq<string>) {
    forall steps :: Silent(sessionRequired, steps) && IdsUsed(sessionRequired, steps) == ids ==>
                      AllGuaranteed(Run(sessionRequired, steps))
  }

  lemma LeftIsBroken(sessionRequired: bool, steps: seq<Step>, i: nat)
    requires LeavesASource(sessionRequired, steps, i)
    ensures !AllGuaranteed(Run(sessionRequired, steps))
  {
    var v := Run(sessionRequired, steps);
    assert !Guaranteed(v.subs[i], Owns(v, i));
  }

  lemma NotKept(ids: seq<string>)
    requires !Distinct(ids)
    ensures !KeptBySilence(true, ids)
  {
    var k, j :| 0 <= k < j < |ids| && ids[k] == ids[j];
    var i := FirstOf(ids, k);
    RepeatedIdStrands(true, ids, i, j);
    LeftIsBroken(true, LosingRun(ids, j), i);
    LosingRunUses(true, ids, j);
    LosingRunIsSilent(ids, j);
  }

  /** With sources that keep silent: for any list of ids, every run whose requests use these ids, in this
      order, keeps the guarantees if and only if no session is required or the ids are pairwise distinct. */
  lemma SilentSafeExactly(sessionRequired: bool, ids: seq<string>)
    ensures KeptBySilence(sessionRequired, ids) <==> !sessionRequired || Distinct(ids)
  {
    if !sessionRequired {
      forall steps | Silent(false, steps) ensures AllGuaranteed(Run(false, steps)) {
        SilentSourcesAreSafe(steps);
      }
    } else if Distinct(ids) {
      SafeExactlyWhenDistinct(sessionRequired, ids);
      forall steps | IdsUsed(sessionRequired, steps) == ids ensures AllGuaranteed(Run(sessionRequired, steps)) {}
    } else {
      NotKept(ids);
    }
  }

  /** A source that goes on after it was disposed, under an id used twice: the first source's updates pass for the second's
      subscription, and its next failure to serialize sends the first client a second terminal message. */
  lemma ReusedId(id: string)
    ensures var r := Request(true, true, true, [], false, true);
            var bad := Update(0, false, true);
            var v := Run(false, [Subscribe(0, id, r), Notify(0, bad), Subscribe(1, id, r), Notify(0, Update(7, true, true)), Notify(0, bad)]);
            && 0 in v.subs && v.subs[0].sent == [Error, Value(7), Error]
            && 1 in v.subs && v.subs[1].sent == [] && !Live(v, 1)
  {
    var r := Request(true, true, true, [], false, true);
    var bad := Update(0, false, true);
    var v0 := Server(false, map[], map[]);
    var s1 := [Subscribe(0, id, r)];
    var s2 := s1 + [Notify(0, bad)];
    var s3 := s2 + [Subscribe(1, id, r)];
    var s4 := s3 + [Notify(0, Update(7, true, true))];
    var s5 := s4 + [Notify(0, bad)];
    assert s5 == [Subscribe(0, id, r), Notify(0, bad), Subscribe(1, id, r), Notify(0, Update(7, true, true)), Notify(0, bad)];
    assert Front(s1) == [] && Front(s2) == s1 && Front(s3) == s2 && Front(s4) == s3 && Front(s5) == s4;
    var sub := Sub(id, false, true, false, true, false, 0, false, true, []);
    var gone := sub.(disposed := true, finished := true, disposals := 1);
    assert [] + [Error] == [Error] && [Error] + [Value(7)] == [Error, Value(7)] && [Error, Value(7)] + [Error] == [Error, Value(7), Error];
    var v1 := Server(false, map[id := 0], map[0 := sub]);
    assert Next(v0, s1[0]) == v1;
    var v2 := Server(false, map[], map[0 := gone.(sent := [Error])]);
    assert Next(v1, Notify(0, bad)) == v2 by {
      assert v1.table - {id} == map[];
    }
    var v3 := Server(false, map[id := 1], v2.subs[1 := sub]);
    assert Next(v2, Subscribe(1, id, r)) == v3;
    var v4 := Server(false, map[id := 1], map[0 := gone.(sent := [Error, Value(7)]), 1 := sub]);
    assert Next(v3, Notify(0, Update(7, true, true))) == v4;
    assert Run(false, s1) == v1;
    assert Last(s2) == Notify(0, bad) && Run(false, s2) == Next(v1, Notify(0, bad));
    assert Run(false, s3) == v3;
    assert Last(s4) == Notify(0, Update(7, true, true)) && Run(false, s4) == v4;
    assert Next(v4, Notify(0, bad)).subs[0].sent == [Error, Value(7), Error];
  }
}