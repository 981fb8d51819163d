/** What each step of the engines does over every run: in what order the ids are handed out, when a new hi
    value is fetched, and what every save adds to the log. */
module EngineSteps {
  import opened Prelude
  import opened EventLog
  import opened Aggregates
  import opened TradeIds
  import opened Execution
  import opened Engines

  // ----- a hi value serves the lo values in order -----

  /** The tickets of one hi value, in the order they were handed out. */
  function TicketsOf(tickets: seq<Ticket>, hi: int): seq<Ticket> {
    if tickets == [] then []
    else TicketsOf(Front(tickets), hi) + if Last(tickets).hi == hi then [Last(tickets)] else []
  }

  /** The first n tickets of a hi value. */
  function Row(hi: int, n: nat): seq<Ticket> {
    seq(n, i requires 0 <= i < n => Ticket(hi, i + 1))
  }

  ghost predicate ServedInOrder(tickets: seq<Ticket>, hi: int) {
    TicketsOf(tickets, hi) == Row(hi, |TicketsOf(tickets, hi)|) && |TicketsOf(tickets, hi)| <= 100
  }

  ghost predicate InOrder(s: System) {
    && (forall hi :: ServedInOrder(s.issued, hi))
    && (forall p :: p in s.providers && s.providers[p].initialized ==>
          |TicketsOf(s.issued, s.providers[p].hi)| == s.providers[p].lo)
  }

  lemma {:induction false} NoneOf(tickets: seq<Ticket>, hi: int)
    requires forall t :: t in tickets ==> t.hi != hi
    ensures TicketsOf(tickets, hi) == []
  {
    if tickets != [] {
      NoneOf(Front(tickets), hi);
    }
  }

  lemma OneMoreTicket(tickets: seq<Ticket>, t: Ticket)
    requires forall hi :: ServedInOrder(tickets, hi)
    requires t.lo == |TicketsOf(tickets, t.hi)| + 1 <= 100
    ensures forall hi :: ServedInOrder(tickets + [t], hi)
    ensures forall hi :: |TicketsOf(tickets + [t], hi)| == |TicketsOf(tickets, hi)| + if hi == t.hi then 1 else 0
  {
    forall hi
      ensures ServedInOrder(tickets + [t], hi)
      ensures |TicketsOf(tickets + [t], hi)| == |TicketsOf(tickets, hi)| + if hi == t.hi then 1 else 0
    {
      assert ServedInOrder(tickets, hi);
      assert Front(tickets + [t]) == tickets;
      if hi == t.hi {
        assert Row(hi, t.lo) == Row(hi, t.lo - 1) + [t];
      }
    }
  }

  lemma StepIssuesInOrder(s: System, a: Step)
    requires TicketsOk(s) && InOrder(s)
    ensures InOrder(Next(s, a))
  {
    match a {
      case BeginCall(c, p, terms) =>
        if p in s.providers && c !in s.calls && !NeedsRefill(s.providers[p]) {
          BeginIssuesInOrder(s, c, p, terms);
        }
      case InstallHi(c) =>
        if c in s.calls && s.calls[c].phase.HiLanded? {
          InstallIssuesInOrder(s, c);
        }
      case _ =>
    }
  }

  lemma BeginIssuesInOrder(s: System, c: nat, p: nat, terms: Terms)
    requires TicketsOk(s) && InOrder(s) && p in s.providers && c !in s.calls && !NeedsRefill(s.providers[p])
    ensures InOrder(BeginStep(s, c, p, terms))
  {
    var s' := BeginStep(s, c, p, terms);
    var t := Issued(Bump(s.providers[p]));
    OneMoreTicket(s.issued, t);
    forall q | q in s'.providers && s'.providers[q].initialized
      ensures |TicketsOf(s'.issued, s'.providers[q].hi)| == s'.providers[q].lo
    {
      assert OwnHi(s.providers[p], s.providers[q]) || p == q;
    }
  }

  lemma InstallIssuesInOrder(s: System, c: nat)
    requires TicketsOk(s) && InOrder(s) && c in s.calls && s.calls[c].phase.HiLanded?
    ensures InOrder(InstallHiStep(s, c))
  {
    var s' := InstallHiStep(s, c);
    var hi := s.calls[c].phase.hi;
    assert HiUnused(s, hi) by {
      assert PhaseOk(s, s.calls[c].phase);
    }
    NoneOf(s.issued, hi);
    OneMoreTicket(s.issued, Ticket(hi, 1));
    forall q | q in s'.providers && s'.providers[q].initialized
      ensures |TicketsOf(s'.issued, s'.providers[q].hi)| == s'.providers[q].lo
    {
      assert q in s.providers;
    }
  }

  /** In every run, each hi value serves the lo values 1, 2, 3 and so on in this order, up to 100 at most,
      and a provider stands where the hi value it holds does. */
  lemma {:induction false} EachHiServesInOrder(steps: seq<Step>)
    ensures InOrder(Run(steps))
  {
    if steps != [] {
      EachHiServesInOrder(Front(steps));
      TicketsInEveryRun(Front(steps));
      StepIssuesInOrder(Run(Front(steps)), Last(steps));
    }
  }

  // ----- what each step does -----

  lemma RunSnoc(steps: seq<Step>, a: Step)
    ensures Run(steps + [a]) == Next(Run(steps), a)
  {
  }

  /** A call takes the next id of the hi value its provider holds, and fetches a new one, in three tries,
      exactly if there is none or all of 1..100 were served. */
  lemma {:induction false} RefillsExactly(steps: seq<Step>, c: nat, p: nat, terms: Terms)
    requires p in Run(steps).providers && c !in Run(steps).calls
    ensures var s, s' := Run(steps), Run(steps + [BeginCall(c, p, terms)]);
            var hi := s.providers[p].hi;
            && s'.log == s.log
            && if s.providers[p].initialized && TicketsOf(s.issued, hi) != Row(hi, 100) then
                 var t := Ticket(hi, |TicketsOf(s.issued, hi)| + 1);
                 && s'.issued == s.issued + [t] && s'.calls == s.calls[c := Call(p, terms, Creating(t))]
                 && s'.providers == s.providers[p := Provider(hi, t.lo, true)]
               else
                 s'.issued == s.issued && s'.providers == s.providers && s'.calls == s.calls[c := Call(p, terms, Loading(3, 0))]
  {
    var s := Run(steps);
    var served := TicketsOf(s.issued, s.providers[p].hi);
    assert served == Row(s.providers[p].hi, |served|) && |served| <= 100 && (s.providers[p].initialized ==> |served| == s.providers[p].lo) by {
      EachHiServesInOrder(steps);
      assert ServedInOrder(s.issued, s.providers[p].hi);
    }
    BeginExactly(s, c, p, terms, served);
    RunSnoc(steps, BeginCall(c, p, terms));
  }

  lemma BeginExactly(s: System, c: nat, p: nat, terms: Terms, served: seq<Ticket>)
    requires p in s.providers && c !in s.calls
    requires served == Row(s.providers[p].hi, |served|) && |served| <= 100
    requires s.providers[p].initialized ==> |served| == s.providers[p].lo
    ensures var hi, s' := s.providers[p].hi, BeginStep(s, c, p, terms);
            && s'.log == s.log
            && if s.providers[p].initialized && served != Row(hi, 100) then
                 var t := Ticket(hi, |served| + 1);
                 && s'.issued == s.issued + [t] && s'.calls == s.calls[c := Call(p, terms, Creating(t))]
                 && s'.providers == s.providers[p := Provider(hi, t.lo, true)]
               else
                 s'.issued == s.issued && s'.providers == s.providers && s'.calls == s.calls[c := Call(p, terms, Loading(3, 0))]
  {
    assert served == Row(s.providers[p].hi, 100) <==> |served| == 100;
  }

  /** Where a page of 500 events leaves a call that had read this far of n events. */
  function AfterPage(n: nat, tries: nat, loaded: nat): Phase {
    if n <= loaded + 500 then Saving(tries, n - 1) else Loading(tries, loaded + 500)
  }

  /** The counter is read in pages of 500, to its end. */
  lemma ReadsToTheEnd(steps: seq<Step>, c: nat, tries: nat, loaded: nat)
    requires c in Run(steps).calls && Run(steps).calls[c].phase == Loading(tries, loaded)
    ensures Run(steps + [ReadPage(c)]) == SetPhase(Run(steps), c, AfterPage(|EventsOf(Run(steps).log, Counter)|, tries, loaded))
  {
    LoadedWithin(steps, c);
    ReadIs(Run(steps), c, tries, loaded);
    RunSnoc(steps, ReadPage(c));
  }

  lemma {:induction false} LoadedWithin(steps: seq<Step>, c: nat)
    requires c in Run(steps).calls && Run(steps).calls[c].phase.Loading?
    ensures Run(steps).calls[c].phase.loaded <= |EventsOf(Run(steps).log, Counter)|
  {
    TicketsInEveryRun(steps);
    assert PhaseOk(Run(steps), Run(steps).calls[c].phase);
  }

  lemma ReadIs(s: System, c: nat, tries: nat, loaded: nat)
    requires c in s.calls && s.calls[c].phase == Loading(tries, loaded) && loaded <= |EventsOf(s.log, Counter)|
    ensures Next(s, ReadPage(c)) == SetPhase(s, c, AfterPage(|EventsOf(s.log, Counter)|, tries, loaded))
  {
  }

  /** The increment lands if nothing came after what was read, and then its event number is the hi value;
      if something did, the call reads again or, at its last try, gives up. */
  lemma {:induction false} IncrementsExactly(steps: seq<Step>, c: nat)
    requires c in Run(steps).calls && Run(steps).calls[c].phase.Saving?
    ensures var s, s' := Run(steps), Run(steps + [CommitIncrement(c)]);
            var n, phase := |EventsOf(s.log, Counter)|, s.calls[c].phase;
            && 1 <= phase.tries <= 3
            && s' == if n == phase.base + 1 then SetPhase(s, c, HiLanded(n)).(log := s.log + [Entry(Counter, Incremented)])
                     else SetPhase(s, c, if phase.tries > 1 then Loading(phase.tries - 1, 0) else IdFailed)
  {
    RunSnoc(steps, CommitIncrement(c));
    TicketsInEveryRun(steps);
    assert PhaseOk(Run(steps), Run(steps).calls[c].phase);
    IncrementIs(Run(steps), c);
  }

  lemma TagOne(x: StreamName, e: Event)
    ensures Tag(x, [e]) == [Entry(x, e)]
  {
  }

  lemma IncrementIs(s: System, c: nat)
    requires c in s.calls && s.calls[c].phase.Saving?
    ensures var n, phase := |EventsOf(s.log, Counter)|, s.calls[c].phase;
            CommitIncrementStep(s, c) ==
              if n == phase.base + 1 then SetPhase(s, c, HiLanded(n)).(log := s.log + [Entry(Counter, Incremented)])
              else SetPhase(s, c, if phase.tries > 1 then Loading(phase.tries - 1, 0) else IdFailed)
  {
    TagOne(Counter, Incremented);
  }

  /** A hi value that arrived is installed, and its first ticket handed out. */
  lemma InstallsExactly(steps: seq<Step>, c: nat)
    requires c in Run(steps).calls && Run(steps).calls[c].phase.HiLanded?
    ensures var s, s' := Run(steps), Run(steps + [InstallHi(c)]);
            var hi := s.calls[c].phase.hi;
            && s'.log == s.log && s'.issued == s.issued + [Ticket(hi, 1)]
            && s'.providers == s.providers[s.calls[c].provider := Provider(hi, 1, true)]
            && s'.calls == s.calls[c := s.calls[c].(phase := Creating(Ticket(hi, 1)))]
  {
    RunSnoc(steps, InstallHi(c));
  }

  /** The save of a new trade always lands, as one event at the end of the log. */
  lemma {:induction false} CreationLands(steps: seq<Step>, c: nat)
    requires WithinIds(Run(steps)) && c in Run(steps).calls && Run(steps).calls[c].phase.Creating?
    ensures var s, call := Run(steps), Run(steps).calls[c];
            var id := IdOf(call.phase.ticket);
            Run(steps + [CommitCreated(c)]) ==
              SetPhase(s, c, Executing(call.phase.ticket)).(log := s.log + [Entry(TradeStream(id), TradeCreated(id, call.terms))])
  {
    RunSnoc(steps, CommitCreated(c));
    StreamsInEveryRun(steps);
    var s, call := Run(steps), Run(steps).calls[c];
    assert OwnStreamOk(s.log, call);
    SaveLands(s, c, call.phase.ticket, -1, TradeCreated(IdOf(call.phase.ticket), call.terms), Executing(call.phase.ticket));
  }

  /** So does the save of its outcome: one pair is always rejected, every other trade is completed. */
  lemma OutcomeLands(steps: seq<Step>, c: nat)
    requires WithinIds(Run(steps)) && c in Run(steps).calls && Run(steps).calls[c].phase.Executing?
    ensures var s, call := Run(steps), Run(steps).calls[c];
            var id := IdOf(call.phase.ticket);
            var outcome := if call.terms.pair == "GBPJPY" then TradeRejected(id, "Execution engine rejected trade") else TradeCompleted(id);
            Run(steps + [CommitOutcome(c)]) ==
              SetPhase(s, c, Settled(call.phase.ticket)).(log := s.log + [Entry(TradeStream(id), outcome)])
  {
    RunSnoc(steps, CommitOutcome(c));
    StreamsInEveryRun(steps);
    var s, call := Run(steps), Run(steps).calls[c];
    assert OwnStreamOk(s.log, call);
    SaveLands(s, c, call.phase.ticket, 0, Outcome(IdOf(call.phase.ticket), call.terms), Settled(call.phase.ticket));
  }

  lemma SaveLands(s: System, c: nat, t: Ticket, expected: int, e: Event, next: Phase)
    requires c in s.calls && |EventsOf(s.log, TradeStream(IdOf(t)))| == expected + 1
    ensures CommitTrade(s, c, t, expected, e, next) == SetPhase(s, c, next).(log := s.log + [Entry(TradeStream(IdOf(t)), e)])
  {
    TagOne(TradeStream(IdOf(t)), e);
  }

  /** The event a command calls for, told by how long the pair's stream is. */
  function CalledFor(events: seq<Event>, symbol: string, command: PairCommand): seq<Event> {
    match command
    case Create(_, pips, rate, sample, comment) => if events == [] then [PairCreated(symbol, pips, rate, sample, comment)] else []
    case Activate => if |events| % 2 == 1 then [PairActivated(symbol)] else []
    case Deactivate => if events != [] && |events| % 2 == 0 then [PairDeactivated(symbol)] else []
  }

  /** A writer that loaded the whole stream adds the event its command calls for; one that others overtook
      adds nothing, whatever it would have raised. */
  lemma {:induction false} PairsLand(steps: seq<Step>, symbol: string, loaded: nat, command: PairCommand)
    requires WithinIds(Run(steps)) && (command.Create? ==> command.symbol == symbol)
    ensures var s := Run(steps);
            var events := EventsOf(s.log, PairStream(symbol));
            Run(steps + [WritePair(symbol, loaded, command)]) ==
              if loaded == |events| then s.(log := s.log + Tag(PairStream(symbol), CalledFor(events, symbol, command))) else s
  {
    PairAlternates(steps, symbol);
    WriteIs(Run(steps), symbol, loaded, command);
    RunSnoc(steps, WritePair(symbol, loaded, command));
  }

  lemma {:induction false} PairAlternates(steps: seq<Step>, symbol: string)
    requires WithinIds(Run(steps))
    ensures PairLifecycle(EventsOf(Run(steps).log, PairStream(symbol)), symbol)
  {
    StreamsInEveryRun(steps);
  }

  lemma DecidesByLength(events: seq<Event>, symbol: string, command: PairCommand)
    requires PairLifecycle(events, symbol) && (command.Create? ==> command.symbol == symbol)
    ensures Decide(Replay(ApplyPair, NEW_PAIR, events), command) == CalledFor(events, symbol, command)
  {
    PairStateOf(events, symbol);
  }

  lemma WriteIs(s: System, symbol: string, loaded: nat, command: PairCommand)
    requires PairLifecycle(EventsOf(s.log, PairStream(symbol)), symbol) && (command.Create? ==> command.symbol == symbol)
    ensures var events := EventsOf(s.log, PairStream(symbol));
            WritePairStep(s, symbol, loaded, command) ==
              if loaded == |events| then s.(log := s.log + Tag(PairStream(symbol), CalledFor(events, symbol, command))) else s
  {
    var events := EventsOf(s.log, PairStream(symbol));
    if loaded == |events| {
      DecidesByLength(events, symbol, command);
      assert events[..loaded] == events;
      assert s.log + Tag(PairStream(symbol), []) == s.log;
    }
  }
}
