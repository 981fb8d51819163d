/** Every id provider, execution engine and currency-pair writer over one store. Each segment of code
    between two awaits is one atomic step; the steps of all calls interleave freely. */
module Engines {
  import opened Prelude
  import opened EventLog
  import opened Aggregates
  import opened Repository
  import opened TradeIds
  import opened Execution

  /** Where one ExecuteAsync call is waiting. */
  datatype Phase =
    | Loading(tries: nat, loaded: nat)    // paging the counter stream
    | Saving(tries: nat, base: int)       // its increment of version `base` is on the way
    | HiLanded(hi: int)                   // the increment landed, the answer is on the way
    | Creating(ticket: Ticket)            // has its id, the creation is on the way
    | Executing(ticket: Ticket)           // created, waiting out the delay
    | Settled(ticket: Ticket)
    | IdFailed                            // three conflicts on the counter
    | TradeConflict(ticket: Ticket)       // a trade save met an unexpected version
    | Dropped                             // the process or the connection died

  datatype Call = Call(provider: nat, terms: Terms, phase: Phase)

  datatype System = System(log: Log, providers: map<nat, Provider>, calls: map<nat, Call>, issued: seq<Ticket>)

  const START := System([], map[], map[], [])

  datatype Step =
    | NewProvider(p: nat)
    | BeginCall(c: nat, p: nat, terms: Terms)
    | ReadPage(c: nat)
    | CommitIncrement(c: nat)
    | InstallHi(c: nat)
    | CommitCreated(c: nat)
    | CommitOutcome(c: nat)
    | DropCall(c: nat)
    | WritePair(symbol: string, loaded: nat, command: PairCommand)

  function SetPhase(s: System, c: nat, phase: Phase): System
    requires c in s.calls
  {
    s.(calls := s.calls[c := s.calls[c].(phase := phase)])
  }

  function Counted(s: System): nat {
    |EventsOf(s.log, Counter)|
  }

  /** Hands out a ticket from provider state p to call c. */
  function Issue(s: System, c: nat, p: Provider): System
    requires c in s.calls
  {
    SetPhase(s, c, Creating(Issued(p))).(providers := s.providers[s.calls[c].provider := p], issued := s.issued + [Issued(p)])
  }

  function BeginStep(s: System, c: nat, p: nat, terms: Terms): System {
    if p !in s.providers || c in s.calls then s
    else
      var s' := s.(calls := s.calls[c := Call(p, terms, Loading(HI_VALUE_TRY_COUNT, 0))]);
      if NeedsRefill(s.providers[p]) then s' else Issue(s', c, Bump(s.providers[p]))
  }

  function ReadPageStep(s: System, c: nat): System {
    if c !in s.calls || !s.calls[c].phase.Loading? then s
    else
      var Loading(tries, loaded) := s.calls[c].phase;
      var next := Min(Counted(s), loaded + READ_PAGE_SIZE);
      if next == Counted(s) then SetPhase(s, c, Saving(tries, next - 1))
      else SetPhase(s, c, Loading(tries, next))
  }

  function CommitIncrementStep(s: System, c: nat): System {
    if c !in s.calls || !s.calls[c].phase.Saving? then s
    else
      var Saving(tries, base) := s.calls[c].phase;
      match Append(s.log, Counter, base, [Incremented])
      case Some(log') => SetPhase(s, c, HiLanded(base + 1)).(log := log')
      case None => if tries > 1 then SetPhase(s, c, Loading(tries - 1, 0)) else SetPhase(s, c, IdFailed)
  }

  function InstallHiStep(s: System, c: nat): System {
    if c !in s.calls || !s.calls[c].phase.HiLanded? then s
    else Issue(s, c, Install(s.calls[c].phase.hi))
  }

  function CommitTrade(s: System, c: nat, t: Ticket, expected: int, e: Event, next: Phase): System
    requires c in s.calls
  {
    match Append(s.log, TradeStream(IdOf(t)), expected, [e])
    case Some(log') => SetPhase(s, c, next).(log := log')
    case None => SetPhase(s, c, TradeConflict(t))
  }

  function CommitCreatedStep(s: System, c: nat): System {
    if c !in s.calls || !s.calls[c].phase.Creating? then s
    else
      var t := s.calls[c].phase.ticket;
      CommitTrade(s, c, t, -1, TradeCreated(IdOf(t), s.calls[c].terms), Executing(t))
  }

  function CommitOutcomeStep(s: System, c: nat): System {
    if c !in s.calls || !s.calls[c].phase.Executing? then s
    else
      var t := s.calls[c].phase.ticket;
      CommitTrade(s, c, t, 0, Outcome(IdOf(t), s.calls[c].terms), Settled(t))
  }

  /** A reference-data writer that loaded the first `loaded` events of the pair at some earlier moment. */
  function WritePairStep(s: System, symbol: string, loaded: nat, command: PairCommand): System {
    var events := EventsOf(s.log, PairStream(symbol));
    if loaded > |events| || (command.Create? && command.symbol != symbol) then s
    else
      var raised := Decide(Replay(ApplyPair, NEW_PAIR, events[..loaded]), command);
      if raised == [] then s
      else
        match Append(s.log, PairStream(symbol), loaded - 1, raised)
        case Some(log') => s.(log := log')
        case None => s
  }

  /** A step that is not possible in this state changes nothing. */
  function Next(s: System, a: Step): System {
    match a
    case NewProvider(p) => if p in s.providers then s else s.(providers := s.providers[p := FRESH_PROVIDER])
    case BeginCall(c, p, terms) => BeginStep(s, c, p, terms)
    case ReadPage(c) => ReadPageStep(s, c)
    case CommitIncrement(c) => CommitIncrementStep(s, c)
    case InstallHi(c) => InstallHiStep(s, c)
    case CommitCreated(c) => CommitCreatedStep(s, c)
    case CommitOutcome(c) => CommitOutcomeStep(s, c)
    case DropCall(c) => if c in s.calls then SetPhase(s, c, Dropped) else s
    case WritePair(symbol, loaded, command) => WritePairStep(s, symbol, loaded, command)
  }

  function Run(steps: seq<Step>): System {
    if steps == [] then START else Next(Run(Front(steps)), Last(steps))
  }

  // ----- tickets -----

  ghost predicate PhaseOk(s: System, phase: Phase) {
    match phase
    case Loading(tries, loaded) => 1 <= tries <= HI_VALUE_TRY_COUNT && loaded <= Counted(s)
    case Saving(tries, base) => 1 <= tries <= HI_VALUE_TRY_COUNT && -1 <= base < Counted(s)
    case HiLanded(hi) => 0 <= hi < Counted(s) && HiUnused(s, hi)
    case Creating(t) => t in s.issued
    case Executing(t) => t in s.issued
    case Settled(t) => t in s.issued
    case TradeConflict(t) => t in s.issued
    case _ => true
  }

  /** No provider holds this hi value and no id came from it. */
  ghost predicate HiUnused(s: System, hi: int) {
    && (forall t :: t in s.issued ==> t.hi != hi)
    && (forall p :: p in s.providers && s.providers[p].initialized ==> s.providers[p].hi != hi)
  }

  predicate HasTicket(phase: Phase) {
    phase.Creating? || phase.Executing? || phase.Settled? || phase.TradeConflict?
  }

  ghost predicate Apart(x: Phase, y: Phase) {
    && (x.HiLanded? && y.HiLanded? ==> x.hi != y.hi)
    && (HasTicket(x) && HasTicket(y) ==> x.ticket != y.ticket)
  }

  ghost predicate ProviderOk(s: System, p: Provider) {
    p.initialized ==>
      && 0 <= p.hi < Counted(s)
      && 1 <= p.lo <= MULTIPLIER
      && forall t :: t in s.issued && t.hi == p.hi ==> t.lo <= p.lo
  }

  predicate OwnHi(p: Provider, q: Provider) {
    p.initialized && q.initialized ==> p.hi != q.hi
  }

  ghost predicate TicketsOk(s: System) {
    && (forall t :: t in s.issued ==> InRange(t) && t.hi < Counted(s))
    && Distinct(s.issued)
    && (forall p :: p in s.providers ==> ProviderOk(s, s.providers[p]))
    && (forall p, q :: p in s.providers && q in s.providers && p != q ==> OwnHi(s.providers[p], s.providers[q]))
    && (forall c :: c in s.calls ==> PhaseOk(s, s.calls[c].phase))
    && (forall c, d :: c in s.calls && d in s.calls && c != d ==> Apart(s.calls[c].phase, s.calls[d].phase))
    && (forall c :: c in s.calls ==> s.calls[c].provider in s.providers)
  }

  /** Changing one call's phase to one with nothing unique in it. */
  lemma PlainPhaseKeepsTickets(s: System, c: nat, phase: Phase)
    requires TicketsOk(s) && c in s.calls
    requires PhaseOk(s, phase)
    requires !phase.HiLanded?
    requires HasTicket(phase) ==> HasTicket(s.calls[c].phase) && phase.ticket == s.calls[c].phase.ticket
    ensures TicketsOk(SetPhase(s, c, phase))
  {
    var s' := SetPhase(s, c, phase);
    forall d | d in s'.calls ensures PhaseOk(s', s'.calls[d].phase) {
      var x := if d == c then phase else s.calls[d].phase;
      assert PhaseOk(s, x);
    }
    forall d, e | d in s'.calls && e in s'.calls && d != e ensures Apart(s'.calls[d].phase, s'.calls[e].phase) {
      assert Apart(s.calls[d].phase, s.calls[e].phase);
    }
    forall p | p in s'.providers ensures ProviderOk(s', s'.providers[p]) {
      assert ProviderOk(s, s.providers[p]);
    }
  }

  /** The log may grow under the tickets. */
  lemma GrowingLogKeepsTickets(s: System, log': Log)
    requires TicketsOk(s) && s.log <= log'
    ensures TicketsOk(s.(log := log'))
  {
    var s' := s.(log := log');
    StreamsGrow(s.log, log', Counter);
    forall d | d in s'.calls ensures PhaseOk(s', s'.calls[d].phase) {
      assert PhaseOk(s, s.calls[d].phase);
    }
    forall p | p in s'.providers ensures ProviderOk(s', s'.providers[p]) {
      assert ProviderOk(s, s.providers[p]);
    }
  }

  /** A lo value above all used ones, or from a hi value nobody else has. */
  ghost predicate Unused(s: System, c: nat, p: Provider)
    requires c in s.calls
  {
    && p.initialized && 0 <= p.hi < Counted(s) && 1 <= p.lo <= MULTIPLIER
    && (forall t :: t in s.issued && t.hi == p.hi ==> t.lo < p.lo)
    && (forall q :: q in s.providers && q != s.calls[c].provider && s.providers[q].initialized ==> s.providers[q].hi != p.hi)
    && (forall d :: d in s.calls && d != c && s.calls[d].phase.HiLanded? ==> s.calls[d].phase.hi != p.hi)
  }

  lemma IssueKeepsPhase(s: System, c: nat, p: Provider, d: nat)
    requires TicketsOk(s) && c in s.calls && Unused(s, c, p) && d in s.calls
    ensures PhaseOk(Issue(s, c, p), Issue(s, c, p).calls[d].phase)
  {
  }

  lemma IssueKeepsApart(s: System, c: nat, p: Provider, d: nat, e: nat)
    requires TicketsOk(s) && c in s.calls && Unused(s, c, p) && d in s.calls && e in s.calls && d != e
    ensures Apart(Issue(s, c, p).calls[d].phase, Issue(s, c, p).calls[e].phase)
  {
    assert Apart(s.calls[d].phase, s.calls[e].phase);
    assert PhaseOk(s, s.calls[d].phase) && PhaseOk(s, s.calls[e].phase);
  }

  lemma IssueKeepsProvider(s: System, c: nat, p: Provider, q: nat)
    requires TicketsOk(s) && c in s.calls && Unused(s, c, p) && q in Issue(s, c, p).providers
    ensures ProviderOk(Issue(s, c, p), Issue(s, c, p).providers[q])
  {
  }

  lemma IssueKeepsTickets(s: System, c: nat, p: Provider)
    requires TicketsOk(s) && c in s.calls && Unused(s, c, p)
    ensures TicketsOk(Issue(s, c, p))
  {
    var s' := Issue(s, c, p);
    forall d | d in s'.calls ensures PhaseOk(s', s'.calls[d].phase) {
      IssueKeepsPhase(s, c, p, d);
    }
    forall d, e | d in s'.calls && e in s'.calls && d != e ensures Apart(s'.calls[d].phase, s'.calls[e].phase) {
      IssueKeepsApart(s, c, p, d, e);
    }
    forall q | q in s'.providers ensures ProviderOk(s', s'.providers[q]) {
      IssueKeepsProvider(s, c, p, q);
    }
    assert forall t :: t in s'.issued <==> t in s.issued || t == Issued(p);
  }

  lemma BeginKeepsTickets(s: System, c: nat, p: nat, terms: Terms)
    requires TicketsOk(s)
    ensures TicketsOk(BeginStep(s, c, p, terms))
  {
    if p in s.providers && c !in s.calls {
      var s' := s.(calls := s.calls[c := Call(p, terms, Loading(HI_VALUE_TRY_COUNT, 0))]);
      BeginLoadingKeepsTickets(s, c, p, terms);
      if !NeedsRefill(s.providers[p]) {
        BumpIsUnused(s', c, p);
        IssueKeepsTickets(s', c, Bump(s.providers[p]));
      }
    }
  }

  /** The next lo value of the provider's own hi value. */
  lemma BumpIsUnused(s: System, c: nat, p: nat)
    requires TicketsOk(s) && c in s.calls && s.calls[c].provider == p && p in s.providers && !NeedsRefill(s.providers[p])
    ensures Unused(s, c, Bump(s.providers[p]))
  {
  }

  /** The new event number is a hi value nobody has had. */
  lemma LandedHiIsNew(s: System, c: nat, g: System, hi: int)
    requires TicketsOk(s) && TicketsOk(g) && c in s.calls
    requires g == s.(log := g.log) && hi == Counted(s) && Counted(g) == hi + 1
    ensures TicketsOk(SetPhase(g, c, HiLanded(hi)))
  {
    var s' := SetPhase(g, c, HiLanded(hi));
    forall p | p in s'.providers ensures ProviderOk(s', s'.providers[p]) && (s'.providers[p].initialized ==> s'.providers[p].hi != hi) {
      assert ProviderOk(g, g.providers[p]) && ProviderOk(s, s.providers[p]);
    }
    assert HiUnused(s', hi);
    forall d | d in s'.calls ensures PhaseOk(s', s'.calls[d].phase) {
      assert PhaseOk(g, g.calls[d].phase);
    }
    forall d, e | d in s'.calls && e in s'.calls && d != e ensures Apart(s'.calls[d].phase, s'.calls[e].phase) {
      assert Apart(g.calls[d].phase, g.calls[e].phase);
      assert PhaseOk(s, s.calls[d].phase) && PhaseOk(s, s.calls[e].phase);
    }
  }

  lemma RetryKeepsTickets(s: System, c: nat, tries: nat)
    requires TicketsOk(s) && c in s.calls && 1 <= tries <= HI_VALUE_TRY_COUNT
    ensures TicketsOk(SetPhase(s, c, if tries > 1 then Loading(tries - 1, 0) else IdFailed))
  {
    PlainPhaseKeepsTickets(s, c, if tries > 1 then Loading(tries - 1, 0) else IdFailed);
  }

  /** What a commit of the increment does, by whether the version still stands. */
  lemma IncrementOutcome(s: System, c: nat)
    requires c in s.calls && s.calls[c].phase.Saving?
    ensures var Saving(tries, base) := s.calls[c].phase;
            if Counted(s) == base + 1 then
              && Counted(CommitIncrementStep(s, c)) == base + 2
              && s.log <= CommitIncrementStep(s, c).log
              && CommitIncrementStep(s, c) == SetPhase(s.(log := CommitIncrementStep(s, c).log), c, HiLanded(base + 1))
            else
              CommitIncrementStep(s, c) == SetPhase(s, c, if tries > 1 then Loading(tries - 1, 0) else IdFailed)
  {
  }

  lemma LandingKeepsTickets(s: System, c: nat, log': Log, hi: int)
    requires TicketsOk(s) && c in s.calls && s.log <= log'
    requires hi == Counted(s) && |EventsOf(log', Counter)| == hi + 1
    ensures TicketsOk(SetPhase(s.(log := log'), c, HiLanded(hi)))
  {
    GrowingLogKeepsTickets(s, log');
    LandedHiIsNew(s, c, s.(log := log'), hi);
  }

  lemma IncrementKeepsTickets(s: System, c: nat)
    requires TicketsOk(s) && c in s.calls && s.calls[c].phase.Saving?
    ensures TicketsOk(CommitIncrementStep(s, c))
  {
    var Saving(tries, base) := s.calls[c].phase;
    var s' := CommitIncrementStep(s, c);
    if Counted(s) == base + 1 {
      assert s.log <= s'.log && |EventsOf(s'.log, Counter)| == base + 2 by {
        IncrementOutcome(s, c);
      }
      assert s' == SetPhase(s.(log := s'.log), c, HiLanded(base + 1)) by {
        IncrementOutcome(s, c);
      }
      LandingKeepsTickets(s, c, s'.log, base + 1);
    } else {
      assert s' == SetPhase(s, c, if tries > 1 then Loading(tries - 1, 0) else IdFailed) by {
        IncrementOutcome(s, c);
      }
      assert 1 <= tries <= HI_VALUE_TRY_COUNT by {
        assert PhaseOk(s, s.calls[c].phase);
      }
      RetryKeepsTickets(s, c, tries);
    }
  }

  lemma InstallKeepsTickets(s: System, c: nat)
    requires TicketsOk(s)
    ensures TicketsOk(InstallHiStep(s, c))
  {
    if c in s.calls && s.calls[c].phase.HiLanded? {
      var hi := s.calls[c].phase.hi;
      assert PhaseOk(s, s.calls[c].phase);
      forall d | d in s.calls && d != c && s.calls[d].phase.HiLanded? ensures s.calls[d].phase.hi != hi {
        assert Apart(s.calls[d].phase, s.calls[c].phase);
      }
      IssueKeepsTickets(s, c, Install(hi));
    }
  }

  lemma CommitTradeKeepsTickets(s: System, c: nat, t: Ticket, expected: int, e: Event, next: Phase)
    requires TicketsOk(s) && c in s.calls && HasTicket(s.calls[c].phase) && s.calls[c].phase.ticket == t
    requires HasTicket(next) && next.ticket == t
    ensures TicketsOk(CommitTrade(s, c, t, expected, e, next))
  {
    assert PhaseOk(s, s.calls[c].phase);
    match Append(s.log, TradeStream(IdOf(t)), expected, [e]) {
      case None => PlainPhaseKeepsTickets(s, c, TradeConflict(t));
      case Some(log') =>
        GrowingLogKeepsTickets(s, log');
        PlainPhaseKeepsTickets(s.(log := log'), c, next);
        assert SetPhase(s.(log := log'), c, next) == CommitTrade(s, c, t, expected, e, next);
    }
  }

  lemma NewProviderKeepsTickets(s: System, p: nat)
    requires TicketsOk(s) && p !in s.providers
    ensures TicketsOk(s.(providers := s.providers[p := FRESH_PROVIDER]))
  {
  }

  lemma ReadPageKeepsTickets(s: System, c: nat)
    requires TicketsOk(s)
    ensures TicketsOk(ReadPageStep(s, c))
  {
    if c in s.calls && s.calls[c].phase.Loading? {
      assert PhaseOk(s, s.calls[c].phase);
      var next := ReadPageStep(s, c).calls[c].phase;
      assert PhaseOk(s, next);
      PlainPhaseKeepsTickets(s, c, next);
    }
  }

  lemma StepKeepsTickets(s: System, a: Step)
    requires TicketsOk(s)
    ensures TicketsOk(Next(s, a))
  {
    match a {
      case NewProvider(p) =>
        if p !in s.providers {
          NewProviderKeepsTickets(s, p);
        }
      case BeginCall(c, p, terms) => BeginKeepsTickets(s, c, p, terms);
      case ReadPage(c) => ReadPageKeepsTickets(s, c);
      case CommitIncrement(c) =>
        if c in s.calls && s.calls[c].phase.Saving? {
          IncrementKeepsTickets(s, c);
        }
      case InstallHi(c) => InstallKeepsTickets(s, c);
      case CommitCreated(c) => CreatedKeepsTickets(s, c);
      case CommitOutcome(c) => OutcomeKeepsTickets(s, c);
      case DropCall(c) =>
        if c in s.calls {
          PlainPhaseKeepsTickets(s, c, Dropped);
        }
      case WritePair(symbol, loaded, command) => WritePairKeepsTickets(s, symbol, loaded, command);
    }
  }

  lemma CreatedKeepsTickets(s: System, c: nat)
    requires TicketsOk(s)
    ensures TicketsOk(CommitCreatedStep(s, c))
  {
    if c in s.calls && s.calls[c].phase.Creating? {
      var t := s.calls[c].phase.ticket;
      CommitTradeKeepsTickets(s, c, t, -1, TradeCreated(IdOf(t), s.calls[c].terms), Executing(t));
    }
  }

  lemma OutcomeKeepsTickets(s: System, c: nat)
    requires TicketsOk(s)
    ensures TicketsOk(CommitOutcomeStep(s, c))
  {
    if c in s.calls && s.calls[c].phase.Executing? {
      var t := s.calls[c].phase.ticket;
      CommitTradeKeepsTickets(s, c, t, 0, Outcome(IdOf(t), s.calls[c].terms), Settled(t));
    }
  }

  lemma WritePairKeepsTickets(s: System, symbol: string, loaded: nat, command: PairCommand)
    requires TicketsOk(s)
    ensures TicketsOk(WritePairStep(s, symbol, loaded, command))
  {
    GrowingLogKeepsTickets(s, WritePairStep(s, symbol, loaded, command).log);
  }

  lemma {:induction false} TicketsInEveryRun(steps: seq<Step>)
    ensures TicketsOk(Run(steps))
  {
    if steps != [] {
      TicketsInEveryRun(Front(steps));
      StepKeepsTickets(Run(Front(steps)), Last(steps));
    }
  }

  // ----- streams -----

  /** Each event sits in the stream of its own subject. */
  predicate AtHome(e: Entry) {
    match e.event
    case Incremented => e.stream == Counter
    case TradeCreated(id, _) => e.stream == TradeStream(id)
    case TradeCompleted(id) => e.stream == TradeStream(id)
    case TradeRejected(id, _) => e.stream == TradeStream(id)
    case PairCreated(symbol, _, _, _, _) => e.stream == PairStream(symbol)
    case PairActivated(symbol) => e.stream == PairStream(symbol)
    case PairDeactivated(symbol) => e.stream == PairStream(symbol)
    case PairChanged(symbol) => e.stream == PairStream(symbol)
  }

  ghost predicate WellFormed(log: Log) {
    && (forall e :: e in log ==> AtHome(e))
    && (forall id :: TradeLifecycle(EventsOf(log, TradeStream(id)), id))
    && (forall symbol :: PairLifecycle(EventsOf(log, PairStream(symbol)), symbol))
  }

  /** What a call may rely on about its trade's stream. */
  ghost predicate OwnStreamOk(log: Log, call: Call) {
    match call.phase
    case Creating(t) => EventsOf(log, TradeStream(IdOf(t))) == []
    case Executing(t) => EventsOf(log, TradeStream(IdOf(t))) == [TradeCreated(IdOf(t), call.terms)]
    case Settled(t) => EventsOf(log, TradeStream(IdOf(t))) == [TradeCreated(IdOf(t), call.terms), Outcome(IdOf(t), call.terms)]
    case TradeConflict(_) => false
    case _ => true
  }

  /** A trade stream exists only under an issued id. */
  ghost predicate OnlyIssuedIds(s: System) {
    forall id :: EventsOf(s.log, TradeStream(id)) != [] ==> exists t :: t in s.issued && IdOf(t) == id
  }

  ghost predicate StreamsOk(s: System) {
    && WellFormed(s.log)
    && OnlyIssuedIds(s)
    && (forall c :: c in s.calls ==> OwnStreamOk(s.log, s.calls[c]))
  }

  /** Few enough hi values that ids do not wrap around onto each other. */
  predicate WithinIds(s: System) {
    Counted(s) <= MAX_HI_VALUES
  }

  /** One more write to stream x, where every other stream and what calls rely on stays. */
  lemma {:induction false} AppendKeepsWellFormed(log: Log, x: StreamName, expected: int, e: Event)
    requires WellFormed(log) && Append(log, x, expected, [e]).Some?
    requires AtHome(Entry(x, e))
    requires x.TradeStream? ==> TradeLifecycle(EventsOf(log, x) + [e], x.id)
    requires x.PairStream? ==> PairLifecycle(EventsOf(log, x) + [e], x.symbol)
    ensures WellFormed(Append(log, x, expected, [e]).value)
  {
    var log' := Append(log, x, expected, [e]).value;
    assert Tag(x, [e]) == [Entry(x, e)];
    assert log' == log + [Entry(x, e)];
    forall id ensures TradeLifecycle(EventsOf(log', TradeStream(id)), id) {
      EventsOfSnoc(log, Entry(x, e), TradeStream(id));
    }
    forall symbol ensures PairLifecycle(EventsOf(log', PairStream(symbol)), symbol) {
      EventsOfSnoc(log, Entry(x, e), PairStream(symbol));
    }
  }

  /** A write outside the trade streams. */
  lemma ForeignWriteKeepsStreams(s: System, x: StreamName, expected: int, e: Event)
    requires StreamsOk(s) && !x.TradeStream? && Append(s.log, x, expected, [e]).Some?
    requires AtHome(Entry(x, e))
    requires x.PairStream? ==> PairLifecycle(EventsOf(s.log, x) + [e], x.symbol)
    ensures StreamsOk(s.(log := Append(s.log, x, expected, [e]).value))
  {
    AppendKeepsWellFormed(s.log, x, expected, e);
    var log' := Append(s.log, x, expected, [e]).value;
    forall id ensures EventsOf(log', TradeStream(id)) == EventsOf(s.log, TradeStream(id)) {
      AppendExtendsOneStream(s.log, x, expected, [e], TradeStream(id));
    }
    var s' := s.(log := log');
    forall c | c in s'.calls ensures OwnStreamOk(log', s'.calls[c]) {
      assert OwnStreamOk(s.log, s.calls[c]);
    }
  }

  /** A phase that relies on no stream. */
  lemma PlainPhaseKeepsStreams(s: System, c: nat, phase: Phase)
    requires StreamsOk(s) && c in s.calls && !HasTicket(phase)
    ensures StreamsOk(SetPhase(s, c, phase))
  {
  }

  lemma LastIsNew(tickets: seq<Ticket>, t: Ticket)
    requires Distinct(tickets + [t])
    ensures t !in tickets
  {
    assert (tickets + [t])[|tickets|] == t;
    forall i | 0 <= i < |tickets| ensures tickets[i] != t {
      assert (tickets + [t])[i] == tickets[i];
    }
  }

  /** A new ticket's id has no stream yet. */
  lemma NewIdHasNoStream(s: System, t: Ticket)
    requires OnlyIssuedIds(s) && t !in s.issued
    requires forall u :: u in s.issued ==> InRange(u) && u.hi < MAX_HI_VALUES
    requires InRange(t) && t.hi < MAX_HI_VALUES
    ensures EventsOf(s.log, TradeStream(IdOf(t))) == []
  {
    if EventsOf(s.log, TradeStream(IdOf(t))) != [] {
      var u :| u in s.issued && IdOf(u) == IdOf(t);
      IdInjective(u, t);
      assert false;
    }
  }

  lemma IssueKeepsStreams(s: System, c: nat, p: Provider)
    requires StreamsOk(s) && TicketsOk(s) && c in s.calls
    requires TicketsOk(Issue(s, c, p)) && WithinIds(s)
    ensures StreamsOk(Issue(s, c, p))
  {
    var s' := Issue(s, c, p);
    var t := Issued(p);
    LastIsNew(s.issued, t);
    assert t in s'.issued;
    NewIdHasNoStream(s, t);
    forall d | d in s'.calls ensures OwnStreamOk(s'.log, s'.calls[d]) {
      assert d != c ==> OwnStreamOk(s.log, s.calls[d]);
    }
    forall u | u in s.issued ensures u in s'.issued {}
  }

  /** The save of a trade meets exactly the stream its call expects, and no other call's. */
  lemma CommitTradeKeepsStreams(s: System, c: nat, t: Ticket, prior: seq<Event>, e: Event, next: Phase)
    requires StreamsOk(s) && TicketsOk(s) && WithinIds(s)
    requires c in s.calls && HasTicket(s.calls[c].phase) && s.calls[c].phase.ticket == t
    requires EventsOf(s.log, TradeStream(IdOf(t))) == prior
    requires AtHome(Entry(TradeStream(IdOf(t)), e)) && TradeLifecycle(prior + [e], IdOf(t))
    requires HasTicket(next) && next.ticket == t
    requires forall log :: EventsOf(log, TradeStream(IdOf(t))) == prior + [e] ==> OwnStreamOk(log, s.calls[c].(phase := next))
    ensures StreamsOk(CommitTrade(s, c, t, |prior| - 1, e, next))
  {
    var x := TradeStream(IdOf(t));
    var log' := Append(s.log, x, |prior| - 1, [e]).value;
    var s' := CommitTrade(s, c, t, |prior| - 1, e, next);
    assert WellFormed(log') by {
      AppendKeepsWellFormed(s.log, x, |prior| - 1, e);
    }
    TradeStreamsAfter(s.log, t, |prior| - 1, e);
    forall d | d in s'.calls ensures OwnStreamOk(log', s'.calls[d]) {
      if d != c {
        OtherCallKeeps(s, c, t, d, log');
      }
    }
    assert OnlyIssuedIds(s') by {
      assert PhaseOk(s, s.calls[c].phase);
      assert t in s'.issued;
    }
  }

  lemma TradeStreamsAfter(log: Log, t: Ticket, expected: int, e: Event)
    requires Append(log, TradeStream(IdOf(t)), expected, [e]).Some?
    ensures var log' := Append(log, TradeStream(IdOf(t)), expected, [e]).value;
            forall id :: EventsOf(log', TradeStream(id)) == EventsOf(log, TradeStream(id)) + if id == IdOf(t) then [e] else []
  {
  }

  /** A call with another ticket has another stream. */
  lemma OtherCallKeeps(s: System, c: nat, t: Ticket, d: nat, log': Log)
    requires StreamsOk(s) && TicketsOk(s) && WithinIds(s)
    requires c in s.calls && HasTicket(s.calls[c].phase) && s.calls[c].phase.ticket == t
    requires d in s.calls && d != c
    requires forall id :: id != IdOf(t) ==> EventsOf(log', TradeStream(id)) == EventsOf(s.log, TradeStream(id))
    ensures OwnStreamOk(log', s.calls[d])
  {
    assert OwnStreamOk(s.log, s.calls[d]);
    if HasTicket(s.calls[d].phase) {
      assert Apart(s.calls[c].phase, s.calls[d].phase);
      assert PhaseOk(s, s.calls[c].phase) && PhaseOk(s, s.calls[d].phase);
      if IdOf(s.calls[d].phase.ticket) == IdOf(t) {
        IdInjective(s.calls[d].phase.ticket, t);
      }
    }
  }

  lemma WritePairKeepsStreams(s: System, symbol: string, loaded: nat, command: PairCommand)
    requires StreamsOk(s)
    ensures StreamsOk(WritePairStep(s, symbol, loaded, command))
  {
    var events := EventsOf(s.log, PairStream(symbol));
    if loaded == |events| && (command.Create? ==> command.symbol == symbol) {
      assert events[..loaded] == events;
      var raised := Decide(Replay(ApplyPair, NEW_PAIR, events), command);
      if raised != [] {
        DecideKeepsLifecycle(events, symbol, command);
        PairStateOf(events, symbol);
        assert raised == [raised[0]];
        ForeignWriteKeepsStreams(s, PairStream(symbol), loaded - 1, raised[0]);
      }
    }
  }

  lemma BeginKeepsStreams(s: System, c: nat, p: nat, terms: Terms)
    requires StreamsOk(s) && TicketsOk(s) && WithinIds(s)
    ensures StreamsOk(BeginStep(s, c, p, terms))
  {
    if p in s.providers && c !in s.calls {
      var s' := s.(calls := s.calls[c := Call(p, terms, Loading(HI_VALUE_TRY_COUNT, 0))]);
      forall d | d in s'.calls ensures OwnStreamOk(s'.log, s'.calls[d]) {
        assert d != c ==> OwnStreamOk(s.log, s.calls[d]);
      }
      assert StreamsOk(s');
      if !NeedsRefill(s.providers[p]) {
        BeginKeepsTickets(s, c, p, terms);
        BeginLoadingKeepsTickets(s, c, p, terms);
        IssueKeepsStreams(s', c, Bump(s.providers[p]));
      }
    }
  }

  lemma BeginLoadingKeepsTickets(s: System, c: nat, p: nat, terms: Terms)
    requires TicketsOk(s) && p in s.providers && c !in s.calls
    ensures TicketsOk(s.(calls := s.calls[c := Call(p, terms, Loading(HI_VALUE_TRY_COUNT, 0))]))
  {
    var s' := s.(calls := s.calls[c := Call(p, terms, Loading(HI_VALUE_TRY_COUNT, 0))]);
    forall d | d in s'.calls ensures PhaseOk(s', s'.calls[d].phase) {
      assert d != c ==> PhaseOk(s, s.calls[d].phase);
    }
    forall d, e | d in s'.calls && e in s'.calls && d != e ensures Apart(s'.calls[d].phase, s'.calls[e].phase) {
      assert d != c && e != c ==> Apart(s.calls[d].phase, s.calls[e].phase);
    }
    forall q | q in s'.providers ensures ProviderOk(s', s'.providers[q]) {
      assert ProviderOk(s, s.providers[q]);
    }
  }

  lemma IncrementKeepsStreams(s: System, c: nat)
    requires StreamsOk(s) && c in s.calls && s.calls[c].phase.Saving?
    ensures StreamsOk(CommitIncrementStep(s, c))
  {
    var Saving(tries, base) := s.calls[c].phase;
    if Append(s.log, Counter, base, [Incremented]).Some? {
      ForeignWriteKeepsStreams(s, Counter, base, Incremented);
      PlainPhaseKeepsStreams(s.(log := Append(s.log, Counter, base, [Incremented]).value), c, HiLanded(base + 1));
    } else {
      PlainPhaseKeepsStreams(s, c, if tries > 1 then Loading(tries - 1, 0) else IdFailed);
    }
  }

  lemma CreatedKeepsStreams(s: System, c: nat)
    requires StreamsOk(s) && TicketsOk(s) && WithinIds(s)
    ensures StreamsOk(CommitCreatedStep(s, c))
  {
    if c in s.calls && s.calls[c].phase.Creating? {
      assert OwnStreamOk(s.log, s.calls[c]);
      var t := s.calls[c].phase.ticket;
      CommitTradeKeepsStreams(s, c, t, [], TradeCreated(IdOf(t), s.calls[c].terms), Executing(t));
    }
  }

  lemma OutcomeKeepsStreams(s: System, c: nat)
    requires StreamsOk(s) && TicketsOk(s) && WithinIds(s)
    ensures StreamsOk(CommitOutcomeStep(s, c))
  {
    if c in s.calls && s.calls[c].phase.Executing? {
      assert OwnStreamOk(s.log, s.calls[c]);
      var t, terms := s.calls[c].phase.ticket, s.calls[c].terms;
      CommitTradeKeepsStreams(s, c, t, [TradeCreated(IdOf(t), terms)], Outcome(IdOf(t), terms), Settled(t));
    }
  }

  lemma NewProviderKeepsStreams(s: System, p: nat)
    requires StreamsOk(s)
    ensures StreamsOk(s.(providers := s.providers[p := FRESH_PROVIDER]))
  {
  }

  lemma DropKeepsStreams(s: System, c: nat)
    requires StreamsOk(s) && c in s.calls
    ensures StreamsOk(SetPhase(s, c, Dropped))
  {
    PlainPhaseKeepsStreams(s, c, Dropped);
  }

  lemma ReadPageKeepsStreams(s: System, c: nat)
    requires StreamsOk(s)
    ensures StreamsOk(ReadPageStep(s, c))
  {
    if c in s.calls && s.calls[c].phase.Loading? {
      PlainPhaseKeepsStreams(s, c, ReadPageStep(s, c).calls[c].phase);
    }
  }

  lemma CommitKeepsStreams(s: System, c: nat)
    requires StreamsOk(s)
    ensures StreamsOk(CommitIncrementStep(s, c))
  {
    if c in s.calls && s.calls[c].phase.Saving? {
      IncrementKeepsStreams(s, c);
    }
  }

  lemma InstallKeepsStreams(s: System, c: nat)
    requires StreamsOk(s) && TicketsOk(s) && WithinIds(s)
    ensures StreamsOk(InstallHiStep(s, c))
  {
    if c in s.calls && s.calls[c].phase.HiLanded? {
      InstallKeepsTickets(s, c);
      IssueKeepsStreams(s, c, Install(s.calls[c].phase.hi));
    }
  }

  lemma StepKeepsStreams(s: System, a: Step)
    requires StreamsOk(s) && TicketsOk(s) && WithinIds(s)
    ensures StreamsOk(Next(s, a))
  {
    match a {
      case NewProvider(p) => NewProviderKeepsStreams(s, p);
      case BeginCall(c, p, terms) => BeginKeepsStreams(s, c, p, terms);
      case ReadPage(c) => ReadPageKeepsStreams(s, c);
      case CommitIncrement(c) => CommitKeepsStreams(s, c);
      case InstallHi(c) => InstallKeepsStreams(s, c);
      case CommitCreated(c) => CreatedKeepsStreams(s, c);
      case CommitOutcome(c) => OutcomeKeepsStreams(s, c);
      case DropCall(c) =>
        if c in s.calls {
          DropKeepsStreams(s, c);
        }
      case WritePair(symbol, loaded, command) => WritePairKeepsStreams(s, symbol, loaded, command);
    }
  }

  lemma StepGrowsLog(s: System, a: Step)
    ensures s.log <= Next(s, a).log
    ensures Counted(s) <= Counted(Next(s, a))
  {
  }

  lemma {:induction false} StreamsInEveryRun(steps: seq<Step>)
    requires WithinIds(Run(steps))
    ensures StreamsOk(Run(steps))
  {
    if steps == [] {
      forall id ensures TradeLifecycle(EventsOf([], TradeStream(id)), id) {}
      forall symbol ensures PairLifecycle(EventsOf([], PairStream(symbol)), symbol) {}
    } else {
      StepGrowsLog(Run(Front(steps)), Last(steps));
      StreamsInEveryRun(Front(steps));
      TicketsInEveryRun(Front(steps));
      StepKeepsStreams(Run(Front(steps)), Last(steps));
    }
  }

  // ----- main results -----

  function Ids(tickets: seq<Ticket>): seq<int> {
    seq(|tickets|, i requires 0 <= i < |tickets| => IdOf(tickets[i]))
  }

  /** However many providers, however their refills interleave: lo values stay in 1..100, no ticket is
      issued twice (so no hi value is installed twice), and the ids differ pairwise. */
  lemma {:induction false} AllIdsDistinct(steps: seq<Step>)
    ensures var s := Run(steps);
            && (forall i :: 0 <= i < |s.issued| ==> InRange(s.issued[i]) && s.issued[i].hi < Counted(s))
            && Distinct(s.issued)
            && (WithinIds(s) ==> Distinct(Ids(s.issued)))
  {
    var s := Run(steps);
    TicketsInEveryRun(steps);
    assert forall i :: 0 <= i < |s.issued| ==> s.issued[i] in s.issued;
    if WithinIds(s) {
      forall i, j | 0 <= i < j < |s.issued| ensures Ids(s.issued)[i] != Ids(s.issued)[j] {
        if IdOf(s.issued[i]) == IdOf(s.issued[j]) {
          IdInjective(s.issued[i], s.issued[j]);
        }
      }
    }
  }

  /** Every trade's stream is a prefix of created-completed or created-rejected, every pair's stream
      alternates, and no trade save ever meets an unexpected version. */
  lemma LogIsWellFormed(steps: seq<Step>)
    requires WithinIds(Run(steps))
    ensures var s := Run(steps);
            && WellFormed(s.log)
            && (forall c :: c in s.calls ==> !s.calls[c].phase.TradeConflict?)
            && (forall c :: c in s.calls && s.calls[c].phase.Settled? ==>
                  var id := IdOf(s.calls[c].phase.ticket);
                  EventsOf(s.log, TradeStream(id)) == [TradeCreated(id, s.calls[c].terms), Outcome(id, s.calls[c].terms)])
  {
    StreamsInEveryRun(steps);
    var s := Run(steps);
    forall c | c in s.calls ensures OwnStreamOk(s.log, s.calls[c]) {}
  }

  lemma WellFormedFront(log: Log, e: Entry)
    requires WellFormed(log + [e])
    ensures WellFormed(log)
  {
    WellFormedPrefix(log + [e], |log|);
    assert (log + [e])[..|log|] == log;
  }

  /** An earlier moment of a well-formed log is well formed too. */
  lemma WellFormedPrefix(log: Log, n: nat)
    requires WellFormed(log) && n <= |log|
    ensures WellFormed(log[..n])
  {
    forall id ensures TradeLifecycle(EventsOf(log[..n], TradeStream(id)), id) {
      EventsOfPrefix(log, n, TradeStream(id));
      assert TradeLifecycle(EventsOf(log, TradeStream(id)), id);
    }
    forall symbol ensures PairLifecycle(EventsOf(log[..n], PairStream(symbol)), symbol) {
      EventsOfPrefix(log, n, PairStream(symbol));
      assert PairLifecycle(EventsOf(log, PairStream(symbol)), symbol);
    }
  }
}
