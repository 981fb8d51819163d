/** The Hi/Lo trade id generator. A hi value is the event number of an increment this provider wrote
    to the shared counter stream; each hi serves 100 ids. */
module TradeIds {
  import opened Prelude
  import opened EventLog
  import opened Store
  import opened Aggregates
  import opened Repository

  const HI_VALUE_TRY_COUNT := 3
  const MULTIPLIER := 100

  /** hi values below this many never repeat an id; from here on the 32-bit product does. */
  const MAX_HI_VALUES := 42949672

  datatype Ticket = Ticket(hi: int, lo: int)

  /** 32-bit signed arithmetic wraps around. */
  function Wrap32(x: int): int {
    (x + 0x8000_0000) % 0x1_0000_0000 - 0x8000_0000
  }

  function IdOf(t: Ticket): int {
    Wrap32(Wrap32(t.hi * MULTIPLIER) + t.lo)
  }

  predicate InRange(t: Ticket) {
    0 <= t.hi && 1 <= t.lo <= MULTIPLIER
  }

  ghost predicate Injective(below: nat) {
    forall t, u :: InRange(t) && InRange(u) && t.hi < below && u.hi < below && IdOf(t) == IdOf(u) ==> t == u
  }

  /** The id in one step. */
  lemma IdIsWrapped(t: Ticket)
    ensures IdOf(t) == Wrap32(t.hi * 100 + t.lo)
  {
  }

  lemma IdInjective(t: Ticket, u: Ticket)
    requires InRange(t) && InRange(u) && t.hi < MAX_HI_VALUES && u.hi < MAX_HI_VALUES
    requires IdOf(t) == IdOf(u)
    ensures t == u
  {
    IdIsWrapped(t);
    IdIsWrapped(u);
    WrapInjective(t.hi * 100 + t.lo, u.hi * 100 + u.lo);
    assert t.hi * 100 + (t.lo - 1) == u.hi * 100 + (u.lo - 1);
  }

  lemma WrapInjective(x: int, y: int)
    requires 0 <= x < 0x1_0000_0000 && 0 <= y < 0x1_0000_0000 && Wrap32(x) == Wrap32(y)
    ensures x == y
  {
  }

  /** Ids of different tickets differ exactly while there are at most 42949672 hi values: the next
      one wraps around onto the very first ids. */
  lemma IdsUniqueExactly(below: nat)
    ensures Injective(below) <==> below <= MAX_HI_VALUES
  {
    if below <= MAX_HI_VALUES {
      forall t, u | InRange(t) && InRange(u) && t.hi < below && u.hi < below && IdOf(t) == IdOf(u)
        ensures t == u
      {
        IdInjective(t, u);
      }
    } else {
      var t, u := Ticket(0, 1), Ticket(MAX_HI_VALUES, 97);
      IdIsWrapped(t);
      IdIsWrapped(u);
      assert IdOf(t) == IdOf(u) == 1;
    }
  }

  /** The id leaves the positive 32-bit range, without repeating yet, at hi value 21474836. */
  lemma IdPositiveExactly(t: Ticket)
    requires InRange(t) && t.hi < MAX_HI_VALUES
    ensures IdOf(t) == t.hi * 100 + t.lo <==> t.hi * 100 + t.lo < 0x8000_0000
    ensures IdOf(t) > 0 <==> t.hi * 100 + t.lo < 0x8000_0000
  {
  }

  // ----- what one provider holds, and its two atomic segments -----

  datatype Provider = Provider(hi: int, lo: int, initialized: bool)

  const FRESH_PROVIDER := Provider(0, 0, false)

  predicate NeedsRefill(p: Provider) {
    !p.initialized || p.lo >= MULTIPLIER
  }

  /** Takes the next lo value; Ticket(hi, lo) is the one issued. */
  function Bump(p: Provider): Provider {
    p.(lo := p.lo + 1)
  }

  /** A hi value arrived: start over at lo value 0 and take the next. */
  function Install(hi: int): Provider {
    Bump(Provider(hi, 0, true))
  }

  function Issued(p: Provider): Ticket {
    Ticket(p.hi, p.lo)
  }

  datatype AllocationError = IdGenerationFailed | StreamDeleted

  class TradeIdProvider {
    var hiValue: int
    var loValue: int
    var initialized: bool

    function State(): Provider
      reads this
    {
      Provider(hiValue, loValue, initialized)
    }

    constructor ()
      ensures State() == FRESH_PROVIDER
    {
      hiValue, loValue, initialized := 0, 0, false;
    }

    /** The segment before the first await: hands out an id unless a new hi value is needed. */
    method BeginNextId() returns (id: Option<int>)
      modifies this
      ensures NeedsRefill(old(State())) ==> id == None && State() == old(State())
      ensures !NeedsRefill(old(State())) ==> State() == Bump(old(State())) && id == Some(IdOf(Issued(State())))
    {
      if !initialized || loValue >= MULTIPLIER {
        return None;
      }
      loValue := loValue + 1;
      id := Some(Wrap32(Wrap32(hiValue * MULTIPLIER) + loValue));
    }

    /** The segment after the hi value arrived. Other calls may have changed the fields meanwhile. */
    method FinishNextId(hi: int) returns (id: int)
      modifies this
      ensures State() == Install(hi) && id == IdOf(Issued(State()))
    {
      hiValue := hi;
      loValue := 0;
      initialized := true;
      loValue := loValue + 1;
      id := Wrap32(Wrap32(hiValue * MULTIPLIER) + loValue);
    }
  }

  function CounterName(s: CounterState): StreamName {
    Counter
  }

  /** A counter that was never written starts as a new one. */
  method LoadCounter(store: EventStore) returns (r: Result<Aggregate<CounterState>, LoadError>)
    modifies store`log, store`upcoming
    ensures OnlyOthersWrote(old(store.log), old(store.upcoming), store.log, store.upcoming)
    ensures r.Err? ==> r.error == AggregateDeleted && Counter in store.deleted
    ensures r.Ok? ==>
              && fresh(r.value) && r.value.Valid() && r.value.pending == []
              && r.value.apply == ApplyCounter && r.value.identify == CounterName
              && r.value.base == EventsOf(store.log, Counter)
  {
    r := GetById(store, Counter, CounterState, ApplyCounter, CounterName);
    if r == Err(AggregateNotFound) {
      var counter := new Aggregate(CounterState, ApplyCounter, CounterName);
      r := Ok(counter);
    }
  }

  /** One attempt: load the counter, increment it, save it under the version check. */
  method GetHiValueFromEventStore(store: EventStore) returns (r: Result<Option<int>, LoadError>)
    modifies store`log, store`upcoming, store`writes
    ensures r.Err? ==> r.error == AggregateDeleted && Counter in store.deleted && store.writes == old(store.writes)
    ensures r.Ok? ==> store.writes == old(store.writes) + 1
    ensures r.Ok? && r.value.Some? ==>
              && OwnIncrementIsLast(old(store.log), old(store.upcoming), store.log, store.upcoming)
              && r.value.value == VersionOf(store.log, Counter)
    ensures r.Err? || r.value.None? ==> OnlyOthersWrote(old(store.log), old(store.upcoming), store.log, store.upcoming)
    ensures r == Ok(None) ==> VersionOf(store.log, Counter) > VersionOf(old(store.log), Counter)
  {
    var loaded := LoadCounter(store);
    if loaded.Err? {
      return Err(loaded.error);
    }
    var counter := loaded.value;
    StreamsGrow(old(store.log), store.log, Counter);
    ghost var atRead := store.log;
    counter.RaiseEvent(Incremented);
    var saved := SaveAsync(store, counter);
    match saved {
      case Ok(_) => r := Ok(Some(counter.version));
      case Err(_) =>
        StreamsGrow(atRead, store.log, Counter);
        assert VersionOf(store.log, Counter) != VersionOf(atRead, Counter);
        r := Ok(None);
    }
  }

  /** The last thing that happened is that this process's own increment landed. */
  ghost predicate OwnIncrementIsLast(log: Log, upcoming: seq<Log>, log': Log, upcoming': seq<Log>) {
    && |log'| > 0
    && log' == Front(log') + [Entry(Counter, Incremented)]
    && OnlyOthersWrote(log, upcoming, Front(log'), upcoming')
  }

  /** At most three attempts. It fails only if at least three events of other writers landed in the
      counter stream meanwhile; otherwise the hi value is the event number of its own increment. */
  method GetNextHiValue(store: EventStore) returns (r: Result<int, AllocationError>)
    modifies store`log, store`upcoming, store`writes
    ensures store.writes <= old(store.writes) + HI_VALUE_TRY_COUNT
    ensures r == Err(StreamDeleted) ==> Counter in store.deleted
    ensures r.Err? ==> OnlyOthersWrote(old(store.log), old(store.upcoming), store.log, store.upcoming)
    ensures r == Err(IdGenerationFailed) ==>
              && store.writes == old(store.writes) + HI_VALUE_TRY_COUNT
              && VersionOf(store.log, Counter) >= VersionOf(old(store.log), Counter) + HI_VALUE_TRY_COUNT
    ensures r.Ok? ==>
              && OwnIncrementIsLast(old(store.log), old(store.upcoming), store.log, store.upcoming)
              && r.value == VersionOf(store.log, Counter)
              && VersionOf(store.log, Counter) > VersionOf(old(store.log), Counter)
  {
    var triesLeft := HI_VALUE_TRY_COUNT;
    while triesLeft > 0
      invariant 0 <= triesLeft <= HI_VALUE_TRY_COUNT
      invariant OnlyOthersWrote(old(store.log), old(store.upcoming), store.log, store.upcoming)
      invariant store.writes == old(store.writes) + (HI_VALUE_TRY_COUNT - triesLeft)
      invariant VersionOf(store.log, Counter) >= VersionOf(old(store.log), Counter) + (HI_VALUE_TRY_COUNT - triesLeft)
    {
      ghost var l, u := store.log, store.upcoming;
      var attempt := GetHiValueFromEventStore(store);
      match attempt {
        case Err(_) => return Err(StreamDeleted);
        case Ok(Some(hi)) =>
          StreamsGrow(l, Front(store.log), Counter);
          EventsOfSnoc(Front(store.log), Entry(Counter, Incremented), Counter);
          return Ok(hi);
        case Ok(None) => triesLeft := triesLeft - 1;
      }
    }
    r := Err(IdGenerationFailed);
  }
}
