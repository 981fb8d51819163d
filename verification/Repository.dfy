/** Loading and saving aggregates: the paged read, and the save as one append or as one transaction
    of 500-event batches. */
module Repository {
  import opened Prelude
  import opened EventLog
  import opened Store
  import opened Aggregates

  const WRITE_PAGE_SIZE := 500
  const READ_PAGE_SIZE := 500

  // ----- batching over one shared enumerator -----

  class Enumerator<T> {
    const source: seq<T>
    /** How many elements have been moved past, the current one included. */
    var taken: nat

    constructor (source: seq<T>)
      ensures this.source == source && taken == 0
    {
      this.source, taken := source, 0;
    }

    method MoveNext() returns (moved: bool)
      requires taken <= |source|
      modifies this
      ensures moved <==> old(taken) < |source|
      ensures taken == old(taken) + if moved then 1 else 0
    {
      moved := taken < |source|;
      if moved {
        taken := taken + 1;
      }
    }

    function Current(): T
      requires 0 < taken <= |source|
      reads this
    {
      source[taken - 1]
    }
  }

  /** Yields the current element and then up to `more` further ones. */
  method YieldBatchElements<T>(source: Enumerator<T>, more: nat) returns (batch: seq<T>)
    requires 0 < source.taken <= |source.source|
    modifies source
    ensures source.taken == Min(|source.source|, old(source.taken) + more)
    ensures batch == source.source[old(source.taken) - 1..source.taken]
  {
    batch := [source.Current()];
    var i := 0;
    while i < more
      invariant 0 <= i <= more
      invariant source.taken == old(source.taken) + i <= |source.source|
      invariant batch == source.source[old(source.taken) - 1..source.taken]
      decreases more - i
    {
      var moved := source.MoveNext();
      if !moved {
        return;
      }
      batch := batch + [source.Current()];
      i := i + 1;
    }
  }

  function Concat<T>(parts: seq<seq<T>>): seq<T> {
    if parts == [] then [] else Concat(Front(parts)) + Last(parts)
  }

  /** Every batch is full except that the last may be shorter; none is empty. */
  predicate FullBatches<T>(batches: seq<seq<T>>, size: nat) {
    forall i :: 0 <= i < |batches| ==>
                  0 < |batches[i]| <= size && (i < |batches| - 1 ==> |batches[i]| == size)
  }

  /** The batches split the events in order; each is read out before the next is asked for. */
  method Batch<T>(events: seq<T>, size: nat) returns (batches: seq<seq<T>>)
    requires size > 0
    ensures Concat(batches) == events
    ensures FullBatches(batches, size)
    ensures |batches| == 1 <==> 0 < |events| <= size
    ensures |batches| == 1 ==> batches[0] == events
  {
    var enumerator := new Enumerator(events);
    batches := [];
    var moved := enumerator.MoveNext();
    while moved
      invariant 0 <= enumerator.taken <= |events|
      invariant enumerator.source == events
      invariant moved ==> enumerator.taken > 0
      invariant !moved ==> enumerator.taken == |events|
      invariant Concat(batches) == events[..if moved then enumerator.taken - 1 else |events|]
      invariant FullBatches(batches, size)
      invariant moved ==> forall i :: 0 <= i < |batches| ==> |batches[i]| == size
      invariant |batches| == 0 ==> Concat(batches) == []
      invariant |batches| == 1 ==> batches[0] == Concat(batches)
      invariant |batches| > 1 ==> |Concat(batches)| > size
      decreases |events| - enumerator.taken, moved
    {
      ghost var start := enumerator.taken - 1;
      var batch := YieldBatchElements(enumerator, size - 1);
      ghost var stop := enumerator.taken;
      assert Concat(batches + [batch]) == Concat(batches) + batch by {
        assert Front(batches + [batch]) == batches;
      }
      assert events[..start] + events[start..stop] == events[..stop];
      batches := batches + [batch];
      moved := enumerator.MoveNext();
    }
    assert events[..|events|] == events;
  }

  // ----- loading -----

  datatype LoadError = AggregateNotFound | AggregateDeleted

  method ApplyPage<S(!new)>(aggregate: Aggregate<S>, events: seq<Event>)
    requires aggregate.Valid() && aggregate.pending == []
    modifies aggregate
    ensures aggregate.Valid() && aggregate.pending == [] && aggregate.base == old(aggregate.base) + events
  {
    var i := 0;
    while i < |events|
      invariant 0 <= i <= |events|
      invariant aggregate.Valid() && aggregate.pending == []
      invariant aggregate.base == old(aggregate.base) + events[..i]
    {
      aggregate.ApplyStored(events[i]);
      i := i + 1;
    }
    assert events[..|events|] == events;
  }

  /** Applies one more page to a copy that has the stream's first events. */
  method ReadPage<S(!new)>(store: EventStore, stream: StreamName, aggregate: Aggregate<S>, eventNumber: nat)
    returns (slice: Slice)
    requires aggregate.Valid() && aggregate.pending == []
    requires aggregate.base <= EventsOf(store.log, stream) && |aggregate.base| == eventNumber
    modifies store`log, store`upcoming, aggregate
    ensures OnlyOthersWrote(old(store.log), old(store.upcoming), store.log, store.upcoming)
    ensures aggregate.Valid() && aggregate.pending == []
    ensures slice.Deleted? <==> stream in store.deleted
    ensures slice.NotFound? <==> stream !in store.deleted && EventsOf(store.log, stream) == []
    ensures slice.Page? ==>
              && aggregate.base <= EventsOf(store.log, stream)
              && |aggregate.base| == slice.next
              && (slice.isEndOfStream <==> slice.next == |EventsOf(store.log, stream)|)
              && (!slice.isEndOfStream ==> slice.next > eventNumber)
  {
    ghost var log, base := store.log, aggregate.base;
    slice := store.ReadForward(stream, eventNumber, READ_PAGE_SIZE);
    StreamsGrow(log, store.log, stream);
    if slice.Page? {
      ghost var all := EventsOf(store.log, stream);
      assert base == all[..|base|];
      ApplyPage(aggregate, slice.events);
      assert all[..|base|] + all[|base|..slice.next] == all[..slice.next];
    }
  }

  /** Reads the stream page by page while others may append between the pages. The copy it returns is
      computed from the whole stream as it is at that moment. */
  method GetById<S(!new)>(store: EventStore, stream: StreamName,
                          initial: S, apply: (S, Event) -> S, identify: S -> StreamName)
    returns (r: Result<Aggregate<S>, LoadError>)
    modifies store`log, store`upcoming
    ensures OnlyOthersWrote(old(store.log), old(store.upcoming), store.log, store.upcoming)
    ensures r.Ok? ==>
              && fresh(r.value) && r.value.Valid() && r.value.pending == []
              && r.value.initial == initial && r.value.apply == apply && r.value.identify == identify
              && r.value.base == EventsOf(store.log, stream)
    ensures r.Ok? <==> stream !in store.deleted && EventsOf(store.log, stream) != []
    ensures r.Err? ==> r.error == if stream in store.deleted then AggregateDeleted else AggregateNotFound
  {
    var aggregate := new Aggregate(initial, apply, identify);
    var eventNumber := 0;
    var atEnd := false;
    ghost var eventually := store.log + Flatten(store.upcoming);
    while !atEnd
      invariant OnlyOthersWrote(old(store.log), old(store.upcoming), store.log, store.upcoming)
      invariant fresh(aggregate) && aggregate.Valid() && aggregate.pending == []
      invariant aggregate.base <= EventsOf(store.log, stream) && |aggregate.base| == eventNumber
      invariant eventNumber > 0 ==> stream !in store.deleted
      invariant atEnd ==> eventNumber == |EventsOf(store.log, stream)| && eventNumber > 0
      decreases !atEnd, |EventsOf(eventually, stream)| - eventNumber
    {
      var slice := ReadPage(store, stream, aggregate, eventNumber);
      StreamsGrow(store.log, eventually, stream);
      match slice {
        case NotFound => return Err(AggregateNotFound);
        case Deleted => return Err(AggregateDeleted);
        case Page(_, next, isEndOfStream) =>
          eventNumber := next;
          atEnd := isEndOfStream;
      }
    }
    r := Ok(aggregate);
  }

  lemma StreamsGrow(log: Log, log': Log, s: StreamName)
    requires log <= log'
    ensures EventsOf(log, s) <= EventsOf(log', s)
  {
    EventsOfPrefix(log', |log|, s);
    assert log'[..|log|] == log;
  }

  // ----- saving -----

  datatype SaveError = WrongExpectedVersion

  /** More events than fit one write go into a transaction. */
  method CommitBatches(store: EventStore, stream: StreamName, originalVersion: int, batches: seq<seq<Event>>)
    returns (next: Option<int>)
    modifies store`log, store`upcoming, store`writes
    ensures store.writes == old(store.writes) + 1
    ensures next.None? ==>
              && OnlyOthersWrote(old(store.log), old(store.upcoming), store.log, store.upcoming)
              && VersionOf(store.log, stream) != originalVersion
    ensures next.Some? ==>
              && Landed(old(store.log), old(store.upcoming), store.log, store.upcoming,
                        stream, originalVersion, Concat(batches))
              && next.value == VersionOf(store.log, stream)
  {
    store.Await();
    var transaction := new Transaction(store, stream, originalVersion);
    var i := 0;
    while i < |batches|
      invariant 0 <= i <= |batches|
      invariant transaction.buffer == Concat(batches[..i])
      invariant OnlyOthersWrote(old(store.log), old(store.upcoming), store.log, store.upcoming)
      invariant store.writes == old(store.writes)
    {
      transaction.Write(batches[i]);
      assert Front(batches[..i + 1]) == batches[..i];
      i := i + 1;
    }
    assert batches[..|batches|] == batches;
    next := transaction.Commit();
  }

  /** One batch goes straight to the store, more go through a transaction. */
  method WriteEvents(store: EventStore, stream: StreamName, originalVersion: int, events: seq<Event>) returns (next: Option<int>)
    modifies store`log, store`upcoming, store`writes
    ensures store.writes == old(store.writes) + 1
    ensures next.None? ==>
              && OnlyOthersWrote(old(store.log), old(store.upcoming), store.log, store.upcoming)
              && VersionOf(store.log, stream) != originalVersion
    ensures next.Some? ==>
              && Landed(old(store.log), old(store.upcoming), store.log, store.upcoming, stream, originalVersion, events)
              && next.value == VersionOf(store.log, stream)
  {
    var batches := Batch(events, WRITE_PAGE_SIZE);
    if |batches| == 1 {
      next := store.AppendToStream(stream, originalVersion, batches[0]);
    } else {
      next := CommitBatches(store, stream, originalVersion, batches);
    }
  }

  /** Saves the pending events in the stream the aggregate names: all of them at once, in order, right
      after the event the copy was computed from, or none of them. */
  method SaveAsync<S(!new)>(store: EventStore, aggregate: Aggregate<S>) returns (r: Result<int, SaveError>)
    requires aggregate.Valid() && aggregate.pending != []
    modifies store`log, store`upcoming, store`writes, aggregate`pending, aggregate`base
    ensures aggregate.Valid()
    ensures store.writes == old(store.writes) + 1
    ensures r.Ok? ==>
              && Landed(old(store.log), old(store.upcoming), store.log, store.upcoming,
                        aggregate.identify(aggregate.state), |old(aggregate.base)| - 1, old(aggregate.pending))
              && r.value == VersionOf(store.log, aggregate.identify(aggregate.state)) == aggregate.version
              && aggregate.pending == [] && aggregate.base == old(aggregate.base) + old(aggregate.pending)
    ensures r.Err? ==>
              && OnlyOthersWrote(old(store.log), old(store.upcoming), store.log, store.upcoming)
              && VersionOf(store.log, aggregate.identify(aggregate.state)) != |old(aggregate.base)| - 1
              && aggregate.pending == old(aggregate.pending) && aggregate.base == old(aggregate.base)
  {
    var stream := aggregate.identify(aggregate.state);
    var originalVersion := aggregate.version - |aggregate.pending|;
    var next := WriteEvents(store, stream, originalVersion, aggregate.pending);
    if next.None? {
      return Err(WrongExpectedVersion);
    }
    SavedVersion(store.log, stream, originalVersion, aggregate.pending);
    aggregate.ClearPendingEvents();
    r := Ok(next.value);
  }

  lemma SavedVersion(log: Log, s: StreamName, expected: int, events: seq<Event>)
    requires |events| <= |log|
    requires var before := log[..|log| - |events|]; VersionOf(before, s) == expected && log == before + Tag(s, events)
    ensures VersionOf(log, s) == expected + |events|
  {
    AppendExtendsOneStream(log[..|log| - |events|], s, expected, events, s);
  }

  /** Save, then load: while nobody else writes the stream, the loaded copy has the state and the
      version of the saved one. */
  method SaveThenLoad<S(!new)>(store: EventStore, aggregate: Aggregate<S>)
    returns (saved: bool, loaded: Result<Aggregate<S>, LoadError>)
    requires aggregate.Valid() && aggregate.pending != []
    requires var stream := aggregate.identify(aggregate.state);
             && stream !in store.deleted
             && aggregate.base == EventsOf(store.log, stream)
             && forall e :: e in Flatten(store.upcoming) ==> e.stream != stream
    modifies store`log, store`upcoming, store`writes, aggregate`pending, aggregate`base
    ensures saved && loaded.Ok?
    ensures loaded.value.state == aggregate.state == old(aggregate.state)
    ensures loaded.value.version == aggregate.version == old(aggregate.version)
  {
    var stream := aggregate.identify(aggregate.state);
    ghost var l0, u0 := store.log, store.upcoming;
    var r := SaveAsync(store, aggregate);
    ghost var events := old(aggregate.pending);
    if r.Err? {
      ForeignWritesOnly(l0, u0, store.log, store.upcoming, stream);
      assert false;
    }
    OwnStreamAfterSave(l0, u0, store.log, store.upcoming, stream, old(aggregate.base), events);
    ghost var l1, u1 := store.log, store.upcoming;
    loaded := GetById(store, stream, aggregate.initial, aggregate.apply, aggregate.identify);
    ForeignWritesOnly(l1, u1, store.log, store.upcoming, stream);
    saved := true;
    assert aggregate.base + aggregate.pending == aggregate.base;
    assert loaded.value.base + loaded.value.pending == loaded.value.base;
  }

  lemma {:induction false} OwnStreamAfterSave(l: Log, u: seq<Log>, l': Log, u': seq<Log>, s: StreamName, base: seq<Event>, events: seq<Event>)
    requires Landed(l, u, l', u', s, |base| - 1, events) && EventsOf(l, s) == base
    requires forall e :: e in Flatten(u) ==> e.stream != s
    ensures EventsOf(l', s) == base + events
    ensures forall e :: e in Flatten(u') ==> e.stream != s
  {
    var before := l'[..|l'| - |events|];
    ForeignWritesOnly(l, u, before, u', s);
    AppendExtendsOneStream(before, s, |base| - 1, events, s);
  }

  /** Writes of others to other streams leave this stream alone. */
  lemma {:induction false} ForeignWritesOnly(l: Log, u: seq<Log>, l': Log, u': seq<Log>, s: StreamName)
    requires OnlyOthersWrote(l, u, l', u')
    requires forall e :: e in Flatten(u) ==> e.stream != s
    ensures EventsOf(l', s) == EventsOf(l, s)
    ensures forall e :: e in Flatten(u') ==> e.stream != s
  {
    var more := l'[|l|..];
    assert l' == l + more;
    assert l + (more + Flatten(u')) == l + Flatten(u);
    assert more + Flatten(u') == Flatten(u) by {
      assert (l + (more + Flatten(u')))[|l|..] == more + Flatten(u');
      assert (l + Flatten(u))[|l|..] == Flatten(u);
    }
    assert forall e :: e in more ==> e in more + Flatten(u');
    assert forall e :: e in Flatten(u') ==> e in more + Flatten(u');
    EventsOfConcat(l, more, s);
    NoEventsOf(more, s);
  }

  lemma {:induction false} NoEventsOf(log: Log, s: StreamName)
    requires forall e :: e in log ==> e.stream != s
    ensures EventsOf(log, s) == []
  {
    if log != [] {
      assert Last(log) in log;
      NoEventsOf(Front(log), s);
    }
  }
}
