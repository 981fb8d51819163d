/** The store as one process uses it. Every call to it is awaited, and while a process waits the
    other clients of the store go on appending. `upcoming` foretells what they will append during
    the coming awaits, so a statement about any `upcoming` is one about any interference. */
module Store {
  import opened Prelude
  import opened EventLog

  datatype Slice = NotFound | Deleted | Page(events: seq<Event>, next: nat, isEndOfStream: bool)

  function Flatten(parts: seq<Log>): Log {
    if parts == [] then [] else parts[0] + Flatten(parts[1..])
  }

  /** Between the two moments only other clients wrote, and only what was foretold. */
  ghost predicate OnlyOthersWrote(log: Log, upcoming: seq<Log>, log': Log, upcoming': seq<Log>) {
    && log <= log'
    && |upcoming'| <= |upcoming|
    && log' + Flatten(upcoming') == log + Flatten(upcoming)
  }

  class EventStore {
    var log: Log
    var upcoming: seq<Log>
    var deleted: set<StreamName>
    /** How many writes this process has asked for. */
    var writes: nat

    constructor (log: Log, upcoming: seq<Log>, deleted: set<StreamName>)
      ensures this.log == log && this.upcoming == upcoming && this.deleted == deleted && writes == 0
    {
      this.log, this.upcoming, this.deleted, writes := log, upcoming, deleted, 0;
    }

    /** Time passes: the next foretold batch of the others lands. */
    method Await()
      modifies this`log, this`upcoming
      ensures OnlyOthersWrote(old(log), old(upcoming), log, upcoming)
    {
      if upcoming != [] {
        ghost var l, u := log, upcoming;
        log, upcoming := log + upcoming[0], upcoming[1..];
        assert log + Flatten(upcoming) == l + (u[0] + Flatten(u[1..]));
      }
    }

    method ReadForward(s: StreamName, from: nat, count: nat) returns (slice: Slice)
      requires count > 0
      modifies this`log, this`upcoming
      ensures OnlyOthersWrote(old(log), old(upcoming), log, upcoming)
      ensures slice.Deleted? <==> s in deleted
      ensures slice.NotFound? <==> s !in deleted && EventsOf(log, s) == []
      ensures slice.Page? ==>
                var all := EventsOf(log, s);
                && (from <= |all| ==>
                      && from <= slice.next == Min(|all|, from + count)
                      && slice.events == all[from..slice.next])
                && (slice.isEndOfStream <==> from + count >= |all|)
    {
      Await();
      if s in deleted {
        return Deleted;
      }
      var all := EventsOf(log, s);
      if all == [] {
        return NotFound;
      }
      if from <= |all| {
        var next := Min(|all|, from + count);
        slice := Page(all[from..next], next, next == |all|);
      } else {
        slice := Page([], from, true);
      }
    }

    /** None stands for WrongExpectedVersionException; otherwise the new last event number. */
    method AppendToStream(s: StreamName, expected: int, events: seq<Event>) returns (next: Option<int>)
      modifies this`log, this`upcoming, this`writes
      ensures writes == old(writes) + 1
      ensures next.None? ==>
                && OnlyOthersWrote(old(log), old(upcoming), log, upcoming)
                && VersionOf(log, s) != expected
      ensures next.Some? ==>
                && Landed(old(log), old(upcoming), log, upcoming, s, expected, events)
                && next.value == VersionOf(log, s)
    {
      Await();
      ghost var before := log;
      writes := writes + 1;
      match Append(log, s, expected, events) {
        case None => next := None;
        case Some(log') =>
          AppendExtendsOneStream(log, s, expected, events, s);
          log := log';
          next := Some(VersionOf(log, s));
          assert log[..|log| - |events|] == before;
      }
    }
  }

  /** The others wrote, and then `events` landed at once in stream s, right after `expected`. */
  ghost predicate Landed(log: Log, upcoming: seq<Log>, log': Log, upcoming': seq<Log>,
                         s: StreamName, expected: int, events: seq<Event>)
  {
    && |events| <= |log'|
    && var before := log'[..|log'| - |events|];
    && OnlyOthersWrote(log, upcoming, before, upcoming')
    && VersionOf(before, s) == expected
    && log' == before + Tag(s, events)
  }

  /** A transaction collects events and commits them in one append, under the version check. */
  class Transaction {
    const store: EventStore
    const stream: StreamName
    const expected: int
    var buffer: seq<Event>

    constructor (store: EventStore, stream: StreamName, expected: int)
      ensures this.store == store && this.stream == stream && this.expected == expected && buffer == []
    {
      this.store, this.stream, this.expected, buffer := store, stream, expected, [];
    }

    method Write(events: seq<Event>)
      modifies this, store`log, store`upcoming
      ensures buffer == old(buffer) + events
      ensures OnlyOthersWrote(old(store.log), old(store.upcoming), store.log, store.upcoming)
    {
      store.Await();
      buffer := buffer + events;
    }

    method Commit() returns (next: Option<int>)
      modifies store`log, store`upcoming, store`writes
      ensures store.writes == old(store.writes) + 1
      ensures next.None? ==>
                && OnlyOthersWrote(old(store.log), old(store.upcoming), store.log, store.upcoming)
                && VersionOf(store.log, stream) != expected
      ensures next.Some? ==>
                && Landed(old(store.log), old(store.upcoming), store.log, store.upcoming, stream, expected, buffer)
                && next.value == VersionOf(store.log, stream)
    {
      next := store.AppendToStream(stream, expected, buffer);
    }
  }
}
