/** The Event Store as the services see it: one append-only log of entries, each belonging to a
    stream. A stream's events are numbered from 0; the stream does not exist while it is empty. */
module EventLog {
  import opened Prelude

  datatype StreamName = Counter | TradeStream(id: int) | PairStream(symbol: string)

  datatype Direction = Buy | Sell

  /** What the client asked for, with the dates the engine filled in. */
  datatype Terms = Terms(trader: string, pair: string, spotRate: real, tradeDate: int, valueDate: int,
                         direction: Direction, notional: real, dealtCurrency: string)

  datatype Event =
    | Incremented
    | TradeCreated(id: int, terms: Terms)
    | TradeCompleted(id: int)
    | TradeRejected(id: int, reason: string)
    | PairCreated(symbol: string, pipsPosition: int, ratePrecision: int, sampleRate: real, comment: string)
    | PairActivated(symbol: string)
    | PairDeactivated(symbol: string)
    | PairChanged(symbol: string)

  datatype Entry = Entry(stream: StreamName, event: Event)

  type Log = seq<Entry>

  /** The events of one stream, in order. */
  function EventsOf(log: Log, s: StreamName): seq<Event> {
    if log == [] then []
    else EventsOf(Front(log), s) + if Last(log).stream == s then [Last(log).event] else []
  }

  /** The number of the stream's last event: -1 when the stream does not exist. */
  function VersionOf(log: Log, s: StreamName): int {
    |EventsOf(log, s)| - 1
  }

  function Tag(s: StreamName, events: seq<Event>): Log {
    seq(|events|, i requires 0 <= i < |events| => Entry(s, events[i]))
  }

  /** Optimistic concurrency: the write is atomic and happens only at the expected version. */
  function Append(log: Log, s: StreamName, expected: int, events: seq<Event>): Option<Log> {
    if VersionOf(log, s) == expected then Some(log + Tag(s, events)) else None
  }

  lemma EventsOfSnoc(log: Log, e: Entry, s: StreamName)
    ensures EventsOf(log + [e], s) == EventsOf(log, s) + if e.stream == s then [e.event] else []
  {
  }

  lemma {:induction false} EventsOfConcat(a: Log, b: Log, s: StreamName)
    ensures EventsOf(a + b, s) == EventsOf(a, s) + EventsOf(b, s)
  {
    if b == [] {
      assert a + b == a;
    } else {
      EventsOfConcat(a, Front(b), s);
      assert a + b == (a + Front(b)) + [Last(b)];
      EventsOfSnoc(a + Front(b), Last(b), s);
    }
  }

  lemma {:induction false} EventsOfTag(s: StreamName, events: seq<Event>, t: StreamName)
    ensures EventsOf(Tag(s, events), t) == if s == t then events else []
  {
    if events != [] {
      EventsOfTag(s, Front(events), t);
      assert Tag(s, events) == Tag(s, Front(events)) + [Entry(s, Last(events))];
      EventsOfSnoc(Tag(s, Front(events)), Entry(s, Last(events)), t);
    }
  }

  /** An earlier state of the log shows a prefix of every stream. */
  lemma EventsOfPrefix(log: Log, n: nat, s: StreamName)
    requires n <= |log|
    ensures EventsOf(log[..n], s) <= EventsOf(log, s)
  {
    EventsOfConcat(log[..n], log[n..], s);
    assert log[..n] + log[n..] == log;
  }

  /** A successful write adds the events to its own stream, right after the expected version, and
      changes no other stream. */
  lemma AppendExtendsOneStream(log: Log, s: StreamName, expected: int, events: seq<Event>, t: StreamName)
    requires Append(log, s, expected, events).Some?
    ensures var log' := Append(log, s, expected, events).value;
            && log <= log'
            && EventsOf(log', t) == EventsOf(log, t) + (if s == t then events else [])
            && VersionOf(log', s) == expected + |events|
  {
    var log' := log + Tag(s, events);
    EventsOfConcat(log, Tag(s, events), t);
    EventsOfConcat(log, Tag(s, events), s);
    EventsOfTag(s, events, t);
    EventsOfTag(s, events, s);
  }

  /** Of two writes that expect the same version at most one lands. */
  lemma SameBaseOneWinner(log: Log, s: StreamName, expected: int, first: seq<Event>, others: Log, second: seq<Event>)
    requires first != []
    requires Append(log, s, expected, first).Some?
    ensures Append(Append(log, s, expected, first).value + others, s, expected, second).None?
  {
    AppendExtendsOneStream(log, s, expected, first, s);
    EventsOfConcat(Append(log, s, expected, first).value, others, s);
  }
}
