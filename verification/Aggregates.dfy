/** Event-sourced aggregates: state that changes only by applying events, with the events raised
    since the last save kept aside. */
module Aggregates {
  import opened Prelude
  import opened EventLog

  function Replay<S>(apply: (S, Event) -> S, initial: S, events: seq<Event>): S {
    if events == [] then initial else apply(Replay(apply, initial, Front(events)), Last(events))
  }

  lemma ReplaySnoc<S>(apply: (S, Event) -> S, initial: S, events: seq<Event>, e: Event)
    ensures Replay(apply, initial, events + [e]) == apply(Replay(apply, initial, events), e)
  {
  }

  class Aggregate<S(!new)> {
    const initial: S
    const apply: (S, Event) -> S
    const identify: S -> StreamName
    var state: S
    var version: int
    var pending: seq<Event>
    /** The stored events this copy was computed from. */
    ghost var base: seq<Event>

    ghost predicate Valid()
      reads this
    {
      && version == |base| + |pending| - 1
      && state == Replay(apply, initial, base + pending)
    }

    constructor (initial: S, apply: (S, Event) -> S, identify: S -> StreamName)
      ensures Valid() && base == [] && pending == [] && state == initial && version == -1
      ensures this.initial == initial && this.apply == apply && this.identify == identify
    {
      this.initial, this.apply, this.identify := initial, apply, identify;
      state, version, pending, base := initial, -1, [], [];
    }

    method ApplyEvent(e: Event)
      modifies this`state, this`version
      ensures state == apply(old(state), e) && version == old(version) + 1
    {
      state := apply(state, e);
      version := version + 1;
    }

    /** Applies an event read back from the store. */
    method ApplyStored(e: Event)
      requires Valid() && pending == []
      modifies this
      ensures Valid() && pending == [] && base == old(base) + [e]
    {
      ApplyEvent(e);
      ReplaySnoc(apply, initial, base, e);
      assert base + pending == base && (base + [e]) + pending == base + [e];
      base := base + [e];
    }

    /** The state may already show what the event is about to change. */
    method RaiseEvent(e: Event)
      requires version == |base| + |pending| - 1
      requires apply(state, e) == apply(Replay(apply, initial, base + pending), e)
      modifies this`state, this`version, this`pending
      ensures Valid() && pending == old(pending) + [e]
      ensures state == apply(old(state), e)
    {
      ApplyEvent(e);
      ReplaySnoc(apply, initial, base + pending, e);
      pending := pending + [e];
      assert base + pending == base + old(pending) + [e];
    }

    /** After a save the pending events are stored ones. */
    method ClearPendingEvents()
      requires Valid()
      modifies this`pending, this`base
      ensures Valid() && pending == [] && base == old(base) + old(pending)
    {
      base := base + pending;
      pending := [];
      assert base + pending == base;
    }
  }

  // ----- the counter that hi values are taken from -----

  datatype CounterState = CounterState

  function ApplyCounter(s: CounterState, e: Event): CounterState {
    s
  }

  // ----- a trade, on the write side -----

  datatype Status = Pending | Done | Rejected

  datatype TradeState = TradeState(id: int, terms: Option<Terms>, rejectReason: string, status: Status)

  const NEW_TRADE := TradeState(0, None, "", Pending)

  function ApplyTrade(s: TradeState, e: Event): TradeState {
    match e
    case TradeCreated(id, terms) => s.(id := id, terms := Some(terms), status := Pending)
    case TradeRejected(_, reason) => s.(rejectReason := reason, status := Rejected)
    case TradeCompleted(_) => s.(status := Done)
    case _ => s
  }

  // ----- a currency pair, on the write side -----

  datatype PairState = PairState(symbol: string, pipsPosition: int, ratePrecision: int, sampleRate: real,
                                 comment: string, isActive: bool, isCreated: bool)

  const NEW_PAIR := PairState("", 0, 0, 0.0, "", false, false)

  function ApplyPair(s: PairState, e: Event): PairState {
    match e
    case PairCreated(symbol, pips, rate, sample, comment) => PairState(symbol, pips, rate, sample, comment, s.isActive, true)
    case PairActivated(_) => s.(isActive := true)
    case PairDeactivated(_) => s.(isActive := false)
    case _ => s
  }

  function PairStreamOf(s: PairState): StreamName {
    PairStream(s.symbol)
  }

  datatype PairCommand =
    | Create(symbol: string, pipsPosition: int, ratePrecision: int, sampleRate: real, comment: string)
    | Activate
    | Deactivate

  /** The events a command raises on a pair in the given state: a command that would change nothing
      raises none. */
  function Decide(s: PairState, c: PairCommand): seq<Event> {
    match c
    case Create(symbol, pips, rate, sample, comment) =>
      if s.isCreated then [] else [PairCreated(symbol, pips, rate, sample, comment)]
    case Activate => if s.isActive || !s.isCreated then [] else [PairActivated(s.symbol)]
    case Deactivate => if !s.isActive || !s.isCreated then [] else [PairDeactivated(s.symbol)]
  }

  type CurrencyPair = Aggregate<PairState>

  method CreatePair(symbol: string, pips: int, rate: int, sample: real, comment: string) returns (pair: CurrencyPair)
    ensures fresh(pair) && pair.Valid() && pair.base == []
    ensures pair.initial == NEW_PAIR && pair.apply == ApplyPair && pair.identify == PairStreamOf
    ensures pair.pending == Decide(NEW_PAIR, Create(symbol, pips, rate, sample, comment))
    ensures pair.state == PairState(symbol, pips, rate, sample, comment, false, true)
  {
    pair := new Aggregate(NEW_PAIR, ApplyPair, PairStreamOf);
    if pair.state.isCreated {
      return;
    }
    pair.RaiseEvent(PairCreated(symbol, pips, rate, sample, comment));
  }

  method ActivatePair(pair: CurrencyPair)
    requires pair.Valid() && pair.apply == ApplyPair
    modifies pair`state, pair`version, pair`pending
    ensures pair.Valid()
    ensures pair.pending == old(pair.pending) + Decide(old(pair.state), Activate)
    ensures pair.state == if old(pair.state.isCreated) then old(pair.state).(isActive := true) else old(pair.state)
  {
    if pair.state.isActive || !pair.state.isCreated {
      return;
    }
    pair.RaiseEvent(PairActivated(pair.state.symbol));
  }

  /** Clears the flag by hand before it raises the event, which clears it again. */
  method DeactivatePair(pair: CurrencyPair)
    requires pair.Valid() && pair.apply == ApplyPair
    modifies pair`state, pair`version, pair`pending
    ensures pair.Valid()
    ensures pair.pending == old(pair.pending) + Decide(old(pair.state), Deactivate)
    ensures pair.state == if old(pair.state.isCreated) then old(pair.state).(isActive := false) else old(pair.state)
  {
    if !pair.state.isActive || !pair.state.isCreated {
      return;
    }
    pair.state := pair.state.(isActive := false);
    pair.RaiseEvent(PairDeactivated(pair.state.symbol));
  }

  // ----- lifecycles -----

  /** A trade's stream: nothing yet, created, or created and then settled once. */
  predicate TradeLifecycle(events: seq<Event>, id: int) {
    || events == []
    || (events[0].TradeCreated? && events[0].id == id && (
          || |events| == 1
          || (|events| == 2 && (events[1] == TradeCompleted(id) || (events[1].TradeRejected? && events[1].id == id)))))
  }

  /** A pair's stream: created once, then activated and deactivated in turn. */
  predicate PairLifecycle(events: seq<Event>, symbol: string) {
    forall i :: 0 <= i < |events| ==>
                  if i == 0 then events[i].PairCreated? && events[i].symbol == symbol
                  else events[i] == if i % 2 == 1 then PairActivated(symbol) else PairDeactivated(symbol)
  }

  /** A pair's state is decided by the length of its stream. */
  lemma {:induction false} PairStateOf(events: seq<Event>, symbol: string)
    requires PairLifecycle(events, symbol)
    ensures var s := Replay(ApplyPair, NEW_PAIR, events);
            && (s.isCreated <==> events != [])
            && (events != [] ==> s.symbol == symbol)
            && (s.isActive <==> |events| > 0 && |events| % 2 == 0)
  {
    if events != [] {
      PairStateOf(Front(events), symbol);
      var prior := Replay(ApplyPair, NEW_PAIR, Front(events));
      assert events[|events| - 1] == Last(events);
    }
  }

  /** Whatever a command raises on the state its whole stream gives keeps the stream a lifecycle. */
  lemma DecideKeepsLifecycle(events: seq<Event>, symbol: string, c: PairCommand)
    requires PairLifecycle(events, symbol)
    requires c.Create? ==> c.symbol == symbol
    ensures PairLifecycle(events + Decide(Replay(ApplyPair, NEW_PAIR, events), c), symbol)
  {
    PairStateOf(events, symbol);
  }
}
