/** One trade execution: the save of the creation, the delay, and the save of the outcome, with any
    interference of other writers at the awaits. */
module Execution {
  import opened Prelude
  import opened EventLog
  import opened Store
  import opened Aggregates
  import opened Repository

  // ----- one engine on its own -----

  const REJECTED_PAIR := "GBPJPY"

  /** What the engine decides after the delay. */
  function Outcome(id: int, terms: Terms): Event {
    if terms.pair == REJECTED_PAIR then TradeRejected(id, "Execution engine rejected trade") else TradeCompleted(id)
  }

  function TradeStreamOf(s: TradeState): StreamName {
    TradeStream(s.id)
  }

  /** Events that landed in a stream which began with `first` and was as long as that when they did. */
  lemma LandedOnto(l: Log, before: Log, s: StreamName, first: seq<Event>, events: seq<Event>)
    requires l <= before && first <= EventsOf(l, s)
    requires VersionOf(before, s) == |first| - 1
    ensures EventsOf(before + Tag(s, events), s) == first + events
  {
    StreamsGrow(l, before, s);
    assert |EventsOf(before, s)| == |first|;
    assert EventsOf(before, s) == first;
    EventsOfConcat(before, Tag(s, events), s);
    EventsOfTag(s, events, s);
  }

  type TradeAggregate = Aggregate<TradeState>

  /** The trade's constructor and its first save. */
  method CreateTrade(store: EventStore, id: int, terms: Terms) returns (trade: TradeAggregate, r: Result<int, SaveError>)
    modifies store`log, store`upcoming, store`writes
    ensures fresh(trade) && trade.Valid() && trade.apply == ApplyTrade && trade.identify == TradeStreamOf
    ensures trade.state == TradeState(id, Some(terms), "", Pending)
    ensures old(store.log) <= store.log
    ensures r.Ok? ==>
              && trade.pending == [] && |trade.base| == 1
              && EventsOf(store.log, TradeStream(id)) == [TradeCreated(id, terms)]
    ensures r.Err? ==>
              && OnlyOthersWrote(old(store.log), old(store.upcoming), store.log, store.upcoming)
              && EventsOf(store.log, TradeStream(id)) != []
  {
    trade := new Aggregate(NEW_TRADE, ApplyTrade, TradeStreamOf);
    trade.RaiseEvent(TradeCreated(id, terms));
    assert trade.pending == [TradeCreated(id, terms)] && trade.identify(trade.state) == TradeStream(id);
    r := SaveAsync(store, trade);
    if r.Ok? {
      LandedOnto(old(store.log), Front(store.log), TradeStream(id), [], [TradeCreated(id, terms)]);
    }
  }

  /** The stream starts with this event, and something else came after it. */
  predicate OvertakenAfter(events: seq<Event>, first: Event) {
    |events| >= 2 && events[0] == first
  }

  /** The delay, in which others write, and then the second save. */
  method DelayedSettle(store: EventStore, trade: TradeAggregate, id: int, terms: Terms) returns (r: Result<int, SaveError>)
    requires trade.Valid() && trade.apply == ApplyTrade && trade.identify == TradeStreamOf
    requires trade.state == TradeState(id, Some(terms), "", Pending) && trade.pending == [] && |trade.base| == 1
    requires EventsOf(store.log, TradeStream(id)) == [TradeCreated(id, terms)]
    modifies store`log, store`upcoming, store`writes, trade
    ensures old(store.log) <= store.log
    ensures trade.state.status == if terms.pair == REJECTED_PAIR then Rejected else Done
    ensures r.Ok? ==> EventsOf(store.log, TradeStream(id)) == [TradeCreated(id, terms), Outcome(id, terms)]
    ensures r.Err? ==> OvertakenAfter(EventsOf(store.log, TradeStream(id)), TradeCreated(id, terms))
  {
    ghost var first := TradeCreated(id, terms);
    store.Await();
    trade.RaiseEvent(Outcome(id, terms));
    r := SaveAsync(store, trade);
    if r.Ok? {
      LandedOnto(old(store.log), Front(store.log), TradeStream(id), [first], [Outcome(id, terms)]);
    } else {
      Overtaken(old(store.log), store.log, TradeStream(id), first);
    }
  }

  lemma Overtaken(l: Log, log: Log, s: StreamName, first: Event)
    requires l <= log && EventsOf(l, s) == [first] && VersionOf(log, s) != 0
    ensures OvertakenAfter(EventsOf(log, s), first)
  {
    StreamsGrow(l, log, s);
  }

  /** The two-phase save of one trade. A result means the trade's stream is exactly the creation
      followed by the outcome. A conflict at the creation means that others had written the stream and
      this call wrote nothing; one at the settlement, that others wrote after its creation. */
  method ExecuteTrade(store: EventStore, id: int, terms: Terms) returns (created: bool, r: Result<Status, SaveError>)
    modifies store`log, store`upcoming, store`writes
    ensures old(store.log) <= store.log
    ensures r.Ok? ==>
              && created
              && EventsOf(store.log, TradeStream(id)) == [TradeCreated(id, terms), Outcome(id, terms)]
              && r.value == if terms.pair == REJECTED_PAIR then Rejected else Done
    ensures !created ==>
              && OnlyOthersWrote(old(store.log), old(store.upcoming), store.log, store.upcoming)
              && EventsOf(store.log, TradeStream(id)) != []
    ensures created && r.Err? ==> OvertakenAfter(EventsOf(store.log, TradeStream(id)), TradeCreated(id, terms))
  {
    var trade, first := CreateTrade(store, id, terms);
    if first.Err? {
      return false, Err(first.error);
    }
    created := true;
    var settled := DelayedSettle(store, trade, id, terms);
    if settled.Err? {
      return true, Err(settled.error);
    }
    r := Ok(trade.state.status);
  }
}
