/** What the analytics report after every input, by arithmetic on the trades and the quotes. */
module Positions {
  import opened Prelude
  import opened EventLog
  import opened Aggregates
  import opened TradeCache
  import opened Analytics

  /** What the completed trades of a pair since the last reset bought less what they sold. */
  function BaseOf(inputs: seq<Input>, pair: string): real {
    NotionalOf(TradesIn(inputs), pair, Buy) - NotionalOf(TradesIn(inputs), pair, Sell)
  }

  function CounterOf(inputs: seq<Input>, pair: string): real {
    ValueOf(TradesIn(inputs), pair, Buy) - ValueOf(TradesIn(inputs), pair, Sell)
  }

  predicate Dollar(pair: string) {
    |pair| >= 3 && pair[0] == 'U' && pair[1] == 'S' && pair[2] == 'D'
  }

  /** A price of its own, and one of its base currency in dollars where that is another currency. */
  predicate HasPrices(pair: string, prices: Prices)
    requires |pair| >= 3
  {
    pair in prices && (Dollar(pair) || pair[..3] + "USD" in prices)
  }

  /** A completed trade of the pair, or a price of it, that finds the prices it needs. */
  predicate Reports(inputs: seq<Input>, pair: string)
    requires inputs != []
  {
    && |pair| >= 3 && HasPrices(pair, PricesAfter(inputs))
    && if Last(inputs).TradeIn? then Last(inputs).trade.terms.pair == pair && Last(inputs).trade.status == Done
       else Last(inputs).PriceIn? && Last(inputs).symbol == pair
  }

  /** The bid for who holds the base currency, the ask for who owes it. */
  function ClosingPrice(base: real, p: Price): real {
    if base >= 0.0 then p.bid else p.ask
  }

  /** Closing at this price leaves nothing of the counter currency: what is left of the base currency is the
      profit. */
  predicate Closes(p: Position, base: real, counter: real, s: real) {
    s != 0.0 && (base - p.basePnl) * s == counter
  }

  predicate IsReport(p: Position, pair: string, base: real, counter: real, prices: Prices, wasTraded: bool)
    requires |pair| >= 3 && HasPrices(pair, prices)
  {
    && p.symbol == pair && p.baseTradedAmount == base && p.wasTraded == wasTraded
    && Closes(p, base, counter, ClosingPrice(base, prices[pair]))
    && p.usdPnl == if Dollar(pair) then p.basePnl else p.basePnl * ClosingPrice(base, prices[pair[..3] + "USD"])
  }

  lemma Quotient(base: real, counter: real, s: real)
    requires s != 0.0
    ensures (base - (base - counter / s)) * s == counter
  {
    var q := counter / s;
    assert base - (base - q) == q;
    assert q * s == counter;
  }

  lemma DollarIsUsd(pair: string)
    requires |pair| >= 3
    ensures Dollar(pair) <==> IsUsdBased(pair)
  {
  }

  /** The closed form of a report, said without the division. */
  lemma ReportCloses(t: Totals, pair: string, prices: Prices, wasTraded: bool)
    requires |pair| >= 3 && Marked(pair, prices) && Report(pair, t, prices, wasTraded).Some?
    ensures HasPrices(pair, prices)
    ensures IsReport(Report(pair, t, prices, wasTraded).value, pair, t.base, t.counter, prices, wasTraded)
  {
    DollarIsUsd(pair);
    Quotient(t.base, t.counter, ClosingPrice(t.base, prices[pair]));
  }

  /** Over every run in which no handler throws: an input that reports a pair sets its position to what the
      trades and the quotes of that moment give; a reset clears it; every other input leaves it. */
  lemma {:induction false} ReportedPosition(inputs: seq<Input>, pair: string)
    requires inputs != [] && !RunEngine(inputs).failed
    ensures var before, now := PositionFor(RunEngine(Front(inputs)).trackers, pair), PositionFor(RunEngine(inputs).trackers, pair);
            if Last(inputs).Reset? then now == Position("", 0.0, 0.0, 0.0, false)
            else if Reports(inputs, pair) then
              IsReport(now, pair, BaseOf(inputs, pair), CounterOf(inputs, pair), PricesAfter(inputs), Last(inputs).TradeIn?)
            else now == before
  {
    ReportsAreMarks(inputs, pair);
    if Reports(inputs, pair) {
      MarkedPosition(inputs, pair);
    } else {
      OtherPosition(inputs, pair);
    }
  }

  lemma OtherPosition(inputs: seq<Input>, pair: string)
    requires inputs != [] && !RunEngine(inputs).failed && !Marks(inputs, pair)
    ensures PositionFor(RunEngine(inputs).trackers, pair) ==
            if Last(inputs).Reset? then Position("", 0.0, 0.0, 0.0, false) else PositionFor(RunEngine(Front(inputs)).trackers, pair)
  {
    EngineTotals(Front(inputs), pair);
    EngineTotals(inputs, pair);
    LastReportStep(inputs, pair);
  }

  lemma MarkedPosition(inputs: seq<Input>, pair: string)
    requires inputs != [] && !RunEngine(inputs).failed && Marks(inputs, pair)
    ensures HasPrices(pair, PricesAfter(inputs))
    ensures IsReport(PositionFor(RunEngine(inputs).trackers, pair), pair, BaseOf(inputs, pair), CounterOf(inputs, pair),
                     PricesAfter(inputs), Last(inputs).TradeIn?)
  {
    var t := TotalsOf(TradesIn(inputs), pair);
    LastMark(inputs, pair, t);
    ReportCloses(t, pair, PricesAfter(inputs), Last(inputs).TradeIn?);
    TotalsAreTheSums(TradesIn(inputs), pair);
  }

  lemma LastMark(inputs: seq<Input>, pair: string, t: Totals)
    requires inputs != [] && !RunEngine(inputs).failed && Marks(inputs, pair) && t == TotalsOf(TradesIn(inputs), pair)
    ensures Report(pair, t, PricesAfter(inputs), Last(inputs).TradeIn?) == Some(PositionFor(RunEngine(inputs).trackers, pair))
  {
    Threw(inputs, pair);
    EngineTotals(inputs, pair);
    LastReportStep(inputs, pair);
  }

  lemma ReportsAreMarks(inputs: seq<Input>, pair: string)
    requires inputs != []
    ensures Reports(inputs, pair) <==> Marks(inputs, pair)
  {
    if |pair| >= 3 {
      DollarIsUsd(pair);
    }
  }

  /** A run that has not failed marked at no side price of zero. */
  lemma Threw(inputs: seq<Input>, pair: string)
    requires inputs != [] && !RunEngine(inputs).failed && Marks(inputs, pair)
    ensures SideOf(PricesAfter(inputs)[pair], TotalsOf(TradesIn(inputs), pair).base >= 0.0) != 0.0
  {
    HandleThrows(inputs);
  }

  // ----- reports at the side of the market -----

  /** A price with positive sides makes no handler throw. */
  lemma QuoteIsSafe(inputs: seq<Input>, symbol: string, p: Price)
    requires !RunEngine(inputs).failed && |symbol| >= 3 && Quote(p)
    ensures !RunEngine(inputs + [PriceIn(symbol, p)]).failed
  {
    var inputs' := inputs + [PriceIn(symbol, p)];
    assert Front(inputs') == inputs && Last(inputs') == PriceIn(symbol, p);
    HandleThrows(inputs');
  }

  lemma PriceSnoc(inputs: seq<Input>, symbol: string, p: Price, pair: string)
    ensures var inputs' := inputs + [PriceIn(symbol, p)];
            && PricesAfter(inputs') == PricesAfter(inputs)[symbol := p]
            && BaseOf(inputs', pair) == BaseOf(inputs, pair) && CounterOf(inputs', pair) == CounterOf(inputs, pair)
  {
    var inputs' := inputs + [PriceIn(symbol, p)];
    assert Front(inputs') == inputs && Last(inputs') == PriceIn(symbol, p);
    assert TradesIn(inputs') == TradesIn(inputs) + [];
    assert TradesIn(inputs') == TradesIn(inputs);
  }

  lemma Quotients(base: real, x: real, s: real, counter: real)
    requires s != 0.0 && (base - x) * s == counter
    ensures x == base - counter / s
  {
    var q := counter / s;
    assert q * s == counter;
    assert (base - x - q) * s == 0.0;
  }

  function PositionAfter(inputs: seq<Input>, pair: string): Position {
    PositionFor(RunEngine(inputs).trackers, pair)
  }

  lemma PriceReports(inputs: seq<Input>, pair: string, p: Price)
    requires !RunEngine(inputs).failed && |pair| >= 3 && Quote(p) && HasPrices(pair, PricesAfter(inputs)[pair := p])
    ensures IsReport(PositionAfter(inputs + [PriceIn(pair, p)], pair), pair, BaseOf(inputs, pair), CounterOf(inputs, pair),
                     PricesAfter(inputs)[pair := p], false)
  {
    var inputs' := inputs + [PriceIn(pair, p)];
    assert Front(inputs') == inputs && Last(inputs') == PriceIn(pair, p);
    QuoteIsSafe(inputs, pair, p);
    PriceSnoc(inputs, pair, p, pair);
    ReportedPosition(inputs', pair);
  }

  /** Marked at the side of this price, and converted at the side of that one. */
  ghost predicate MarkedAt(q: Position, base: real, counter: real, p: Price) {
    var side := if base >= 0.0 then p.bid else p.ask;
    side > 0.0 && q.basePnl == base - counter / side
  }

  ghost predicate ConvertedBy(q: Position, base: real, crossed: Price) {
    q.usdPnl == q.basePnl * if base >= 0.0 then crossed.bid else crossed.ask
  }

  /** The report after a price of the pair itself. */
  lemma AtPrice(inputs: seq<Input>, pair: string, p: Price)
    requires !RunEngine(inputs).failed && |pair| >= 3 && Quote(p) && HasPrices(pair, PricesAfter(inputs)[pair := p])
    ensures var q := PositionAfter(inputs + [PriceIn(pair, p)], pair);
            && MarkedAt(q, BaseOf(inputs, pair), CounterOf(inputs, pair), p)
            && (!Dollar(pair) ==> ConvertedBy(q, BaseOf(inputs, pair), PricesAfter(inputs)[pair := p][pair[..3] + "USD"]))
  {
    PriceReports(inputs, pair, p);
    ReadReport(PositionAfter(inputs + [PriceIn(pair, p)], pair), pair, BaseOf(inputs, pair), CounterOf(inputs, pair),
               PricesAfter(inputs)[pair := p], false);
  }

  lemma ReadReport(q: Position, pair: string, base: real, counter: real, prices: Prices, wasTraded: bool)
    requires |pair| >= 3 && HasPrices(pair, prices) && IsReport(q, pair, base, counter, prices, wasTraded)
    requires Quote(prices[pair])
    ensures MarkedAt(q, base, counter, prices[pair])
    ensures !Dollar(pair) ==> ConvertedBy(q, base, prices[pair[..3] + "USD"])
  {
    Quotients(base, q.basePnl, ClosingPrice(base, prices[pair]), counter);
  }

  /** The reported profit of a pair is never above the one at mid, whatever price comes next, if and only if
      what was bought and what was paid have the same sign. */
  lemma ReportConservativeExactly(inputs: seq<Input>, pair: string)
    requires !RunEngine(inputs).failed && |pair| >= 3
    requires Dollar(pair) || pair[..3] + "USD" == pair || pair[..3] + "USD" in PricesAfter(inputs)
    ensures var base, counter := BaseOf(inputs, pair), CounterOf(inputs, pair);
            (forall p :: Quote(p) ==> PositionAfter(inputs + [PriceIn(pair, p)], pair).basePnl <= base - counter / p.mid)
            <==> SameSigns(base, counter)
  {
    var t := Totals(BaseOf(inputs, pair), CounterOf(inputs, pair), 0);
    forall p | Quote(p)
      ensures PositionAfter(inputs + [PriceIn(pair, p)], pair).basePnl == BasePnl(t, SideOf(p, t.base >= 0.0))
      ensures BasePnl(t, p.mid) == t.base - t.counter / p.mid
    {
      AtPrice(inputs, pair, p);
    }
    SideConservativeExactly(t);
  }

  ghost predicate SameSigns(base: real, counter: real) {
    if base >= 0.0 then counter >= 0.0 else counter <= 0.0
  }

  ghost predicate AtMostAtMid(q: Position, base: real, counter: real, p: Price, crossed: Price)
    requires Quote(p)
  {
    q.usdPnl <= (base - counter / p.mid) * crossed.mid
  }

  /** Long without a loss at mid, or short without a gain at the ask. */
  ghost predicate LongWithoutLoss(base: real, counter: real, p: Price)
    requires Quote(p)
  {
    if base >= 0.0 then base - counter / p.mid >= 0.0 else base - counter / p.ask <= 0.0
  }

  /** In dollars, for a pair that has to be converted with a rate of its own: the reported profit is never
      above the one at mid, whatever that rate, exactly for a long position that does not lose at mid and a
      short one that does not gain at its side. */
  lemma {:induction false} UsdReportConservativeExactly(inputs: seq<Input>, pair: string, p: Price)
    requires !RunEngine(inputs).failed && |pair| >= 3 && Quote(p) && !Dollar(pair) && pair[..3] + "USD" != pair
    requires SameSigns(BaseOf(inputs, pair), CounterOf(inputs, pair))
    ensures (forall c :: Quote(c) ==>
               AtMostAtMid(AfterBoth(inputs, pair, c, p), BaseOf(inputs, pair), CounterOf(inputs, pair), p, c))
            <==> LongWithoutLoss(BaseOf(inputs, pair), CounterOf(inputs, pair), p)
  {
    UsdReportExactly(inputs, pair, p, Totals(BaseOf(inputs, pair), CounterOf(inputs, pair), 0));
  }

  lemma {:induction false} UsdReportExactly(inputs: seq<Input>, pair: string, p: Price, t: Totals)
    requires !RunEngine(inputs).failed && |pair| >= 3 && Quote(p) && !Dollar(pair) && pair[..3] + "USD" != pair
    requires t.base == BaseOf(inputs, pair) && t.counter == CounterOf(inputs, pair) && SameSigns(t.base, t.counter)
    ensures (forall c :: Quote(c) ==> AtMostAtMid(AfterBoth(inputs, pair, c, p), t.base, t.counter, p, c))
            <==> LongWithoutLoss(t.base, t.counter, p)
  {
    if LongWithoutLoss(t.base, t.counter, p) {
      forall c | Quote(c) ensures AtMostAtMid(AfterBoth(inputs, pair, c, p), t.base, t.counter, p, c) {
        UsdNeverAbove(inputs, pair, p, c, t);
      }
    } else {
      var c := UsdAbove(inputs, pair, p, t);
    }
  }

  lemma {:induction false} UsdNeverAbove(inputs: seq<Input>, pair: string, p: Price, c: Price, t: Totals)
    requires !RunEngine(inputs).failed && |pair| >= 3 && Quote(p) && Quote(c) && !Dollar(pair) && pair[..3] + "USD" != pair
    requires t.base == BaseOf(inputs, pair) && t.counter == CounterOf(inputs, pair) && SameSigns(t.base, t.counter)
    requires LongWithoutLoss(t.base, t.counter, p)
    ensures AtMostAtMid(AfterBoth(inputs, pair, c, p), t.base, t.counter, p, c)
  {
    ConvertedAt(inputs, pair, p, c, t);
    UsdExactly(t, p);
  }

  lemma UsdAbove(inputs: seq<Input>, pair: string, p: Price, t: Totals) returns (c: Price)
    requires !RunEngine(inputs).failed && |pair| >= 3 && Quote(p) && !Dollar(pair) && pair[..3] + "USD" != pair
    requires t.base == BaseOf(inputs, pair) && t.counter == CounterOf(inputs, pair) && SameSigns(t.base, t.counter)
    requires !LongWithoutLoss(t.base, t.counter, p)
    ensures Quote(c) && !AtMostAtMid(AfterBoth(inputs, pair, c, p), t.base, t.counter, p, c)
  {
    c := WorstRate(t, p);
    ConvertedAt(inputs, pair, p, c, t);
  }

  lemma WorstRate(t: Totals, p: Price) returns (c: Price)
    requires Quote(p) && SameSigns(t.base, t.counter) && !LongWithoutLoss(t.base, t.counter, p)
    ensures Quote(c) && !SidesAtMostMid(t, p, c)
  {
    UsdExactly(t, p);
    c :| Quote(c) && !SidesAtMostMid(t, p, c);
  }

  /** What is reported after a rate for the conversion and then a price of the pair. */
  function AfterBoth(inputs: seq<Input>, pair: string, c: Price, p: Price): Position
    requires |pair| >= 3
  {
    PositionAfter(inputs + [PriceIn(pair[..3] + "USD", c)] + [PriceIn(pair, p)], pair)
  }

  ghost predicate SidesAtMostMid(t: Totals, p: Price, c: Price)
    requires Quote(p)
  {
    BasePnl(t, SideOf(p, t.base >= 0.0)) * SideOf(c, t.base >= 0.0) <= BasePnl(t, p.mid) * c.mid
  }

  lemma UsdExactly(t: Totals, p: Price)
    requires Quote(p) && ((t.base >= 0.0 && t.counter >= 0.0) || (t.base < 0.0 && t.counter <= 0.0))
    ensures (forall c :: Quote(c) ==> SidesAtMostMid(t, p, c))
            <==> LongWithoutLoss(t.base, t.counter, p)
  {
    UsdConservativeExactly(t, p);
  }

  lemma ConvertedAt(inputs: seq<Input>, pair: string, p: Price, c: Price, t: Totals)
    requires !RunEngine(inputs).failed && |pair| >= 3 && Quote(p) && Quote(c) && !Dollar(pair) && pair[..3] + "USD" != pair
    requires t.base == BaseOf(inputs, pair) && t.counter == CounterOf(inputs, pair)
    ensures AtMostAtMid(AfterBoth(inputs, pair, c, p), t.base, t.counter, p, c) <==> SidesAtMostMid(t, p, c)
  {
    var rated := inputs + [PriceIn(pair[..3] + "USD", c)];
    QuoteIsSafe(inputs, pair[..3] + "USD", c);
    PriceSnoc(inputs, pair[..3] + "USD", c, pair);
    AtPrice(rated, pair, p);
    assert PricesAfter(rated)[pair := p][pair[..3] + "USD"] == c;
    AtSides(PositionAfter(rated + [PriceIn(pair, p)], pair), t, p, c);
  }

  lemma AtSides(q: Position, t: Totals, p: Price, c: Price)
    requires Quote(p) && MarkedAt(q, t.base, t.counter, p) && ConvertedBy(q, t.base, c)
    ensures AtMostAtMid(q, t.base, t.counter, p, c) <==> SidesAtMostMid(t, p, c)
  {
  }

  /** A pair quoted in dollars needs no condition: its report is the value of what is held at its side, less
      what was paid, and that is never above the value at mid. */
  lemma QuotedInDollars(inputs: seq<Input>, pair: string, p: Price)
    requires !RunEngine(inputs).failed && |pair| >= 3 && Quote(p) && !Dollar(pair) && pair[..3] + "USD" == pair
    ensures IsValueAtSide(PositionAfter(inputs + [PriceIn(pair, p)], pair), BaseOf(inputs, pair), CounterOf(inputs, pair), p)
  {
    AtPrice(inputs, pair, p);
    assert PricesAfter(inputs)[pair := p][pair[..3] + "USD"] == p;
    ClosedAtSide(BaseOf(inputs, pair), CounterOf(inputs, pair), p, PositionAfter(inputs + [PriceIn(pair, p)], pair));
  }

  ghost predicate IsValueAtSide(q: Position, base: real, counter: real, p: Price) {
    && q.usdPnl == base * (if base >= 0.0 then p.bid else p.ask) - counter
    && q.usdPnl <= base * p.mid - counter
  }

  lemma ClosedAtSide(base: real, counter: real, p: Price, q: Position)
    requires Quote(p)
    requires MarkedAt(q, base, counter, p) && ConvertedBy(q, base, p)
    ensures IsValueAtSide(q, base, counter, p)
  {
    var side := if base >= 0.0 then p.bid else p.ask;
    TimesSide(base, counter, side);
    AtSide(base, side, p.mid);
  }

  lemma TimesSide(base: real, counter: real, side: real)
    requires side > 0.0
    ensures (base - counter / side) * side == base * side - counter
  {
    var q := counter / side;
    assert q * side == counter;
  }

  lemma AtSide(base: real, side: real, mid: real)
    requires if base >= 0.0 then side <= mid else mid <= side
    ensures base * side <= base * mid
  {
  }

  // ----- the published total -----

  /** The dollar profits reported for these pairs, added up. */
  function UsdOf(inputs: seq<Input>, pairs: seq<string>): real {
    if pairs == [] then 0.0 else UsdOf(inputs, Front(pairs)) + PositionAfter(inputs, Last(pairs)).usdPnl
  }

  /** Each pair traded since the last reset, once. */
  ghost predicate AreTheTraded(pairs: seq<string>, inputs: seq<Input>) {
    Distinct(pairs) && forall x :: x in pairs <==> exists i :: 0 <= i < |TradesIn(inputs)| && TradesIn(inputs)[i].terms.pair == x
  }

  lemma {:induction false} CountedExactly(trades: seq<Trade>, pair: string)
    ensures CountOf(trades, pair) > 0 <==> exists i :: 0 <= i < |trades| && trades[i].terms.pair == pair
  {
    if trades != [] {
      CountedExactly(Front(trades), pair);
      if CountOf(Front(trades), pair) > 0 {
        var i :| 0 <= i < |Front(trades)| && Front(trades)[i].terms.pair == pair;
        assert trades[i].terms.pair == pair;
      } else if Last(trades).terms.pair == pair {
        assert trades[|trades| - 1].terms.pair == pair;
      }
    }
  }

  lemma {:induction false} UsdWithout(inputs: seq<Input>, pairs: seq<string>, j: nat)
    requires j < |pairs|
    ensures UsdOf(inputs, pairs) == UsdOf(inputs, pairs[..j] + pairs[j + 1..]) + PositionAfter(inputs, pairs[j]).usdPnl
  {
    var rest := pairs[..j] + pairs[j + 1..];
    if j == |pairs| - 1 {
      assert rest == Front(pairs);
    } else {
      UsdWithout(inputs, Front(pairs), j);
      assert Front(rest) == Front(pairs)[..j] + Front(pairs)[j + 1..] && Last(rest) == Last(pairs);
    }
  }

  /** These trackers report what the pairs with trades among them do. */
  ghost predicate Covers(ts: seq<Tracker>, pairs: seq<string>) {
    forall x :: x in pairs <==> exists i :: 0 <= i < |ts| && ts[i].pair == x && ts[i].totals.count > 0
  }

  lemma {:induction false} TrackersAddUp(inputs: seq<Input>, ts: seq<Tracker>, pairs: seq<string>)
    requires OneEach(ts) && Distinct(pairs) && Covers(ts, pairs)
    requires forall i :: 0 <= i < |ts| ==> PositionAfter(inputs, ts[i].pair) == ts[i].position
    ensures UsdPnl(ts) == UsdOf(inputs, pairs)
  {
    if ts == [] {
      FirstIsIn(pairs);
    } else if Last(ts).totals.count > 0 {
      var x := Last(ts).pair;
      assert ts[|ts| - 1].pair == x;
      assert x in pairs;
      var j :| 0 <= j < |pairs| && pairs[j] == x;
      var rest := pairs[..j] + pairs[j + 1..];
      WithoutPair(pairs, j);
      FrontCovers(ts, pairs, rest);
      TrackersAddUp(inputs, Front(ts), rest);
      UsdWithout(inputs, pairs, j);
    } else {
      FrontCovers(ts, pairs, pairs);
      TrackersAddUp(inputs, Front(ts), pairs);
    }
  }

  lemma WithoutPair(pairs: seq<string>, j: nat)
    requires Distinct(pairs) && j < |pairs|
    ensures Distinct(pairs[..j] + pairs[j + 1..])
    ensures forall x :: x in pairs[..j] + pairs[j + 1..] <==> x in pairs && x != pairs[j]
  {
    var rest := pairs[..j] + pairs[j + 1..];
    forall x | x in pairs && x != pairs[j] ensures x in rest {
      var k :| 0 <= k < |pairs| && pairs[k] == x;
      assert rest[if k < j then k else k - 1] == x;
    }
  }

  lemma FirstIsIn(pairs: seq<string>)
    ensures pairs != [] ==> pairs[0] in pairs
  {
  }

  lemma FrontCovers(ts: seq<Tracker>, pairs: seq<string>, rest: seq<string>)
    requires ts != [] && OneEach(ts) && Covers(ts, pairs)
    requires forall x :: x in rest <==> x in pairs && (x != Last(ts).pair || Last(ts).totals.count == 0)
    ensures Covers(Front(ts), rest)
  {
    var front := Front(ts);
    forall x ensures x in rest <==> exists i :: 0 <= i < |front| && front[i].pair == x && front[i].totals.count > 0 {
      if x in rest {
        var i :| 0 <= i < |ts| && ts[i].pair == x && ts[i].totals.count > 0;
        assert front[i] == ts[i];
      } else if i :| 0 <= i < |front| && front[i].pair == x && front[i].totals.count > 0 {
        assert ts[i] == front[i] && ts[i].pair != ts[|ts| - 1].pair;
      }
    }
  }

  lemma TradedTrackers(inputs: seq<Input>, pairs: seq<string>)
    requires !RunEngine(inputs).failed && AreTheTraded(pairs, inputs)
    ensures OneEach(RunEngine(inputs).trackers) && Covers(RunEngine(inputs).trackers, pairs)
  {
    var ts := RunEngine(inputs).trackers;
    EngineTotals(inputs, "");
    forall x ensures x in pairs <==> exists i :: 0 <= i < |ts| && ts[i].pair == x && ts[i].totals.count > 0 {
      EngineTotals(inputs, x);
      CountedExactly(TradesIn(inputs), x);
      if i :| 0 <= i < |ts| && ts[i].pair == x && ts[i].totals.count > 0 {
        TrackerAt(ts, i);
      }
    }
  }

  /** Every publication, after a trade, a tick or a reset, adds the sum of the dollar profits reported for the
      pairs traded since the last reset, each counted once; one that was only priced does not count. A price
      publishes nothing, and what a reset publishes is all there is. */
  lemma PublishedTotal(inputs: seq<Input>, pairs: seq<string>)
    requires inputs != [] && !RunEngine(inputs).failed && AreTheTraded(pairs, inputs)
    ensures var h := RunEngine(inputs).history;
            && (if Last(inputs).PriceIn? then h == RunEngine(Front(inputs)).history
                else h != [] && Last(h) == Point(Last(inputs).now, UsdOf(inputs, pairs)))
            && (Last(inputs).Reset? ==> |h| == 1)
  {
    TradedTrackers(inputs, pairs);
    var ts := RunEngine(inputs).trackers;
    forall i | 0 <= i < |ts| ensures PositionAfter(inputs, ts[i].pair) == ts[i].position {
      TrackerAt(ts, i);
    }
    TrackersAddUp(inputs, ts, pairs);
    HandleHistory(RunEngine(Front(inputs)), Last(inputs));
    assert Last(inputs).Reset? ==> ts == [];
  }
}
