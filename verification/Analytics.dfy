/** Positions and profit: one tracker a currency pair, marked against the latest prices, and the
    history of the last 15 minutes. */
module Analytics {
  import opened Prelude
  import opened EventLog
  import opened Aggregates
  import opened TradeCache

  // ----- trackers -----

  datatype Price = Price(bid: real, ask: real, mid: real)

  type Prices = map<string, Price>

  datatype Position = Position(symbol: string, baseTradedAmount: real, basePnl: real, usdPnl: real, wasTraded: bool)

  const NO_POSITION := Position("", 0.0, 0.0, 0.0, false)

  datatype Totals = Totals(base: real, counter: real, count: nat)

  datatype Tracker = Tracker(pair: string, totals: Totals, position: Position)

  const NO_TOTALS := Totals(0.0, 0.0, 0)

  /** The first three letters against the dollar. Shorter names make the constructor throw. */
  function CrossedPair(pair: string): string
    requires |pair| >= 3
  {
    pair[..3] + "USD"
  }

  predicate IsUsdBased(pair: string) {
    "USD" <= pair
  }

  predicate Marked(pair: string, prices: Prices)
    requires |pair| >= 3
  {
    pair in prices && (IsUsdBased(pair) || CrossedPair(pair) in prices)
  }

  /** The price a position of this sign is marked at. */
  function SideOf(p: Price, isLong: bool): real {
    if isLong then p.bid else p.ask
  }

  /** Profit in the base currency, closing the counter amount at this price. */
  function BasePnl(t: Totals, at: real): real
    requires at != 0.0
  {
    t.base - t.counter / at
  }

  /** The report as a closed form of the totals and the prices. None where the division throws. */
  function Report(pair: string, t: Totals, prices: Prices, wasTraded: bool): Option<Position>
    requires |pair| >= 3 && Marked(pair, prices)
  {
    var isLong := t.base >= 0.0;
    var side := SideOf(prices[pair], isLong);
    if side == 0.0 then None
    else
      var basePnl := BasePnl(t, side);
      var usdPnl := if IsUsdBased(pair) then basePnl else basePnl * SideOf(prices[CrossedPair(pair)], isLong);
      Some(Position(pair, t.base, basePnl, usdPnl, wasTraded))
  }

  function Sign(d: Direction): real {
    if d.Buy? then 1.0 else -1.0
  }

  function AddTrade(t: Totals, trade: Trade): Totals {
    var s := Sign(trade.terms.direction);
    Totals(t.base + s * trade.terms.notional, t.counter + s * (trade.terms.notional * trade.terms.spotRate), t.count + 1)
  }

  /** Marks the tracker if its prices are known. None where the code throws. */
  function Mark(t: Tracker, prices: Prices, wasTraded: bool): Option<Tracker>
    requires |t.pair| >= 3
  {
    if !Marked(t.pair, prices) then Some(t)
    else
      match Report(t.pair, t.totals, prices, wasTraded)
      case None => None
      case Some(position) => Some(t.(position := position))
  }

  function TakeTrade(t: Tracker, trade: Trade, prices: Prices): Option<Tracker>
    requires |t.pair| >= 3
  {
    if trade.status != Done then Some(t) else Mark(t.(totals := AddTrade(t.totals, trade)), prices, true)
  }

  class CurrencyPairTracker {
    const pair: string
    const crossedPair: string
    var baseTradedAmount: real
    var counterTradedAmount: real
    var tradeCount: nat
    var currentPosition: Position

    function State(): Tracker
      reads this
    {
      Tracker(pair, Totals(baseTradedAmount, counterTradedAmount, tradeCount), currentPosition)
    }

    ghost predicate Valid() {
      |pair| >= 3 && crossedPair == CrossedPair(pair)
    }

    constructor (pair: string)
      requires |pair| >= 3
      ensures Valid() && State() == Tracker(pair, NO_TOTALS, NO_POSITION)
    {
      this.pair, crossedPair := pair, pair[..3] + "USD";
      baseTradedAmount, counterTradedAmount, tradeCount, currentPosition := 0.0, 0.0, 0, NO_POSITION;
    }

    /** Answers false where the code throws; the totals are changed by then. */
    method OnTrade(trade: Trade, prices: Prices) returns (ok: bool)
      requires Valid()
      modifies this
      ensures ok <==> TakeTrade(old(State()), trade, prices).Some?
      ensures ok ==> State() == TakeTrade(old(State()), trade, prices).value
      ensures !ok ==> State() == old(State()).(totals := AddTrade(old(State()).totals, trade))
      ensures var terms := trade.terms;
              var sold := terms.direction.Sell?;
              if trade.status != Done then
                baseTradedAmount == old(baseTradedAmount) && counterTradedAmount == old(counterTradedAmount) && tradeCount == old(tradeCount)
              else
                && baseTradedAmount - old(baseTradedAmount) == (if sold then -terms.notional else terms.notional)
                && counterTradedAmount - old(counterTradedAmount) == terms.notional * (if sold then -terms.spotRate else terms.spotRate)
                && tradeCount == old(tradeCount) + 1
    {
      if trade.status != Done {
        return true;
      }
      if trade.terms.direction == Buy {
        baseTradedAmount := baseTradedAmount + trade.terms.notional;
        counterTradedAmount := counterTradedAmount + trade.terms.notional * trade.terms.spotRate;
      } else {
        baseTradedAmount := baseTradedAmount - trade.terms.notional;
        counterTradedAmount := counterTradedAmount - trade.terms.notional * trade.terms.spotRate;
      }
      tradeCount := tradeCount + 1;
      ok := OnPrice(prices, true);
    }

    method OnPrice(prices: Prices, wasTraded: bool) returns (ok: bool)
      requires Valid()
      modifies this`currentPosition
      ensures ok <==> Mark(old(State()), prices, wasTraded).Some?
      ensures State() == if ok then Mark(old(State()), prices, wasTraded).value else old(State())
      ensures ok && Marked(pair, prices) ==>
                (baseTradedAmount - currentPosition.basePnl) * SideOf(prices[pair], baseTradedAmount >= 0.0) == counterTradedAmount
    {
      var isLong := baseTradedAmount >= 0.0;
      var isUsdBased := "USD" <= pair;
      if pair !in prices || (!isUsdBased && crossedPair !in prices) {
        return true;
      }
      var side := if isLong then prices[pair].bid else prices[pair].ask;
      if side == 0.0 {
        return false;
      }
      var baseSpot := counterTradedAmount / side;
      var basePnl := baseTradedAmount - baseSpot;
      var usdPnl: real;
      if isUsdBased {
        usdPnl := basePnl;
      } else {
        var crossed := prices[crossedPair];
        usdPnl := if isLong then basePnl * crossed.bid else basePnl * crossed.ask;
      }
      currentPosition := Position(pair, baseTradedAmount, basePnl, usdPnl, wasTraded);
      ok := true;
    }
  }

  // ----- totals do not depend on the order of the trades -----

  function TotalsOf(trades: seq<Trade>, pair: string): Totals {
    if trades == [] then NO_TOTALS
    else
      var t := TotalsOf(Front(trades), pair);
      if Last(trades).terms.pair == pair then AddTrade(t, Last(trades)) else t
  }

  /** What the trades of a pair in one direction amount to in the base currency. */
  function NotionalOf(trades: seq<Trade>, pair: string, d: Direction): real {
    if trades == [] then 0.0
    else
      var x := Last(trades).terms;
      NotionalOf(Front(trades), pair, d) + if x.pair == pair && x.direction == d then x.notional else 0.0
  }

  /** The same in the counter currency, each trade at its own rate. */
  function ValueOf(trades: seq<Trade>, pair: string, d: Direction): real {
    if trades == [] then 0.0
    else
      var x := Last(trades).terms;
      ValueOf(Front(trades), pair, d) + if x.pair == pair && x.direction == d then x.notional * x.spotRate else 0.0
  }

  function CountOf(trades: seq<Trade>, pair: string): nat {
    if trades == [] then 0 else CountOf(Front(trades), pair) + if Last(trades).terms.pair == pair then 1 else 0
  }

  /** Bought minus sold, in both currencies, and the number of the trades. */
  predicate AreTheSums(t: Totals, trades: seq<Trade>, pair: string) {
    && t.base == NotionalOf(trades, pair, Buy) - NotionalOf(trades, pair, Sell)
    && t.counter == ValueOf(trades, pair, Buy) - ValueOf(trades, pair, Sell)
    && t.count == CountOf(trades, pair)
  }

  lemma {:induction false} TotalsAreTheSums(trades: seq<Trade>, pair: string)
    ensures AreTheSums(TotalsOf(trades, pair), trades, pair)
  {
    if trades != [] {
      TotalsAreTheSums(Front(trades), pair);
    }
  }

  function Plus(t: Totals, u: Totals): Totals {
    Totals(t.base + u.base, t.counter + u.counter, t.count + u.count)
  }

  lemma {:induction false} TotalsConcat(a: seq<Trade>, b: seq<Trade>, pair: string)
    ensures TotalsOf(a + b, pair) == Plus(TotalsOf(a, pair), TotalsOf(b, pair))
  {
    if b == [] {
      assert a + b == a;
    } else {
      assert Front(a + b) == a + Front(b) && Last(a + b) == Last(b);
      TotalsConcat(a, Front(b), pair);
    }
  }

  lemma {:induction false} TotalsOrderFree(a: seq<Trade>, b: seq<Trade>, pair: string)
    requires multiset(a) == multiset(b)
    ensures TotalsOf(a, pair) == TotalsOf(b, pair)
  {
    if a == [] {
      assert |multiset(a)| == |multiset(b)|;
      assert b == [];
    } else {
      var x := Last(a);
      assert a == Front(a) + [x];
      assert x in multiset(b);
      var i :| 0 <= i < |b| && b[i] == x;
      var b' := b[..i] + b[i + 1..];
      WithoutOne(b, i, pair);
      WithoutOne(a, |a| - 1, pair);
      assert a[..|a| - 1] + a[|a|..] == Front(a);
      TotalsOrderFree(Front(a), b', pair);
    }
  }

  lemma MultisetSplit(l: seq<Trade>, x: Trade, r: seq<Trade>)
    ensures multiset(l + r) == multiset(l + ([x] + r)) - multiset{x}
  {
  }

  lemma WithoutOne(s: seq<Trade>, i: nat, pair: string)
    requires i < |s|
    ensures var rest := s[..i] + s[i + 1..];
            && multiset(rest) == multiset(s) - multiset{s[i]}
            && TotalsOf(s, pair) == Plus(TotalsOf(rest, pair), TotalsOf([s[i]], pair))
  {
    var x, l, r := s[i], s[..i], s[i + 1..];
    assert s == l + ([x] + r);
    MultisetSplit(l, x, r);
    TotalsConcat(l, r, pair);
    TotalsConcat(l, [x] + r, pair);
    TotalsConcat([x], r, pair);
  }

  // ----- marking against the side of the market -----

  predicate Quote(p: Price) {
    0.0 < p.bid <= p.mid <= p.ask
  }

  lemma DivideMonotone(c: real, x: real, y: real)
    requires c >= 0.0 && 0.0 < x <= y
    ensures c / y <= c / x
  {
  }

  /** Closing at the side of the market never shows more than closing at mid, while base and counter
      amounts have the same sign. */
  lemma SideIsConservative(t: Totals, p: Price)
    requires Quote(p)
    requires (t.base >= 0.0 && t.counter >= 0.0) || (t.base < 0.0 && t.counter <= 0.0)
    ensures BasePnl(t, SideOf(p, t.base >= 0.0)) <= BasePnl(t, p.mid)
  {
    if t.base >= 0.0 {
      DivideMonotone(t.counter, p.bid, p.mid);
    } else {
      DivideMonotone(-t.counter, p.mid, p.ask);
      assert (-t.counter) / p.ask == -(t.counter / p.ask) && (-t.counter) / p.mid == -(t.counter / p.mid);
    }
  }

  /** And it never does, whatever the quotes, only then. */
  lemma SideConservativeExactly(t: Totals)
    ensures (forall p :: Quote(p) ==> BasePnl(t, SideOf(p, t.base >= 0.0)) <= BasePnl(t, p.mid)) <==>
            if t.base >= 0.0 then t.counter >= 0.0 else t.counter <= 0.0
  {
    if t.base >= 0.0 && t.counter < 0.0 {
      assert Quote(Price(1.0, 2.0, 2.0));
    } else if t.base < 0.0 && t.counter > 0.0 {
      assert Quote(Price(1.0, 2.0, 1.0));
    } else {
      forall p | Quote(p) ensures BasePnl(t, SideOf(p, t.base >= 0.0)) <= BasePnl(t, p.mid) {
        SideIsConservative(t, p);
      }
    }
  }

  /** Whether conversion to dollars at the side of the market never shows more than at mid, whatever the
      rate. */
  ghost predicate UsdConservative(t: Totals, p: Price)
    requires Quote(p)
  {
    forall crossed :: Quote(crossed) ==>
      BasePnl(t, SideOf(p, t.base >= 0.0)) * SideOf(crossed, t.base >= 0.0) <= BasePnl(t, p.mid) * crossed.mid
  }

  /** In dollars it holds exactly for a long position that does not lose at mid and for a short one that
      does not gain at its side: a loss shrinks at the bid, a gain grows at the ask. */
  lemma UsdConservativeExactly(t: Totals, p: Price)
    requires Quote(p)
    requires (t.base >= 0.0 && t.counter >= 0.0) || (t.base < 0.0 && t.counter <= 0.0)
    ensures UsdConservative(t, p) <==>
            if t.base >= 0.0 then BasePnl(t, p.mid) >= 0.0 else BasePnl(t, p.ask) <= 0.0
  {
    SideIsConservative(t, p);
    var x, y := BasePnl(t, SideOf(p, t.base >= 0.0)), BasePnl(t, p.mid);
    if t.base >= 0.0 && y < 0.0 {
      var m := LossShrinks(x, y);
      var crossed := Price(1.0, m, m);
      assert Quote(crossed) && x * crossed.bid > y * crossed.mid;
    } else if t.base < 0.0 && x > 0.0 {
      var m := GainGrows(x, y);
      var crossed := Price(1.0, m, 1.0);
      assert Quote(crossed) && x * crossed.ask > y * crossed.mid;
    } else {
      forall crossed | Quote(crossed) ensures x * SideOf(crossed, t.base >= 0.0) <= y * crossed.mid {
        Converted(x, y, crossed, t.base >= 0.0);
      }
    }
  }

  lemma Converted(x: real, y: real, crossed: Price, isLong: bool)
    requires Quote(crossed) && x <= y && if isLong then y >= 0.0 else x <= 0.0
    ensures x * SideOf(crossed, isLong) <= y * crossed.mid
  {
  }

  lemma LossShrinks(x: real, y: real) returns (m: real)
    requires x <= y < 0.0
    ensures m >= 1.0 && x > y * m
  {
    var q := x / y;
    assert q * y == x;
    assert (q - 1.0) * y == x - y;
    assert q >= 1.0;
    m := q + 1.0;
    assert y * m == x + y;
  }

  lemma GainGrows(x: real, y: real) returns (m: real)
    requires 0.0 < x <= y
    ensures m >= 1.0 && x * m > y
  {
    var q := y / x;
    assert q * x == y;
    assert (q - 1.0) * x == y - x;
    assert q >= 1.0;
    m := q + 1.0;
    assert x * m == y + x;
  }

  /** A long position that loses looks better in dollars at the side of the market than at mid. */
  lemma UsdSideCanFlatter()
    ensures var t, p, crossed := Totals(10.0, 20.0, 1), Price(1.0, 1.0, 1.0), Price(1.0, 3.0, 2.0);
            && Quote(p) && Quote(crossed) && t.base >= 0.0 && t.counter >= 0.0
            && BasePnl(t, p.bid) * crossed.bid > BasePnl(t, p.mid) * crossed.mid
  {
  }

  // ----- the engine -----

  datatype Point = Point(time: int, usdPnl: real)

  const WINDOW_LENGTH := 15 * 60 * 1000

  /** Trackers in the order they were made, prices, the published history, and whether a handler threw. */
  datatype Engine = Engine(trackers: seq<Tracker>, prices: Prices, history: seq<Point>, failed: bool)

  const NEW_ENGINE := Engine([], map[], [], false)

  datatype Input =
    | TradeIn(trade: Trade, now: int)
    | PriceIn(symbol: string, price: Price)
    | Tick(now: int)
    | Reset(now: int)

  function TrackerIndex(ts: seq<Tracker>, pair: string): (i: nat)
    ensures i <= |ts|
    ensures i < |ts| ==> ts[i].pair == pair
    ensures forall j :: 0 <= j < i ==> ts[j].pair != pair
  {
    if ts == [] then 0 else if ts[0].pair == pair then 0 else 1 + TrackerIndex(ts[1..], pair)
  }

  /** The trackers with one for this pair among them. */
  function WithTracker(ts: seq<Tracker>, pair: string): seq<Tracker> {
    if TrackerIndex(ts, pair) < |ts| then ts else ts + [Tracker(pair, NO_TOTALS, NO_POSITION)]
  }

  function UsdPnl(ts: seq<Tracker>): real {
    if ts == [] then 0.0
    else UsdPnl(Front(ts)) + if Last(ts).totals.count > 0 then Last(ts).position.usdPnl else 0.0
  }

  function Within(points: seq<Point>, from: int): seq<Point> {
    if points == [] then []
    else Within(Front(points), from) + if Last(points).time >= from then [Last(points)] else []
  }

  function Published(e: Engine, now: int): Engine {
    e.(history := Within(e.history, now - WINDOW_LENGTH) + [Point(now, UsdPnl(e.trackers))])
  }

  /** One handler on the event loop. After a throw nothing more is handled. */
  function Handle(e: Engine, input: Input): Engine {
    if e.failed then e
    else
      match input
      case TradeIn(trade, now) =>
        if |trade.terms.pair| < 3 then e.(failed := true)
        else
          var ts := WithTracker(e.trackers, trade.terms.pair);
          var i := TrackerIndexIn(e.trackers, trade.terms.pair);
          (match TakeTrade(ts[i], trade, e.prices)
           case None => e.(failed := true)
           case Some(t) => Published(e.(trackers := ts[i := t]), now))
      case PriceIn(symbol, price) =>
        var e1 := e.(prices := e.prices[symbol := price]);
        if |symbol| < 3 then e1.(failed := true)
        else
          var ts := WithTracker(e.trackers, symbol);
          var i := TrackerIndexIn(e.trackers, symbol);
          (match Mark(ts[i], e1.prices, false)
           case None => e1.(failed := true)
           case Some(t) => e1.(trackers := ts[i := t]))
      case Tick(now) => Published(e, now)
      case Reset(now) => Published(e.(trackers := [], history := []), now)
  }

  function TrackerIndexIn(ts: seq<Tracker>, pair: string): (i: nat)
    ensures i < |WithTracker(ts, pair)| && WithTracker(ts, pair)[i].pair == pair
  {
    TrackerIndex(ts, pair)
  }

  function RunEngine(inputs: seq<Input>): Engine {
    if inputs == [] then NEW_ENGINE else Handle(RunEngine(Front(inputs)), Last(inputs))
  }

  class AnalyticsEngine {
    var trackers: seq<Tracker>
    var priceCache: Prices
    var history: seq<Point>
    var failed: bool

    function State(): Engine
      reads this
    {
      Engine(trackers, priceCache, history, failed)
    }

    constructor ()
      ensures State() == NEW_ENGINE
    {
      trackers, priceCache, history, failed := [], map[], [], false;
    }

    method GetTrackerFor(pair: string) returns (i: nat)
      modifies this`trackers
      ensures trackers == WithTracker(old(trackers), pair) && i == TrackerIndexIn(old(trackers), pair) < |trackers|
    {
      i := TrackerIndex(trackers, pair);
      if i == |trackers| {
        trackers := trackers + [Tracker(pair, NO_TOTALS, NO_POSITION)];
      }
    }

    method PublishPositionReport(now: int)
      modifies this`history
      ensures State() == Published(old(State()), now)
    {
      history := Within(history, now - WINDOW_LENGTH) + [Point(now, UsdPnl(trackers))];
    }

    method OnTrade(trade: Trade, now: int)
      requires !failed
      modifies this
      ensures State().failed == Handle(old(State()), TradeIn(trade, now)).failed
      ensures !failed ==> State() == Handle(old(State()), TradeIn(trade, now))
    {
      if |trade.terms.pair| < 3 {
        failed := true;
        return;
      }
      var i := GetTrackerFor(trade.terms.pair);
      match TakeTrade(trackers[i], trade, priceCache) {
        case None => failed := true;
        case Some(t) =>
          trackers := trackers[i := t];
          PublishPositionReport(now);
      }
    }

    method OnPrice(symbol: string, price: Price)
      requires !failed
      modifies this
      ensures State().failed == Handle(old(State()), PriceIn(symbol, price)).failed
      ensures !failed ==> State() == Handle(old(State()), PriceIn(symbol, price))
    {
      priceCache := priceCache[symbol := price];
      if |symbol| < 3 {
        failed := true;
        return;
      }
      var i := GetTrackerFor(symbol);
      match Mark(trackers[i], priceCache, false) {
        case None => failed := true;
        case Some(t) => trackers := trackers[i := t];
      }
    }

    method ResetAll(now: int)
      requires !failed
      modifies this
      ensures State() == Handle(old(State()), Reset(now))
    {
      trackers := [];
      history := [];
      PublishPositionReport(now);
    }
  }

  // ----- totals over a run of the engine -----

  /** The completed trades since the last reset. */
  function TradesIn(inputs: seq<Input>): seq<Trade> {
    if inputs == [] || Last(inputs).Reset? then []
    else TradesIn(Front(inputs)) + if Last(inputs).TradeIn? && Last(inputs).trade.status == Done then [Last(inputs).trade] else []
  }

  function TotalsFor(ts: seq<Tracker>, pair: string): Totals {
    if TrackerIndex(ts, pair) < |ts| then ts[TrackerIndex(ts, pair)].totals else NO_TOTALS
  }

  ghost predicate OneEach(ts: seq<Tracker>) {
    && (forall i :: 0 <= i < |ts| ==> |ts[i].pair| >= 3)
    && (forall i, j :: 0 <= i < j < |ts| ==> ts[i].pair != ts[j].pair)
  }

  function PositionFor(ts: seq<Tracker>, pair: string): Position {
    if TrackerIndex(ts, pair) < |ts| then ts[TrackerIndex(ts, pair)].position else NO_POSITION
  }

  lemma TrackerAt(ts: seq<Tracker>, i: nat)
    requires OneEach(ts) && i < |ts|
    ensures TrackerIndex(ts, ts[i].pair) == i
  {
  }

  /** Replacing one pair's tracker leaves the other pairs'. */
  lemma ReplaceTracker(ts: seq<Tracker>, pair: string, t: Tracker, other: string)
    requires OneEach(ts) && |pair| >= 3 && t.pair == pair
    ensures var ts' := WithTracker(ts, pair)[TrackerIndexIn(ts, pair) := t];
            && OneEach(ts')
            && TotalsFor(ts', other) == (if other == pair then t.totals else TotalsFor(ts, other))
            && PositionFor(ts', other) == (if other == pair then t.position else PositionFor(ts, other))
    ensures WithTracker(ts, pair)[TrackerIndexIn(ts, pair)] == Tracker(pair, TotalsFor(ts, pair), PositionFor(ts, pair))
  {
    var i := TrackerIndexIn(ts, pair);
    var ts' := WithTracker(ts, pair)[i := t];
    assert OneEach(ts');
    TrackerAt(ts', i);
    if other != pair {
      OtherTracker(ts, i, ts', other);
    }
  }

  /** A tracker at a place where only trackers of other pairs are changed or added. */
  lemma OtherTracker(ts: seq<Tracker>, i: nat, ts': seq<Tracker>, other: string)
    requires OneEach(ts) && OneEach(ts') && |ts| <= |ts'| <= |ts| + 1 && i < |ts'| && ts'[i].pair != other
    requires i < |ts| ==> ts[i].pair != other
    requires |ts'| > |ts| ==> i == |ts|
    requires forall j :: 0 <= j < |ts| && j != i ==> ts'[j] == ts[j]
    ensures TotalsFor(ts', other) == TotalsFor(ts, other) && PositionFor(ts', other) == PositionFor(ts, other)
  {
  }

  /** What one input does to the tracker of one pair. */
  lemma HandleTracker(e: Engine, input: Input, pair: string)
    requires OneEach(e.trackers) && !e.failed && !Handle(e, input).failed
    ensures var e' := Handle(e, input);
            var t := Tracker(pair, TotalsFor(e.trackers, pair), PositionFor(e.trackers, pair));
            && OneEach(e'.trackers)
            && match input
               case TradeIn(trade, _) =>
                 if trade.terms.pair == pair then
                   && |pair| >= 3 && TakeTrade(t, trade, e.prices).Some?
                   && TotalsFor(e'.trackers, pair) == TakeTrade(t, trade, e.prices).value.totals
                   && PositionFor(e'.trackers, pair) == TakeTrade(t, trade, e.prices).value.position
                 else TotalsFor(e'.trackers, pair) == t.totals && PositionFor(e'.trackers, pair) == t.position
               case PriceIn(symbol, _) =>
                 if symbol == pair then
                   && |pair| >= 3 && Mark(t, e'.prices, false).Some?
                   && TotalsFor(e'.trackers, pair) == t.totals
                   && PositionFor(e'.trackers, pair) == Mark(t, e'.prices, false).value.position
                 else TotalsFor(e'.trackers, pair) == t.totals && PositionFor(e'.trackers, pair) == t.position
               case Tick(_) => TotalsFor(e'.trackers, pair) == t.totals && PositionFor(e'.trackers, pair) == t.position
               case Reset(_) => TotalsFor(e'.trackers, pair) == NO_TOTALS && PositionFor(e'.trackers, pair) == NO_POSITION
  {
    match input {
      case TradeIn(trade, _) =>
        var own := trade.terms.pair;
        ReplaceTracker(e.trackers, own, Tracker(own, NO_TOTALS, NO_POSITION), pair);
        var t := TakeTrade(WithTracker(e.trackers, own)[TrackerIndexIn(e.trackers, own)], trade, e.prices).value;
        ReplaceTracker(e.trackers, own, t, pair);
      case PriceIn(symbol, price) =>
        ReplaceTracker(e.trackers, symbol, Tracker(symbol, NO_TOTALS, NO_POSITION), pair);
        var t := Mark(WithTracker(e.trackers, symbol)[TrackerIndexIn(e.trackers, symbol)], e.prices[symbol := price], false).value;
        ReplaceTracker(e.trackers, symbol, t, pair);
      case Tick(_) =>
      case Reset(_) =>
    }
  }

  function PricesAfter(inputs: seq<Input>): Prices {
    if inputs == [] then map[]
    else if Last(inputs).PriceIn? then PricesAfter(Front(inputs))[Last(inputs).symbol := Last(inputs).price]
    else PricesAfter(Front(inputs))
  }

  /** A completed trade of the pair or a price of its own symbol, with the prices it needs at hand. */
  predicate Marks(inputs: seq<Input>, pair: string)
    requires inputs != []
  {
    && |pair| >= 3
    && (|| (Last(inputs).TradeIn? && Last(inputs).trade.terms.pair == pair && Last(inputs).trade.status == Done)
        || (Last(inputs).PriceIn? && Last(inputs).symbol == pair))
    && Marked(pair, PricesAfter(inputs))
  }

  /** The closed form at the last input that marked the pair. */
  function LastReport(inputs: seq<Input>, pair: string): Position {
    if inputs == [] || Last(inputs).Reset? then NO_POSITION
    else if Marks(inputs, pair) then
      match Report(pair, TotalsOf(TradesIn(inputs), pair), PricesAfter(inputs), Last(inputs).TradeIn?)
      case Some(position) => position
      case None => NO_POSITION
    else LastReport(Front(inputs), pair)
  }

  lemma TradesInStep(inputs: seq<Input>, pair: string)
    requires inputs != []
    ensures TotalsOf(TradesIn(inputs), pair) ==
            match Last(inputs)
            case TradeIn(trade, _) =>
              if trade.status == Done && trade.terms.pair == pair then AddTrade(TotalsOf(TradesIn(Front(inputs)), pair), trade)
              else TotalsOf(TradesIn(Front(inputs)), pair)
            case Reset(_) => NO_TOTALS
            case _ => TotalsOf(TradesIn(Front(inputs)), pair)
  {
    var prior := TradesIn(Front(inputs));
    if Last(inputs).TradeIn? && Last(inputs).trade.status == Done {
      assert Front(prior + [Last(inputs).trade]) == prior;
    } else {
      assert prior + [] == prior;
    }
  }

  lemma {:induction false} EnginePrices(inputs: seq<Input>)
    requires !RunEngine(inputs).failed
    ensures RunEngine(inputs).prices == PricesAfter(inputs)
  {
    if inputs != [] {
      EnginePrices(Front(inputs));
    }
  }

  /** While nothing throws, each tracker holds the signed sums and the count of the completed trades of its
      pair since the last reset, and reports the closed form of these sums as they were at the last trade
      or price that found its prices. */
  lemma {:induction false} EngineTotals(inputs: seq<Input>, pair: string)
    requires !RunEngine(inputs).failed
    ensures OneEach(RunEngine(inputs).trackers)
    ensures TotalsFor(RunEngine(inputs).trackers, pair) == TotalsOf(TradesIn(inputs), pair)
    ensures AreTheSums(TotalsFor(RunEngine(inputs).trackers, pair), TradesIn(inputs), pair)
    ensures PositionFor(RunEngine(inputs).trackers, pair) == LastReport(inputs, pair)
  {
    if inputs != [] {
      EngineTotals(Front(inputs), pair);
      TotalsStep(inputs, pair);
    }
    TotalsAreTheSums(TradesIn(inputs), pair);
  }

  lemma TotalsStep(inputs: seq<Input>, pair: string)
    requires inputs != [] && !RunEngine(inputs).failed
    requires var e := RunEngine(Front(inputs));
             && OneEach(e.trackers)
             && TotalsFor(e.trackers, pair) == TotalsOf(TradesIn(Front(inputs)), pair)
             && PositionFor(e.trackers, pair) == LastReport(Front(inputs), pair)
    ensures var e := RunEngine(inputs);
            && OneEach(e.trackers)
            && TotalsFor(e.trackers, pair) == TotalsOf(TradesIn(inputs), pair)
            && PositionFor(e.trackers, pair) == LastReport(inputs, pair)
  {
    EnginePrices(Front(inputs));
    EnginePrices(inputs);
    HandleTracker(RunEngine(Front(inputs)), Last(inputs), pair);
    TradesInStep(inputs, pair);
    LastReportStep(inputs, pair);
  }

  /** When the last report changes. */
  lemma LastReportStep(inputs: seq<Input>, pair: string)
    requires inputs != []
    ensures LastReport(inputs, pair) ==
            if Last(inputs).Reset? then NO_POSITION
            else if Marks(inputs, pair) then
              var r := Report(pair, TotalsOf(TradesIn(inputs), pair), PricesAfter(inputs), Last(inputs).TradeIn?);
              if r.Some? then r.value else NO_POSITION
            else LastReport(Front(inputs), pair)
  {
  }

  // ----- exactly when a handler throws -----

  function PairOf(input: Input): string
    requires input.TradeIn? || input.PriceIn?
  {
    if input.TradeIn? then input.trade.terms.pair else input.symbol
  }

  /** The last input names a pair too short for a tracker, or marks one at a side price of zero. */
  predicate Throws(inputs: seq<Input>)
    requires inputs != []
  {
    (Last(inputs).TradeIn? || Last(inputs).PriceIn?) &&
    var pair := PairOf(Last(inputs));
    || |pair| < 3
    || (Marks(inputs, pair) && SideOf(PricesAfter(inputs)[pair], TotalsOf(TradesIn(inputs), pair).base >= 0.0) == 0.0)
  }

  predicate EverThrows(inputs: seq<Input>) {
    inputs != [] && (EverThrows(Front(inputs)) || Throws(inputs))
  }

  lemma {:induction false} HandleThrows(inputs: seq<Input>)
    requires inputs != [] && !RunEngine(Front(inputs)).failed
    ensures RunEngine(inputs).failed <==> Throws(inputs)
  {
    var e, input := RunEngine(Front(inputs)), Last(inputs);
    EnginePrices(Front(inputs));
    if input.TradeIn? || input.PriceIn? {
      var pair := PairOf(input);
      EngineTotals(Front(inputs), pair);
      TradesInStep(inputs, pair);
      if |pair| >= 3 {
        ReplaceTracker(e.trackers, pair, Tracker(pair, NO_TOTALS, NO_POSITION), pair);
      }
    }
  }

  /** A run of the engine fails if and only if some input names a pair of less than three letters or marks
      one at a side price of zero. */
  lemma {:induction false} FailsExactly(inputs: seq<Input>)
    ensures RunEngine(inputs).failed <==> EverThrows(inputs)
  {
    if inputs != [] {
      FailsExactly(Front(inputs));
      if !RunEngine(Front(inputs)).failed {
        HandleThrows(inputs);
      }
    }
  }

  // ----- the history -----

  /** What handling an input, ending in state e, adds to the list of publications. */
  function Record(log: seq<Point>, e: Engine, input: Input): seq<Point> {
    if e.failed then log
    else
      match input
      case TradeIn(_, now) => log + [Point(now, UsdPnl(e.trackers))]
      case PriceIn(_, _) => log
      case Tick(now) => log + [Point(now, UsdPnl(e.trackers))]
      case Reset(now) => [Point(now, 0.0)]
  }

  /** Every publication since the engine started or was last reset. */
  function PublishLog(inputs: seq<Input>): seq<Point> {
    if inputs == [] then [] else Record(PublishLog(Front(inputs)), RunEngine(inputs), Last(inputs))
  }

  predicate Ordered(points: seq<Point>) {
    forall i, j :: 0 <= i < j < |points| ==> points[i].time <= points[j].time
  }

  lemma {:induction false} WithinTwice(points: seq<Point>, early: int, late: int)
    requires early <= late
    ensures Within(Within(points, early), late) == Within(points, late)
  {
    if points != [] {
      WithinTwice(Front(points), early, late);
      var w := Within(Front(points), early);
      if Last(points).time >= early {
        assert Front(w + [Last(points)]) == w;
      } else {
        assert w + [] == w;
      }
    }
  }

  lemma {:induction false} WithinKeepsOrder(points: seq<Point>, from: int)
    requires Ordered(points)
    ensures Ordered(Within(points, from))
    ensures forall x :: x in Within(points, from) ==> x in points && x.time >= from
  {
    if points != [] {
      WithinKeepsOrder(Front(points), from);
    }
  }

  /** What one input does to the history. */
  lemma HandleHistory(e: Engine, input: Input)
    ensures var e' := Handle(e, input);
            if e'.failed then e'.history == e.history
            else
              match input
              case TradeIn(_, now) => e'.history == Within(e.history, now - WINDOW_LENGTH) + [Point(now, UsdPnl(e'.trackers))]
              case PriceIn(_, _) => e'.history == e.history
              case Tick(now) => e'.history == Within(e.history, now - WINDOW_LENGTH) + [Point(now, UsdPnl(e'.trackers))]
              case Reset(now) => e'.history == [Point(now, 0.0)]
  {
  }

  /** The history is the last 15 minutes of the publications. */
  predicate IsWindow(log: seq<Point>, h: seq<Point>) {
    if log == [] then h == [] else h == Within(log, Last(log).time - WINDOW_LENGTH)
  }

  lemma WindowStep(log: seq<Point>, before: seq<Point>, h: seq<Point>)
    requires log != [] && log == before + [Last(log)] && Ordered(log)
    requires if before == [] then h == [] else h == Within(before, Last(before).time - WINDOW_LENGTH)
    ensures Within(h, Last(log).time - WINDOW_LENGTH) + [Last(log)] == Within(log, Last(log).time - WINDOW_LENGTH)
  {
    assert Front(log) == before;
    if before != [] {
      assert log[|before| - 1] == Last(before);
      WithinTwice(before, Last(before).time - WINDOW_LENGTH, Last(log).time - WINDOW_LENGTH);
    }
  }

  lemma HandleKeepsWindow(e: Engine, input: Input, log: seq<Point>)
    requires var log' := Record(log, Handle(e, input), input);
             Ordered(log') && (Ordered(log) ==> IsWindow(log, e.history))
    ensures IsWindow(Record(log, Handle(e, input), input), Handle(e, input).history)
  {
    HandleHistory(e, input);
    var e' := Handle(e, input);
    var log' := Record(log, e', input);
    if log' == log {
      if input.Reset? && !e'.failed {
        assert Front(log') == [];
      }
    } else if input.Reset? {
      assert Front(log') == [];
    } else {
      assert log' == log + [Last(log')];
      OrderedFront(log, Last(log'));
      WindowStep(log', log, e.history);
    }
  }

  lemma OrderedFront(log: seq<Point>, x: Point)
    requires Ordered(log + [x])
    ensures Ordered(log)
  {
    forall i, j | 0 <= i < j < |log| ensures log[i].time <= log[j].time {
      assert (log + [x])[i] == log[i] && (log + [x])[j] == log[j];
    }
  }

  lemma {:induction false} WindowInEveryRun(inputs: seq<Input>)
    ensures Ordered(PublishLog(inputs)) ==> IsWindow(PublishLog(inputs), RunEngine(inputs).history)
  {
    if inputs != [] {
      WindowInEveryRun(Front(inputs));
      if Ordered(PublishLog(inputs)) {
        HandleKeepsWindow(RunEngine(Front(inputs)), Last(inputs), PublishLog(Front(inputs)));
      }
    }
  }

  /** What is left is the end of the log from the first point that is not older than 15 minutes. */
  ghost predicate IsLastQuarter(log: seq<Point>, h: seq<Point>)
    requires log != []
  {
    && Ordered(h) && h != [] && Last(h) == Last(log)
    && |h| <= |log| && h == log[|log| - |h|..]
    && forall i :: 0 <= i < |log| ==> (log[i].time >= Last(log).time - 900000 <==> |log| - |h| <= i)
  }

  /** With a clock that does not run backwards, pruning at every publication gives the whole publish log
      of the last 15 minutes: in time order, ending with the point just published. */
  lemma HistoryIsTheWindow(inputs: seq<Input>)
    requires Ordered(PublishLog(inputs)) && PublishLog(inputs) != []
    ensures IsLastQuarter(PublishLog(inputs), RunEngine(inputs).history)
  {
    WindowInEveryRun(inputs);
    WindowIsOrdered(PublishLog(inputs), RunEngine(inputs).history);
  }

  lemma WindowIsOrdered(log: seq<Point>, h: seq<Point>)
    requires log != [] && Ordered(log) && IsWindow(log, h)
    ensures IsLastQuarter(log, h)
  {
    WithinKeepsOrder(log, Last(log).time - WINDOW_LENGTH);
    WithinIsTheEnd(log, Last(log).time - WINDOW_LENGTH);
  }

  lemma {:induction false} WithinIsTheEnd(log: seq<Point>, from: int)
    requires Ordered(log)
    ensures var n := |log| - |Within(log, from)|;
            && 0 <= n && Within(log, from) == log[n..]
            && forall i :: 0 <= i < |log| ==> (log[i].time >= from <==> n <= i)
  {
    if log != [] {
      WithinIsTheEnd(Front(log), from);
      var n := |Front(log)| - |Within(Front(log), from)|;
      if Last(log).time >= from {
        assert log[n..] == Front(log)[n..] + [Last(log)];
      } else {
        assert forall i :: 0 <= i < |log| - 1 ==> log[i] == Front(log)[i] && log[i].time <= Last(log).time;
        assert n == |log| - 1;
        assert log[|log|..] == [];
      }
    }
  }
}
