/** The simulated price of a pair: a random walk that is pulled back to where it started, quoted in whole
    ticks. */
module Pricing {
  import opened Prelude

  /** What the generator is made with. The half spread is a fraction of the price. */
  datatype Walk = Walk(initial: real, reversion: real, vol: real, precision: nat, halfSpread: real)

  datatype Quote = Quote(bid: real, mid: real, ask: real)

  function Power(precision: nat): (p: real)
    ensures p >= 1.0
  {
    if precision == 0 then 1.0 else 10.0 * Power(precision - 1)
  }

  /** The half spread is some ticks, drawn from 2 to 15, as a fraction of the initial price. With no initial
      price the division throws and nothing is made. */
  function NewWalk(initial: real, precision: nat, reversion: real, volatility: real, ticks: int): Option<Walk> {
    if initial == 0.0 then None
    else Some(Walk(initial, reversion, volatility / Power(precision), precision, ticks as real / Power(precision) / initial))
  }

  function Step(w: Walk, mid: real, shock: real): real {
    mid + (w.reversion * (w.initial - mid) + shock * w.vol)
  }

  /** The mid after these shocks. */
  function MidAfter(w: Walk, shocks: seq<real>): real {
    if shocks == [] then w.initial else Step(w, MidAfter(w, Front(shocks)), Last(shocks))
  }

  /** A conversion to int drops the fraction, towards zero. */
  function Truncated(x: real): int {
    if x >= 0.0 then x.Floor else -((-x).Floor)
  }

  const INT_MAX := 0x7fff_ffff

  function InTicks(precision: nat, price: real): real {
    price * Power(precision)
  }

  function Ticks(precision: nat, price: real): int {
    Truncated(InTicks(precision, price))
  }

  /** In whole ticks; None where the conversion overflows. */
  function Format(precision: nat, price: real): Option<real> {
    var ticks := Ticks(precision, price);
    if -INT_MAX - 1 <= ticks <= INT_MAX then Some(ticks as real / Power(precision)) else None
  }

  function Ask(w: Walk, mid: real): real {
    mid * (1.0 + w.halfSpread)
  }

  function Bid(w: Walk, mid: real): real {
    mid * (1.0 - w.halfSpread)
  }

  function QuoteAt(w: Walk, mid: real): Option<Quote> {
    match (Format(w.precision, mid), Format(w.precision, Ask(w, mid)), Format(w.precision, Bid(w, mid)))
    case (Some(m), Some(a), Some(b)) => Some(Quote(b, m, a))
    case _ => None
  }

  /** The quotes for the first shocks, up to one that overflows. */
  method Sequence(w: Walk, shocks: seq<real>) returns (quotes: seq<Quote>)
    ensures |quotes| <= |shocks|
    ensures forall i :: 0 <= i < |quotes| ==> QuoteAt(w, MidAfter(w, shocks[..i + 1])) == Some(quotes[i])
    ensures |quotes| < |shocks| ==> QuoteAt(w, MidAfter(w, shocks[..|quotes| + 1])) == None
  {
    quotes := [];
    var previousMid := w.initial;
    assert shocks[..0] == [];
    while |quotes| < |shocks|
      invariant |quotes| <= |shocks|
      invariant previousMid == MidAfter(w, shocks[..|quotes|])
      invariant forall i :: 0 <= i < |quotes| ==> QuoteAt(w, MidAfter(w, shocks[..i + 1])) == Some(quotes[i])
      decreases |shocks| - |quotes|
    {
      var n := |quotes|;
      assert Front(shocks[..n + 1]) == shocks[..n];
      previousMid := Step(w, previousMid, shocks[n]);
      match QuoteAt(w, previousMid) {
        case None => return;
        case Some(q) => quotes := quotes + [q];
      }
    }
  }

  // ----- the walk stays near its start -----

  function Abs(x: real): real {
    if x >= 0.0 then x else -x
  }

  predicate Reverts(w: Walk) {
    0.0 < w.reversion <= 1.0 && w.vol >= 0.0
  }

  /** How far shocks of at most this size can carry the mid. */
  function Reach(w: Walk, size: real): real
    requires Reverts(w)
  {
    size * w.vol / w.reversion
  }

  lemma ScaleBound(c: real, d: real, b: real)
    requires c >= 0.0 && Abs(d) <= b
    ensures Abs(c * d) <= c * b
  {
  }

  lemma OneStepStaysNear(w: Walk, size: real, mid: real, shock: real)
    requires Reverts(w) && Abs(shock) <= size && Abs(mid - w.initial) <= Reach(w, size)
    ensures Abs(Step(w, mid, shock) - w.initial) <= Reach(w, size)
  {
    var k, b, d := w.reversion, Reach(w, size), mid - w.initial;
    var pull := (1.0 - k) * d;
    var push := shock * w.vol;
    assert Step(w, mid, shock) - w.initial == pull + push;
    ScaleBound(1.0 - k, d, b);
    ScaleBound(w.vol, shock, size);
    assert k * b == size * w.vol;
    assert (1.0 - k) * b == b - k * b;
  }

  /** For shocks of bounded size the mid stays within reach of the initial price forever. */
  lemma {:induction false} MidStaysNear(w: Walk, size: real, shocks: seq<real>)
    requires Reverts(w) && size >= 0.0
    requires forall i :: 0 <= i < |shocks| ==> Abs(shocks[i]) <= size
    ensures Abs(MidAfter(w, shocks) - w.initial) <= Reach(w, size)
  {
    if shocks == [] {
      assert size * w.vol >= 0.0;
      assert Reach(w, size) >= 0.0;
    } else {
      MidStaysNear(w, size, Front(shocks));
      OneStepStaysNear(w, size, MidAfter(w, Front(shocks)), Last(shocks));
    }
  }

  function Decay(k: real, n: nat): real {
    if n == 0 then 1.0 else (1.0 - k) * Decay(k, n - 1)
  }

  /** The bound is the best there is: under constant shocks the distance grows towards it, and what is
      left shrinks by the same factor at every step. */
  lemma {:induction false} ConstantShocks(w: Walk, size: real, n: nat)
    requires Reverts(w)
    ensures MidAfter(w, seq(n, i => size)) == w.initial + Reach(w, size) * (1.0 - Decay(w.reversion, n))
  {
    var shocks := seq(n, i => size);
    if n > 0 {
      ConstantShocks(w, size, n - 1);
      assert Front(shocks) == seq(n - 1, i => size);
      var k, b, r := w.reversion, Reach(w, size), Decay(w.reversion, n - 1);
      assert k * b == size * w.vol;
      assert MidAfter(w, shocks) == w.initial + b * (1.0 - r) + (k * (w.initial - (w.initial + b * (1.0 - r))) + k * b);
      assert k * (w.initial - (w.initial + b * (1.0 - r))) == -(k * (b * (1.0 - r)));
      assert b * (1.0 - r) - k * (b * (1.0 - r)) + k * b == b * (1.0 - (1.0 - k) * r);
    }
  }

  // ----- truncated quotes -----

  lemma TruncatedMonotone(x: real, y: real)
    requires x <= y
    ensures Truncated(x) <= Truncated(y)
  {
  }

  lemma DivideKeepsOrder(i: int, j: int, p: real)
    requires p > 0.0
    ensures i <= j <==> i as real / p <= j as real / p
  {
  }

  lemma QuoteInTicks(w: Walk, mid: real, q: Quote)
    requires QuoteAt(w, mid) == Some(q)
    ensures var p := Power(w.precision);
            && q.bid == Ticks(w.precision, Bid(w, mid)) as real / p
            && q.mid == Ticks(w.precision, mid) as real / p
            && q.ask == Ticks(w.precision, Ask(w, mid)) as real / p
  {
  }

  lemma Scale(x: real, y: real, p: real)
    requires p > 0.0 && x <= y
    ensures x * p <= y * p
  {
  }

  lemma TicksMonotone(precision: nat, x: real, y: real)
    requires x <= y
    ensures Ticks(precision, x) <= Ticks(precision, y)
  {
    var p := Power(precision);
    Scale(x, y, p);
    var a, b := x * p, y * p;
    TruncatedMonotone(a, b);
  }

  /** Before truncation the sides are in order when the mid is not negative, and inverted otherwise. */
  lemma SidesInOrder(w: Walk, mid: real)
    requires w.halfSpread > 0.0
    ensures mid >= 0.0 ==> Bid(w, mid) <= mid <= Ask(w, mid)
    ensures mid <= 0.0 ==> Ask(w, mid) <= mid <= Bid(w, mid)
  {
  }

  /** After truncation they still are, weakly. */
  lemma TicksInOrder(w: Walk, mid: real)
    requires w.halfSpread > 0.0
    ensures var b, m, a := Ticks(w.precision, Bid(w, mid)), Ticks(w.precision, mid), Ticks(w.precision, Ask(w, mid));
            if mid >= 0.0 then b <= m <= a else a <= m <= b
  {
    SidesInOrder(w, mid);
    if mid >= 0.0 {
      TicksMonotone(w.precision, Bid(w, mid), mid);
      TicksMonotone(w.precision, mid, Ask(w, mid));
    } else {
      TicksMonotone(w.precision, mid, Bid(w, mid));
      TicksMonotone(w.precision, Ask(w, mid), mid);
    }
  }

  lemma OrderOfQuotes(b: int, m: int, a: int, p: real, upright: bool)
    requires p > 0.0 && if upright then b <= m <= a else a <= m <= b
    ensures b as real / p <= m as real / p <= a as real / p <==> upright || a == b
  {
    DivideKeepsOrder(b, m, p);
    DivideKeepsOrder(m, a, p);
  }

  /** Bid, mid and ask are in order exactly when the mid is not negative, or so near to zero that both
      sides fall on the same tick. */
  lemma OrderedExactly(w: Walk, mid: real, q: Quote)
    requires QuoteAt(w, mid) == Some(q) && w.halfSpread > 0.0
    ensures q.bid <= q.mid <= q.ask <==> mid >= 0.0 || Ticks(w.precision, Ask(w, mid)) == Ticks(w.precision, Bid(w, mid))
  {
    var b, m, a := Ticks(w.precision, Bid(w, mid)), Ticks(w.precision, mid), Ticks(w.precision, Ask(w, mid));
    TicksInOrder(w, mid);
    OrderOfQuotes(b, m, a, Power(w.precision), mid >= 0.0);
    QuoteInTicks(w, mid, q);
  }

  /** By how much truncation moves the distance of two prices in ticks. */
  function Miss(x: real, y: real): real {
    Abs((Truncated(x) - Truncated(y)) as real - (x - y))
  }

  /** By how much the quoted spread, in ticks, misses the spread before truncation. */
  function SpreadError(w: Walk, mid: real): real {
    Miss(InTicks(w.precision, Ask(w, mid)), InTicks(w.precision, Bid(w, mid)))
  }

  lemma SmallMiss(x: real, y: real)
    requires x >= 0.0 && y >= 0.0
    ensures Miss(x, y) < 1.0
  {
  }

  lemma FullMiss(x: real, y: real, t: real)
    requires x == t + 0.5 && y == t - 0.5 && 0.0 < t < 0.5
    ensures Miss(x, y) == 1.0
  {
    assert Truncated(x) == 0 && Truncated(y) == 0;
  }

  lemma SidesNotNegative(w: Walk, mid: real)
    requires 0.0 < w.halfSpread <= 1.0 && mid >= 0.0
    ensures InTicks(w.precision, Bid(w, mid)) >= 0.0 && InTicks(w.precision, Ask(w, mid)) >= 0.0
  {
    assert Bid(w, mid) >= 0.0 && Ask(w, mid) >= 0.0;
    Scale(0.0, Bid(w, mid), Power(w.precision));
    Scale(0.0, Ask(w, mid), Power(w.precision));
  }

  lemma SmallSpread(w: Walk, mid: real)
    requires 0.0 < w.halfSpread <= 1.0 && mid >= 0.0
    ensures SpreadError(w, mid) < 1.0
  {
    SidesNotNegative(w, mid);
    SmallMiss(InTicks(w.precision, Ask(w, mid)), InTicks(w.precision, Bid(w, mid)));
  }

  lemma NotNegative(t: real, h: real)
    requires h > 0.0
    ensures t <= 0.0 ==> t * h <= 0.0
  {
  }

  lemma HalfTick(h: real, t: real)
    requires h > 1.0 && t * (2.0 * h) == 1.0
    ensures t * h == 0.5 && 0.0 < t < 0.5
  {
  }

  lemma SidesInTicks(w: Walk, mid: real, t: real)
    requires mid * Power(w.precision) == t && t * w.halfSpread == 0.5
    ensures InTicks(w.precision, Ask(w, mid)) == t + 0.5 && InTicks(w.precision, Bid(w, mid)) == t - 0.5
  {
    SidesScaled(mid, w.halfSpread, Power(w.precision));
  }

  lemma FullTickOff(w: Walk, mid: real, t: real)
    requires mid * Power(w.precision) == t && t * w.halfSpread == 0.5 && 0.0 < t < 0.5
    ensures SpreadError(w, mid) == 1.0
  {
    SidesInTicks(w, mid, t);
    FullMiss(InTicks(w.precision, Ask(w, mid)), InTicks(w.precision, Bid(w, mid)), t);
  }

  lemma LargeSpread(w: Walk)
    requires w.halfSpread > 1.0
    ensures exists mid :: mid >= 0.0 && SpreadError(w, mid) == 1.0
  {
    var p, h := Power(w.precision), w.halfSpread;
    var t := 1.0 / (2.0 * h);
    Quotient(1.0, 2.0 * h);
    HalfTick(h, t);
    var mid := t / p;
    Quotient(t, p);
    NotNegative(mid, p);
    FullTickOff(w, mid, t);
  }

  lemma Quotient(x: real, y: real)
    requires y != 0.0
    ensures x / y * y == x
  {
  }

  lemma SidesScaled(mid: real, h: real, p: real)
    ensures mid * (1.0 + h) * p == mid * p + (mid * p) * h
    ensures mid * (1.0 - h) * p == mid * p - (mid * p) * h
  {
  }

  /** Truncation moves the spread by less than a tick at every price exactly when the half spread is not
      more than the whole price, which is when bids are not negative. */
  lemma SpreadWithinOneTick(w: Walk)
    requires w.halfSpread > 0.0
    ensures (forall mid :: mid >= 0.0 ==> SpreadError(w, mid) < 1.0) <==> w.halfSpread <= 1.0
  {
    if w.halfSpread <= 1.0 {
      forall mid | mid >= 0.0 ensures SpreadError(w, mid) < 1.0 {
        SmallSpread(w, mid);
      }
    } else {
      LargeSpread(w);
    }
  }

  /** For a walk as it is made: when the initial price is at least as many ticks as the half spread. */
  lemma HalfSpreadOfNewWalk(initial: real, precision: nat, reversion: real, volatility: real, ticks: int)
    requires initial > 0.0 && ticks > 0
    ensures var w := NewWalk(initial, precision, reversion, volatility, ticks).value;
            w.halfSpread > 0.0 && (w.halfSpread <= 1.0 <==> ticks as real <= initial * Power(precision))
  {
    FractionOf(ticks as real, Power(precision), initial);
  }

  /** t ticks of size 1/p are at most n exactly when t is at most n * p. */
  lemma FractionOf(t: real, p: real, n: real)
    requires t > 0.0 && p > 0.0 && n > 0.0
    ensures t / p / n > 0.0 && (t / p / n <= 1.0 <==> t <= n * p)
  {
    var u := t / p;
    var h := u / n;
    Quotient(t, p);
    Quotient(u, n);
    NotNegative(u, p);
    NotNegative(h, n);
    ScaleBothWays(u, n, p);
    OneOrLess(h, u, n);
  }

  lemma OneOrLess(h: real, u: real, n: real)
    requires n > 0.0 && h * n == u
    ensures h <= 1.0 <==> u <= n
  {
    assert n - u == n * (1.0 - h);
    if h <= 1.0 {
      assert n * (1.0 - h) >= 0.0;
    } else {
      assert n * (h - 1.0) > 0.0;
    }
  }

  lemma ScaleBothWays(x: real, y: real, p: real)
    requires p > 0.0
    ensures x <= y <==> x * p <= y * p
  {
  }

  /** A walk that cannot reach zero is quoted in order forever. */
  lemma QuotesAreSound(w: Walk, size: real, shocks: seq<real>, q: Quote)
    requires Reverts(w) && size >= 0.0 && w.halfSpread > 0.0
    requires forall i :: 0 <= i < |shocks| ==> Abs(shocks[i]) <= size
    requires Reach(w, size) <= w.initial
    requires QuoteAt(w, MidAfter(w, shocks)) == Some(q)
    ensures q.bid <= q.mid <= q.ask
  {
    MidStaysNear(w, size, shocks);
    OrderedExactly(w, MidAfter(w, shocks), q);
  }

  /** And its spread is quoted within one tick, if bids are not negative. */
  lemma {:induction false} SpreadStaysSound(w: Walk, size: real, shocks: seq<real>)
    requires Reverts(w) && size >= 0.0 && 0.0 < w.halfSpread <= 1.0
    requires forall i :: 0 <= i < |shocks| ==> Abs(shocks[i]) <= size
    requires Reach(w, size) <= w.initial
    ensures SpreadError(w, MidAfter(w, shocks)) < 1.0
  {
    MidStaysNear(w, size, shocks);
    SmallSpread(w, MidAfter(w, shocks));
  }

  /** A mid pushed below zero is quoted with the bid above the ask. */
  lemma NegativeMidIsInverted()
    ensures var w := Walk(1.0, 1.0, 1.0, 0, 0.5);
            Reverts(w) && MidAfter(w, [-5.0]) == -4.0 && QuoteAt(w, -4.0) == Some(Quote(-2.0, -4.0, -6.0))
  {
    var w := Walk(1.0, 1.0, 1.0, 0, 0.5);
    assert Front([-5.0]) == [];
    assert MidAfter(w, []) == 1.0;
    assert Power(0) == 1.0;
  }
}
