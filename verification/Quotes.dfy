/** What a quoted price is, told in ticks: one decimal digit more makes the tick ten times finer, and a
    quote is the exact price cut towards zero to a whole tick. */
module Quotes {
  import opened Prelude
  import opened Pricing

  /** One unit of the last quoted digit. */
  function Tick(precision: nat): (t: real)
    ensures 0.0 < t <= 1.0
  {
    if precision == 0 then 1.0 else Tick(precision - 1) / 10.0
  }

  lemma TimesTen(a: real, b: real)
    ensures (10.0 * a) * (b / 10.0) == a * b
  {
  }

  lemma {:induction false} TickIsInverse(precision: nat)
    ensures Power(precision) * Tick(precision) == 1.0
  {
    if precision > 0 {
      TickIsInverse(precision - 1);
      TimesTen(Power(precision - 1), Tick(precision - 1));
    }
  }

  /** v is x without what is beyond the last whole unit, towards zero. */
  ghost predicate IsCut(v: real, x: real, unit: real) {
    && (exists k: int :: Whole(k, unit) == v)
    && if x >= 0.0 then v <= x < v + unit else v - unit < x <= v
  }

  function Whole(k: int, unit: real): real {
    k as real * unit
  }

  predicate Fits(v: real, unit: real) {
    Whole(-0x8000_0000, unit) <= v <= Whole(0x7fff_ffff, unit)
  }

  ghost predicate IsQuoted(v: real, x: real, unit: real) {
    IsCut(v, x, unit) && Fits(v, unit)
  }

  // ----- arithmetic -----

  lemma Inverse(p: real, t: real, x: real)
    requires p * t == 1.0 && p >= 1.0
    ensures x / p == x * t && (x * p) * t == x
  {
    var q := x / p;
    assert q * p == x;
    assert q * (p * t) == x * t;
    assert x * (p * t) == (x * p) * t;
  }

  lemma ScaleUp(x: real, y: real, t: real)
    requires t > 0.0
    ensures x <= y <==> x * t <= y * t
    ensures x < y <==> x * t < y * t
  {
    assert (y - x) * t == y * t - x * t;
    if x < y {
      assert (y - x) * t > 0.0;
    } else if x > y {
      assert (x - y) * t > 0.0;
    }
  }

  /** k is y without its fraction. */
  ghost predicate IsWholePart(k: int, y: real) {
    if y >= 0.0 then k as real <= y < k as real + 1.0 else k as real - 1.0 < y <= k as real
  }

  lemma TruncatedIsWholePart(k: int, y: real)
    ensures IsWholePart(k, y) <==> k == Truncated(y)
  {
  }

  /** Cutting y = x * p to a whole number is cutting x to a whole tick. */
  lemma CutInTicks(k: int, x: real, y: real, t: real)
    requires t > 0.0 && y * t == x
    ensures IsWholePart(k, y) <==> IsCut(Whole(k, t), x, t)
  {
    ScaleUp(0.0, y, t);
    CutScaled(k as real, k as real + 1.0, x, y, t);
    CutScaled(k as real - 1.0, k as real, x, y, t);
    OneMore(k as real, t);
  }

  lemma OneMore(r: real, t: real)
    ensures (r + 1.0) * t == r * t + t && (r - 1.0) * t == r * t - t
  {
  }

  lemma CutScaled(low: real, high: real, x: real, y: real, t: real)
    requires t > 0.0 && y * t == x
    ensures low <= y < high <==> low * t <= x < high * t
    ensures low < y <= high <==> low * t < x <= high * t
  {
    ScaleUp(low, y, t);
    ScaleUp(y, high, t);
  }

  lemma WholeOrder(i: int, j: int, t: real)
    requires t > 0.0
    ensures i <= j <==> Whole(i, t) <= Whole(j, t)
  {
    ScaleUp(i as real, j as real, t);
  }

  // ----- what a quoted price is -----

  lemma TicksTimesTick(precision: nat, x: real)
    ensures InTicks(precision, x) * Tick(precision) == x
  {
    TickIsInverse(precision);
    Inverse(Power(precision), Tick(precision), x);
  }

  lemma CutExactly(precision: nat, x: real, k: int)
    ensures IsCut(Whole(k, Tick(precision)), x, Tick(precision)) <==> k == Ticks(precision, x)
  {
    TicksTimesTick(precision, x);
    TruncatedIsWholePart(k, InTicks(precision, x));
    CutInTicks(k, x, InTicks(precision, x), Tick(precision));
  }

  lemma DividedIsWhole(k: int, p: real, t: real)
    requires p * t == 1.0 && p >= 1.0
    ensures k as real / p == Whole(k, t)
  {
    Inverse(p, t, k as real);
  }

  lemma {:induction false} FormatInTicks(precision: nat, x: real)
    ensures var k := Ticks(precision, x);
            Format(precision, x) == if -0x8000_0000 <= k <= 0x7fff_ffff then Some(Whole(k, Tick(precision))) else None
  {
    assert Ticks(precision, x) as real / Power(precision) == Whole(Ticks(precision, x), Tick(precision)) by {
      TickIsInverse(precision);
      DividedIsWhole(Ticks(precision, x), Power(precision), Tick(precision));
    }
  }

  /** A price is quoted as v exactly when v is the price cut towards zero to a whole tick, and that many
      ticks fit 32 bits. */
  lemma QuotedExactly(precision: nat, x: real, v: real)
    ensures Format(precision, x) == Some(v) <==> IsQuoted(v, x, Tick(precision))
  {
    var k, t := Ticks(precision, x), Tick(precision);
    FormatInTicks(precision, x);
    CutExactly(precision, x, k);
    WholeOrder(-0x8000_0000, k, t);
    WholeOrder(k, 0x7fff_ffff, t);
    if IsCut(v, x, t) && Fits(v, t) {
      var j :| Whole(j, t) == v;
      CutExactly(precision, x, j);
    }
  }

  ghost predicate Between(x: real, low: int, high: int, unit: real) {
    Whole(low, unit) < x < Whole(high, unit)
  }

  lemma TruncatedFits(y: real)
    ensures -0x8000_0000 <= Truncated(y) <= 0x7fff_ffff <==> -0x8000_0001 as real < y < 0x8000_0000 as real
  {
  }

  lemma StrictlyBetween(y: real, x: real, low: real, high: real, t: real)
    requires y * t == x && t > 0.0
    ensures low < y < high <==> low * t < x < high * t
  {
    ScaleUp(low, y, t);
    ScaleUp(y, high, t);
  }

  lemma TimesTick(x: real, y: real, t: real)
    requires y * t == x && t > 0.0
    ensures IsInt32(Truncated(y)) <==> Between(x, -0x8000_0001, 0x8000_0000, t)
  {
    TruncatedFits(y);
    StrictlyBetween(y, x, -0x8000_0001 as real, 0x8000_0000 as real, t);
  }

  predicate IsInt32(k: int) {
    -0x8000_0000 <= k <= 0x7fff_ffff
  }

  lemma FormatThrows(precision: nat, x: real)
    ensures Format(precision, x) == None <==> !IsInt32(Ticks(precision, x))
  {
  }

  lemma TicksFit(precision: nat, x: real)
    ensures IsInt32(Ticks(precision, x)) <==> Between(x, -0x8000_0001, 0x8000_0000, Tick(precision))
  {
    TicksTimesTick(precision, x);
    TimesTick(x, InTicks(precision, x), Tick(precision));
  }

  /** Nothing is quoted, as the conversion throws, exactly from one tick beyond the 32-bit range on. */
  lemma {:induction false} ThrowsExactly(precision: nat, x: real)
    ensures Format(precision, x) == None <==> !Between(x, -0x8000_0001, 0x8000_0000, Tick(precision))
  {
    FormatThrows(precision, x);
    TicksFit(precision, x);
  }

  /** With no digits a quote is the whole number towards zero; with one digit more it is a tenth of the quote
      of ten times the price. */
  lemma OneMoreDigit(precision: nat, x: real)
    ensures forall v :: Format(0, x) == Some(v) ==> v == v.Floor as real && if x >= 0.0 then v <= x < v + 1.0 else v - 1.0 < x <= v
    ensures Format(precision + 1, x).Some? <==> Format(precision, 10.0 * x).Some?
    ensures Format(precision + 1, x).Some? ==> Format(precision + 1, x).value == Format(precision, 10.0 * x).value / 10.0
  {
    WholeNumber(x);
    FormatInTicks(precision + 1, x);
    FormatInTicks(precision, 10.0 * x);
    SameTicks(precision, x);
    TenthOf(Ticks(precision, 10.0 * x), Tick(precision));
  }

  lemma WholeNumber(x: real)
    ensures forall v :: Format(0, x) == Some(v) ==> v == v.Floor as real && if x >= 0.0 then v <= x < v + 1.0 else v - 1.0 < x <= v
  {
    TruncatedIsWholePart(Truncated(x), x);
    assert InTicks(0, x) == x;
  }

  lemma SameTicks(precision: nat, x: real)
    ensures Ticks(precision + 1, x) == Ticks(precision, 10.0 * x)
  {
    var p := Power(precision);
    assert x * (10.0 * p) == (10.0 * x) * p;
  }

  lemma TenthOf(k: int, t: real)
    ensures Whole(k, t / 10.0) == Whole(k, t) / 10.0
  {
  }

  // ----- a quote and a walk -----

  /** The three prices of a quote, each cut by itself; the sides are taken from the exact mid. */
  lemma QuoteExactly(w: Walk, mid: real, q: Quote)
    ensures QuoteAt(w, mid) == Some(q) <==>
            && IsQuoted(q.mid, mid, Tick(w.precision))
            && IsQuoted(q.ask, mid + mid * w.halfSpread, Tick(w.precision))
            && IsQuoted(q.bid, mid - mid * w.halfSpread, Tick(w.precision))
  {
    var mid', ask, bid := Format(w.precision, mid), Format(w.precision, Ask(w, mid)), Format(w.precision, Bid(w, mid));
    assert QuoteAt(w, mid) == Some(q) <==> mid' == Some(q.mid) && ask == Some(q.ask) && bid == Some(q.bid) by {
      ThreeFormats(w, mid, q);
    }
    SidesOf(w, mid);
    QuotedExactly(w.precision, mid, q.mid);
    QuotedExactly(w.precision, Ask(w, mid), q.ask);
    QuotedExactly(w.precision, Bid(w, mid), q.bid);
  }

  lemma ThreeFormats(w: Walk, mid: real, q: Quote)
    ensures QuoteAt(w, mid) == Some(q) <==>
            && Format(w.precision, mid) == Some(q.mid) && Format(w.precision, Ask(w, mid)) == Some(q.ask)
            && Format(w.precision, Bid(w, mid)) == Some(q.bid)
  {
  }

  lemma SidesOf(w: Walk, mid: real)
    ensures Ask(w, mid) == mid + mid * w.halfSpread && Bid(w, mid) == mid - mid * w.halfSpread
  {
  }

  /** What a new generator is made of, in ticks: its volatility is so many ticks, and at the initial price its
      sides are the drawn number of ticks away from the mid. */
  lemma NewWalkInTicks(initial: real, precision: nat, reversion: real, volatility: real, ticks: int)
    ensures NewWalk(initial, precision, reversion, volatility, ticks).None? <==> initial == 0.0
    ensures initial != 0.0 ==>
              var w, t := NewWalk(initial, precision, reversion, volatility, ticks).value, Tick(precision);
              && w.initial == initial && w.precision == precision && w.reversion == reversion
              && w.vol == volatility * t && initial * w.halfSpread == Whole(ticks, t)
  {
    TickIsInverse(precision);
    Inverse(Power(precision), Tick(precision), volatility);
    Inverse(Power(precision), Tick(precision), ticks as real);
    if initial != 0.0 {
      Quotient(ticks as real / Power(precision), initial);
    }
  }

  /** What is left of the shocks at the end: each counts less by the same factor for every step after it. */
  function Left(w: Walk, shocks: seq<real>): real {
    if shocks == [] then 0.0 else shocks[0] * w.vol * Decay(w.reversion, |shocks| - 1) + Left(w, shocks[1..])
  }

  lemma {:induction false} LeftSnoc(w: Walk, shocks: seq<real>, x: real)
    ensures Left(w, shocks + [x]) == Pulled(w.reversion, Left(w, shocks)) + x * w.vol
  {
    if shocks == [] {
      assert [x][1..] == [];
      assert shocks + [x] == [x];
    } else {
      var rest := shocks[1..];
      LeftSnoc(w, rest, x);
      assert (shocks + [x])[1..] == rest + [x];
      Distribute(1.0 - w.reversion, shocks[0] * w.vol, Decay(w.reversion, |rest|), Left(w, rest));
    }
  }

  function Pulled(k: real, d: real): real {
    (1.0 - k) * d
  }

  lemma Distribute(c: real, a: real, d: real, r: real)
    ensures c * (a * d + r) == a * (c * d) + c * r
  {
  }

  /** The mid in closed form: the initial price and what is left of all shocks. */
  lemma {:induction false} MidIsInitialAndLeft(w: Walk, shocks: seq<real>)
    ensures MidAfter(w, shocks) == w.initial + Left(w, shocks)
  {
    if shocks != [] {
      MidIsInitialAndLeft(w, Front(shocks));
      assert shocks == Front(shocks) + [Last(shocks)];
      LeftSnoc(w, Front(shocks), Last(shocks));
      StepPulls(w, MidAfter(w, Front(shocks)), Left(w, Front(shocks)), Last(shocks));
    }
  }

  lemma StepPulls(w: Walk, mid: real, d: real, x: real)
    requires mid == w.initial + d
    ensures Step(w, mid, x) == w.initial + (Pulled(w.reversion, d) + x * w.vol)
  {
  }
}
