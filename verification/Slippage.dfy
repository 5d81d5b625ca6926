/** Volume-weighted prices and slippage of depth walks. */
module Slippage {
  import opened Money
  import opened Walking

  datatype WalkResult = WalkResult(
    side: Side,
    requested: real,
    filled: real,
    quote: real,
    avg: real,
    reference: real,
    slippage: real,
    levels: nat,
    fullyFilled: bool,
    last: real,
    depth: real)

  /** Adverse deviation of `avg` from the top of the book, in percent. */
  function SlipPct(side: Side, reference: real, avg: real): real {
    if side.Buy? then Pct(avg - reference, reference) else Pct(reference - avg, reference)
  }

  /** What a walk of `x` base on one side reports. */
  function WalkOf(side: Side, b: seq<Level>, x: real): WalkResult {
    if b == [] then WalkResult(side, x, 0.0, 0.0, 0.0, 0.0, 0.0, 0, false, 0.0, 0.0)
    else
      var s := Taken(b, x);
      var avg := if s.base > 0.0 then s.quote / s.base else 0.0;
      var slip := if s.base > 0.0 then SlipPct(side, b[0].price, avg) else 0.0;
      WalkResult(side, x, s.base, s.quote, avg, b[0].price, Max(0.0, slip), s.levels,
                 x - s.base <= 0.0, LastPrice(b, s.levels), Depth(b))
  }

  function LastPrice(b: seq<Level>, levels: nat): real
    requires b != []
  {
    if 0 < levels <= |b| then b[levels - 1].price else b[0].price
  }

  /** Average price of the first `x` base. */
  function Vwap(b: seq<Level>, x: real): real
    requires x > 0.0
  {
    Taken(b, x).quote / x
  }

  // --- the average price only gets worse --------------------------------------------------

  /** What is left after a walk starts no better than the book did, and only gets worse. */
  lemma {:induction false} ConsumedTop(b: seq<Level>, x: real)
    requires PositiveAmounts(b) && Sorted(Buy, b) && 0.0 <= x < Depth(b)
    ensures Consumed(b, x) != []
    ensures AtLeast(Consumed(b, x), Consumed(b, x)[0].price)
    ensures b[0].price <= Consumed(b, x)[0].price
  {
    if 0.0 < x && b[0].amount <= x { ConsumedTop(b[1..], x - b[0].amount); }
  }

  /** Everything taken before a level costs no more than that level's price. */
  lemma {:induction false} TakenAtMost(b: seq<Level>, x: real)
    requires PositiveAmounts(b) && Sorted(Buy, b) && 0.0 <= x < Depth(b)
    ensures Consumed(b, x) != []
    ensures Taken(b, x).quote <= Consumed(b, x)[0].Quote(x)
  {
    hide Level.Quote;
    ConsumedTop(b, x);
    var a, rest := b[0].amount, b[1..];
    if x <= 0.0 {
      QuoteAtMost(b[0], 0.0, b[0].price);
      QuoteAtLeast(b[0], 0.0, b[0].price);
    } else if a <= x {
      TakenAtMost(rest, x - a);
      WholeLevelAtMost(b[0], x, Taken(rest, x - a).quote, Consumed(rest, x - a)[0]);
    } else {
      assert Taken(rest, 0.0) == Sweep(0.0, 0.0, 0);
      SamePrice(b[0], Consumed(b, x)[0], x);
    }
  }

  lemma SamePrice(l: Level, m: Level, base: real)
    requires l.price == m.price
    ensures l.Quote(base) == m.Quote(base)
  {
  }

  lemma WholeLevelAtMost(l: Level, x: real, restQuote: real, top: Level)
    requires l.price <= top.price && 0.0 <= l.amount && restQuote <= top.Quote(x - l.amount)
    ensures l.Quote(l.amount) + restQuote <= top.Quote(x)
  {
    var rest := x - l.amount;
    MulMono(l.price, top.price, l.amount);
    Distribute(l.amount, rest, top.price);
    assert l.amount + rest == x;
  }

  lemma QuoteAtMost(l: Level, base: real, p: real)
    requires l.price <= p && base >= 0.0
    ensures l.Quote(base) <= base * p
  {
    MulMono(l.price, p, base);
  }

  /** The average price of asks never falls as the walk gets longer, across and inside levels. */
  lemma VwapBuyMonotone(b: seq<Level>, x: real, y: real)
    requires PositiveAmounts(b) && Sorted(Buy, b) && 0.0 < x <= y <= Depth(b)
    ensures Vwap(b, x) <= Vwap(b, y)
  {
    hide Taken, Consumed;
    if x < y {
      ConsumedTop(b, x);
      TakenAtMost(b, x);
      var c := Consumed(b, x);
      var p, d, cx := c[0].price, y - x, Taken(b, x).quote;
      ConsumedBook(Buy, b, x);
      assert x + d == y;
      TakenComposes(b, x, d);
      TakenFills(c, d);
      TakenAtLeast(c, d, p);
      AverageGrows(cx, x, Taken(c, d).quote, d, p);
    }
  }

  lemma AverageGrows(cx: real, x: real, cd: real, d: real, p: real)
    requires 0.0 < x && 0.0 < d && cx <= x * p && d * p <= cd
    ensures cx / x <= (cx + cd) / (x + d)
  {
    MulMono(cx, x * p, d);
    MulMono(d * p, cd, x);
    assert x * p * d == d * p * x;
    assert cx * (x + d) <= (cx + cd) * x by {
      assert cx * (x + d) == cx * x + cx * d;
      assert (cx + cd) * x == cx * x + cd * x;
    }
    DivCross(cx, x, cx + cd, x + d);
  }

  /** On either side the average price only moves away from the top of the book. */
  lemma VwapMonotone(side: Side, b: seq<Level>, x: real, y: real)
    requires PositiveAmounts(b) && Sorted(side, b) && 0.0 < x <= y <= Depth(b)
    ensures side.Buy? ==> Vwap(b, x) <= Vwap(b, y)
    ensures side.Sell? ==> Vwap(b, x) >= Vwap(b, y)
  {
    hide Taken, Consumed;
    if side.Buy? {
      VwapBuyMonotone(b, x, y);
    } else {
      MirrorTaken(b, x);
      MirrorTaken(b, y);
      VwapBuyMonotone(Mirror(b), x, y);
      NegatedQuotient(Taken(b, x).quote, x);
      NegatedQuotient(Taken(b, y).quote, y);
    }
  }

  lemma NegatedQuotient(a: real, b: real)
    requires b > 0.0
    ensures (-a) / b == -(a / b)
  {
  }

  /** Slippage of the first `x` base, before the clamp at 0. */
  function SlipAt(side: Side, b: seq<Level>, x: real): real
    requires b != [] && x > 0.0
  {
    SlipPct(side, b[0].price, Vwap(b, x))
  }

  lemma SlipMonotone(side: Side, b: seq<Level>, x: real, y: real)
    requires PositiveAmounts(b) && PositivePrices(b) && Sorted(side, b) && 0.0 < x <= y <= Depth(b)
    ensures SlipAt(side, b, x) <= SlipAt(side, b, y)
  {
    hide Vwap;
    VwapMonotone(side, b, x, y);
    var p := b[0].price;
    if side.Buy? { DivMono(Vwap(b, x) - p, Vwap(b, y) - p, p); }
    else { DivMono(p - Vwap(b, x), p - Vwap(b, y), p); }
  }

  lemma Cancel(q: real, x: real, p: real)
    requires x > 0.0 && q == x * p
    ensures q / x == p
  {
    assert (q / x - p) * x == 0.0;
  }

  /** A walk inside the first level has no slippage; every other walk has some or none, never less. */
  lemma SlipNonNeg(side: Side, b: seq<Level>, x: real)
    requires PositiveAmounts(b) && PositivePrices(b) && Sorted(side, b) && 0.0 < x <= Depth(b)
    ensures SlipAt(side, b, x) >= 0.0
    ensures x <= b[0].amount ==> SlipAt(side, b, x) == 0.0
  {
    var first := Min(x, b[0].amount);
    DepthNonNeg(b);
    assert Taken(b[1..], 0.0) == Sweep(0.0, 0.0, 0);
    assert Taken(b, first).quote == first * b[0].price;
    Cancel(Taken(b, first).quote, first, b[0].price);
    assert Vwap(b, first) == b[0].price;
    assert SlipAt(side, b, first) == 0.0;
    SlipMonotone(side, b, first, x);
  }

  /** A walk of no more than the depth fills completely and reports exactly `SlipAt`. */
  lemma WalkReports(side: Side, b: seq<Level>, x: real)
    requires PositiveAmounts(b) && PositivePrices(b) && Sorted(side, b) && 0.0 < x <= Depth(b)
    ensures var w := WalkOf(side, b, x);
            w.fullyFilled && w.filled == x && w.avg == Vwap(b, x) && w.slippage == SlipAt(side, b, x)
  {
    hide Taken;
    TakenFills(b, x);
    SlipNonNeg(side, b, x);
  }

  // --- largest size within a slippage limit ---------------------------------------------------

  /** Number of whole levels the search accepts, starting at level `k` with the totals so far. */
  function Accepted(side: Side, b: seq<Level>, limit: real, k: nat, base: real, quote: real): (n: nat)
    requires k <= |b| && base >= 0.0 && PositiveAmounts(b) && b != []
    ensures k <= n <= |b|
    decreases |b| - k
  {
    if k == |b| then k
    else
      var base', quote' := base + b[k].amount, quote + b[k].Quote(b[k].amount);
      if SlipPct(side, b[0].price, quote' / base') > limit then k
      else Accepted(side, b, limit, k + 1, base', quote')
  }

  /** Whole levels within the limit, counted from the top. */
  function AcceptedLevels(side: Side, b: seq<Level>, limit: real): (n: nat)
    requires PositiveAmounts(b)
    ensures n <= |b|
  {
    if b == [] then 0 else Accepted(side, b, limit, 0, 0.0, 0.0)
  }

  /** The size the search returns: the depth of the accepted levels. */
  function MaxSize(side: Side, b: seq<Level>, limit: real): real
    requires PositiveAmounts(b)
  {
    Depth(b[..AcceptedLevels(side, b, limit)])
  }

  lemma {:induction false} PrefixGrows(b: seq<Level>, k: nat)
    requires k < |b|
    ensures Depth(b[..k+1]) == Depth(b[..k]) + b[k].amount
    ensures Value(b[..k+1]) == Value(b[..k]) + b[k].Quote(b[k].amount)
  {
    hide Level.Quote;
    if k == 0 {
      assert b[..1][1..] == [];
    } else {
      PrefixGrows(b[1..], k - 1);
      assert b[..k+1][1..] == b[1..][..k];
      assert b[..k][1..] == b[1..][..k-1];
    }
  }

  lemma {:induction false} PrefixDepth(b: seq<Level>, j: nat, k: nat)
    requires PositiveAmounts(b) && j <= k <= |b|
    ensures 0.0 <= Depth(b[..j]) <= Depth(b[..k]) <= Depth(b)
    ensures 0 < j ==> Depth(b[..j]) > 0.0
    ensures j < k ==> Depth(b[..j]) < Depth(b[..k])
    decreases k - j, |b| - k
  {
    DepthNonNeg(b[..j]);
    assert b[..|b|] == b;
    if j < k {
      PrefixGrows(b, j);
      PrefixDepth(b, j + 1, k);
    } else if k < |b| {
      PrefixGrows(b, k);
      PrefixDepth(b, k + 1, k + 1);
    }
  }

  lemma PrefixTail(b: seq<Level>, k: nat)
    requires 0 < k <= |b|
    ensures b[..k][1..] == b[1..][..k-1] && b[..k][0] == b[0]
  {
  }

  /** Walking exactly a whole-level prefix pays that prefix's value. */
  lemma {:induction false} TakenPrefix(b: seq<Level>, k: nat)
    requires PositiveAmounts(b) && k <= |b|
    ensures Taken(b, Depth(b[..k])).quote == Value(b[..k])
  {
    hide Level.Quote;
    PrefixDepth(b, k, |b|);
    if k > 0 {
      PrefixTail(b, k);
      PrefixDepth(b[1..], k - 1, |b| - 1);
      TakenPrefix(b[1..], k - 1);
    }
  }

  /** Slippage of the first `k` whole levels. */
  function PrefixSlip(side: Side, b: seq<Level>, k: nat): real
    requires 0 < k <= |b| && PositiveAmounts(b)
  {
    PrefixDepth(b, k, |b|);
    SlipAt(side, b, Depth(b[..k]))
  }

  lemma {:induction false} AcceptedStops(side: Side, b: seq<Level>, limit: real, k: nat)
    requires PositiveAmounts(b) && b != [] && k <= |b|
    requires 0.0 <= Depth(b[..k])
    ensures var n := Accepted(side, b, limit, k, Depth(b[..k]), Value(b[..k]));
            && (forall j | k < j <= n :: PrefixSlip(side, b, j) <= limit)
            && (n < |b| ==> PrefixSlip(side, b, n + 1) > limit)
    decreases |b| - k
  {
    if k < |b| {
      hide Level.Quote, Taken;
      PrefixGrows(b, k);
      PrefixDepth(b, k, k + 1);
      TakenPrefix(b, k + 1);
      if PrefixSlip(side, b, k + 1) <= limit { AcceptedStops(side, b, limit, k + 1); }
    }
  }

  /** Every size up to the result fills completely within the limit. */
  lemma MaxSizeIsSafe(side: Side, b: seq<Level>, limit: real, s: real)
    requires PositiveAmounts(b) && PositivePrices(b) && Sorted(side, b)
    requires 0.0 < s <= MaxSize(side, b, limit)
    ensures WalkOf(side, b, s).fullyFilled && WalkOf(side, b, s).slippage <= limit
  {
    hide WalkOf, SlipAt;
    var n := AcceptedLevels(side, b, limit);
    PrefixDepth(b, n, |b|);
    assert b[..0] == [];
    assert n > 0;
    AcceptedStops(side, b, limit, 0);
    assert PrefixSlip(side, b, n) <= limit;
    SlipMonotone(side, b, s, Depth(b[..n]));
    WalkReports(side, b, s);
  }

  /** The early break is complete: no longer whole-level prefix is within the limit. */
  lemma MaxSizeStopsRight(side: Side, b: seq<Level>, limit: real, k: nat)
    requires PositiveAmounts(b) && PositivePrices(b) && Sorted(side, b)
    requires 0 < k <= |b|
    ensures PrefixSlip(side, b, k) <= limit <==> k <= AcceptedLevels(side, b, limit)
  {
    hide SlipAt, Taken;
    var n := AcceptedLevels(side, b, limit);
    assert b[..0] == [];
    AcceptedStops(side, b, limit, 0);
    if k > n {
      PrefixDepth(b, n + 1, k);
      PrefixDepth(b, k, |b|);
      SlipMonotone(side, b, Depth(b[..n+1]), Depth(b[..k]));
    }
  }
}
