/** When `max_size_within_slippage` really returns the largest size, and when it stops short. */
module LargestSize {
  import opened Money
  import opened Walking
  import opened Slippage

  /** The book with prices signed so that it ascends: asks as they are, bids negated. */
  function Signed(side: Side, b: seq<Level>): seq<Level> { if side.Buy? then b else Mirror(b) }

  /** The signed average price at which slippage reaches the limit. */
  function LimitPrice(side: Side, b: seq<Level>, limit: real): real
    requires b != []
  {
    Signed(side, b)[0].price + PctOf(b[0].price, limit)
  }

  lemma SlipAgainstLimit(side: Side, b: seq<Level>, limit: real, x: real)
    requires PositiveAmounts(b) && PositivePrices(b) && Sorted(side, b) && 0.0 < x <= Depth(b)
    ensures var v, t := Vwap(Signed(side, b), x), LimitPrice(side, b, limit);
            && (SlipAt(side, b, x) <= limit <==> v <= t)
            && (SlipAt(side, b, x) == limit <==> v == t)
  {
    assert b != [];
    hide Vwap, SlipPct, Depth, PctOf;
    SignedVwap(side, b, x);
    SignedAgainst(side, b[0].price, Vwap(b, x), limit);
  }

  lemma SignedVwap(side: Side, b: seq<Level>, x: real)
    requires x > 0.0
    ensures Vwap(Signed(side, b), x) == if side.Buy? then Vwap(b, x) else -Vwap(b, x)
  {
    hide Taken, Consumed;
    MirrorTaken(b, x);
    NegatedQuotient(Taken(b, x).quote, x);
  }

  lemma SignedAgainst(side: Side, p: real, avg: real, limit: real)
    requires p > 0.0
    ensures var v, t := if side.Buy? then avg else -avg, (if side.Buy? then p else -p) + PctOf(p, limit);
            && (SlipPct(side, p, avg) <= limit <==> v <= t)
            && (SlipPct(side, p, avg) == limit <==> v == t)
  {
    hide Pct, PctOf;
    PctAgainst(if side.Buy? then avg - p else p - avg, p, limit);
  }

  lemma PctAgainst(part: real, whole: real, limit: real)
    requires whole > 0.0
    ensures Pct(part, whole) <= limit <==> part <= PctOf(whole, limit)
    ensures Pct(part, whole) == limit <==> part == PctOf(whole, limit)
  {
    var ratio := part / whole;
    assert ratio * whole == part;
    ScaledCompare(ratio, limit / 100.0, whole);
    assert limit / 100.0 * whole == whole * limit / 100.0;
  }

  lemma {:induction false} ConsumedPrefix(b: seq<Level>, k: nat)
    requires PositiveAmounts(b) && k <= |b|
    ensures Consumed(b, Depth(b[..k])) == b[k..]
  {
    if k > 0 {
      assert b[..k][1..] == b[1..][..k-1];
      PrefixDepth(b[1..], k - 1, |b| - 1);
      ConsumedPrefix(b[1..], k - 1);
    }
  }

  /** Inside level `k` each further unit costs that level's price. */
  lemma TakenIntoLevel(b: seq<Level>, k: nat, d: real)
    requires PositiveAmounts(b) && k < |b| && 0.0 <= d <= b[k].amount
    ensures Depth(b[..k]) + d <= Depth(b)
    ensures Taken(b, Depth(b[..k]) + d).quote == Taken(b, Depth(b[..k])).quote + b[k].Quote(d)
  {
    hide Level.Quote, Taken, Consumed;
    PrefixDepth(b, k, k + 1);
    PrefixGrows(b, k);
    PrefixDepth(b, k + 1, |b|);
    ConsumedPrefix(b, k);
    TakenComposes(b, Depth(b[..k]), d);
    FirstLevelQuote(b[k..], d);
  }

  lemma FirstLevelQuote(b: seq<Level>, d: real)
    requires b != [] && 0.0 <= d <= b[0].amount
    ensures Taken(b, d).quote == b[0].Quote(d)
  {
    if d > 0.0 { assert Taken(b[1..], 0.0) == Sweep(0.0, 0.0, 0); }
  }

  /** With the limit met exactly, one more unit of a worse level breaks it. */
  lemma ExactLimitIsLargest(b: seq<Level>, k: nat, t: real, s: real)
    requires PositiveAmounts(b) && Sorted(Buy, b) && 0 < k < |b|
    requires 0.0 < Depth(b[..k]) && 0.0 < Depth(b[..k+1])
    requires Vwap(b, Depth(b[..k])) == t < Vwap(b, Depth(b[..k+1]))
    requires Depth(b[..k]) < s <= Depth(b)
    ensures Vwap(b, s) > t
  {
    hide Taken, Consumed, Level.Quote, Depth;
    PrefixGrows(b, k);
    PrefixDepth(b, k + 1, |b|);
    var r, a := Depth(b[..k]), b[k].amount;
    var c := Taken(b, r).quote;
    TakenIntoLevel(b, k, a);
    if s >= r + a {
      VwapBuyMonotone(b, r + a, s);
    } else {
      TakenIntoLevel(b, k, s - r);
      assert r + (s - r) == s;
      WorseLevel(c, r, a, s - r, b[k], t);
    }
  }

  lemma WorseLevel(c: real, r: real, a: real, d: real, l: Level, t: real)
    requires 0.0 < r && 0.0 < d <= a
    requires c / r == t < (c + l.Quote(a)) / (r + a)
    ensures (c + l.Quote(d)) / (r + d) > t
  {
    Divided(c, r);
    Divided(c + l.Quote(a), r + a);
    Divided(c + l.Quote(d), r + d);
    WorsePrice(c, r, a, l.price, t, (c + l.Quote(a)) / (r + a));
    StillWorse(c, r, d, l.price, t, (c + l.Quote(d)) / (r + d));
  }

  lemma WorsePrice(c: real, r: real, a: real, p: real, t: real, v: real)
    requires 0.0 < r && 0.0 < a && t < v
    requires c == t * r && v * (r + a) == c + a * p
    ensures t < p
  {
    MulStrict(t, v, r + a);
    Spread(t, r, a);
    if p <= t { MulMono(p, t, a); }
  }

  lemma StillWorse(c: real, r: real, d: real, p: real, t: real, w: real)
    requires 0.0 < r && 0.0 < d && t < p
    requires c == t * r && w * (r + d) == c + d * p
    ensures t < w
  {
    MulStrict(t, p, d);
    Spread(t, r, d);
    if w <= t { MulMono(w, t, r + d); }
  }

  /** With room left under the limit, part of the next level still fits. */
  lemma RoomInNextLevel(b: seq<Level>, k: nat, t: real) returns (s: real)
    requires PositiveAmounts(b) && 0 < k < |b|
    requires 0.0 < Depth(b[..k]) && 0.0 < Depth(b[..k+1])
    requires Vwap(b, Depth(b[..k])) < t < Vwap(b, Depth(b[..k+1]))
    ensures Depth(b[..k]) < s < Depth(b[..k+1]) <= Depth(b)
    ensures Vwap(b, s) == t
  {
    hide Taken, Consumed, Level.Quote;
    PrefixGrows(b, k);
    PrefixDepth(b, k + 1, |b|);
    var r, a := Depth(b[..k]), b[k].amount;
    TakenIntoLevel(b, k, a);
    var d := Crossing(Taken(b, r).quote, r, a, b[k], t);
    TakenIntoLevel(b, k, d);
    s := r + d;
  }

  lemma Crossing(c: real, r: real, a: real, l: Level, t: real) returns (d: real)
    requires 0.0 < r && 0.0 < a
    requires c / r < t < (c + l.Quote(a)) / (r + a)
    ensures 0.0 < d < a && (c + l.Quote(d)) / (r + d) == t
  {
    var gap, worse := t * r - c, l.price - t;
    CrossingGap(c, r, a, l.price, t, c / r, (c + l.Quote(a)) / (r + a));
    d := gap / worse;
    Divided(gap, worse);
    QuotientBetween(gap, worse, a, d);
    CrossingPoint(c, r, l.price, t, d, (c + l.Quote(d)) / (r + d));
  }

  lemma Divided(x: real, y: real)
    requires y != 0.0
    ensures x / y * y == x
  {
  }

  lemma CrossingGap(c: real, r: real, a: real, p: real, t: real, u: real, v: real)
    requires 0.0 < r && 0.0 < a && u < t < v
    requires u * r == c && v * (r + a) == c + a * p
    ensures 0.0 < t * r - c < (p - t) * a && 0.0 < p - t
  {
    MulStrict(u, t, r);
    MulStrict(t, v, r + a);
    Spread(t, r, a);
    Spread(a, p, -t);
    if p - t <= 0.0 { MulMono(p - t, 0.0, a); }
  }

  lemma Spread(x: real, y: real, z: real)
    ensures x * (y + z) == x * y + x * z
  {
  }

  lemma CrossingPoint(c: real, r: real, p: real, t: real, d: real, w: real)
    requires 0.0 < r + d && d * (p - t) == t * r - c && w * (r + d) == c + d * p
    ensures w == t
  {
    Spread(d, p, -t);
    Spread(t, r, d);
    ScaledCompare(w, t, r + d);
  }

  lemma QuotientBetween(gap: real, worse: real, a: real, d: real)
    requires 0.0 < worse && 0.0 < gap < worse * a && d * worse == gap
    ensures 0.0 < d < a
  {
    if d <= 0.0 { MulMono(d, 0.0, worse); }
    if a <= d { MulMono(a, d, worse); }
  }

  /** In the search's own terms: the book ends, or the limit is met exactly by the accepted levels, or is negative. */
  lemma LargestByAcceptedLevels(side: Side, b: seq<Level>, limit: real)
    requires PositiveAmounts(b) && PositivePrices(b) && Sorted(side, b) && b != []
    ensures var n := AcceptedLevels(side, b, limit);
            (forall s | MaxSize(side, b, limit) < s <= Depth(b) && 0.0 < s :: SlipAt(side, b, s) > limit)
            <==> (n == |b| || limit < 0.0 || (n > 0 && PrefixSlip(side, b, n) == limit))
  {
    hide SlipAt, Vwap;
    var n, r := AcceptedLevels(side, b, limit), MaxSize(side, b, limit);
    assert b[..|b|] == b && b[..0] == [];
    PrefixDepth(b, n, |b|);
    if n < |b| && limit >= 0.0 {
      MaxSizeStopsRight(side, b, limit, 1);
      FirstLevelSlip(side, b);
      MaxSizeStopsRight(side, b, limit, n);
      MaxSizeStopsRight(side, b, limit, n + 1);
      LargestInNextLevel(side, b, limit, n);
    } else {
      forall s | r < s <= Depth(b) && 0.0 < s
        ensures SlipAt(side, b, s) > limit
      {
        SlipNonNeg(side, b, s);
      }
    }
  }

  /** No larger size within the depth stays within the limit. */
  ghost predicate IsLargest(side: Side, b: seq<Level>, limit: real, size: real)
    requires PositiveAmounts(b)
  {
    forall s | size < s <= Depth(b) && 0.0 < s :: SlipAt(side, b, s) > limit
  }

  /**
   * The search is documented as returning the largest size within the limit, but it works in whole levels. It does
   * return the largest size if and only if the limit is negative, or the whole book stays within it, or some whole-level
   * prefix of the book slips by exactly the limit.
   */
  lemma MaxSizeIsLargestIff(side: Side, b: seq<Level>, limit: real)
    requires PositiveAmounts(b) && PositivePrices(b) && Sorted(side, b) && b != []
    ensures IsLargest(side, b, limit, MaxSize(side, b, limit)) <==>
            limit < 0.0 || PrefixSlip(side, b, |b|) <= limit || exists k | 0 < k <= |b| :: PrefixSlip(side, b, k) == limit
  {
    hide SlipAt, PrefixSlip;
    var n := AcceptedLevels(side, b, limit);
    LargestByAcceptedLevels(side, b, limit);
    MaxSizeStopsRight(side, b, limit, |b|);
    if k :| 0 < k <= |b| && PrefixSlip(side, b, k) == limit {
      MaxSizeStopsRight(side, b, limit, k);
      MaxSizeStopsRight(side, b, limit, n);
      PrefixSlipGrows(side, b, k, n);
    }
  }

  lemma PrefixSlipGrows(side: Side, b: seq<Level>, j: nat, k: nat)
    requires PositiveAmounts(b) && PositivePrices(b) && Sorted(side, b) && 0 < j <= k <= |b|
    ensures PrefixSlip(side, b, j) <= PrefixSlip(side, b, k)
  {
    hide SlipAt;
    PrefixDepth(b, j, k);
    PrefixDepth(b, k, |b|);
    assert b[..|b|] == b;
    SlipMonotone(side, b, Depth(b[..j]), Depth(b[..k]));
  }

  lemma FirstLevelSlip(side: Side, b: seq<Level>)
    requires PositiveAmounts(b) && PositivePrices(b) && Sorted(side, b) && b != []
    ensures PrefixSlip(side, b, 1) == 0.0
  {
    PrefixGrows(b, 0);
    assert b[..0] == [];
    PrefixDepth(b, 1, |b|);
    SlipNonNeg(side, b, Depth(b[..1]));
  }

  lemma LargestInNextLevel(side: Side, b: seq<Level>, limit: real, n: nat)
    requires PositiveAmounts(b) && PositivePrices(b) && Sorted(side, b)
    requires 0 < n < |b| && PrefixSlip(side, b, n) <= limit < PrefixSlip(side, b, n + 1)
    ensures (forall s | Depth(b[..n]) < s <= Depth(b) && 0.0 < s :: SlipAt(side, b, s) > limit)
            <==> PrefixSlip(side, b, n) == limit
  {
    hide SlipAt, Vwap;
    var sb, t := Signed(side, b), LimitPrice(side, b, limit);
    SignedBook(side, b, n);
    SignedBook(side, b, n + 1);
    PrefixDepth(b, n, |b|);
    PrefixDepth(b, n + 1, |b|);
    SlipAgainstLimit(side, b, limit, Depth(b[..n]));
    SlipAgainstLimit(side, b, limit, Depth(b[..n+1]));
    if PrefixSlip(side, b, n) == limit {
      forall s | Depth(b[..n]) < s <= Depth(b) && 0.0 < s
        ensures SlipAt(side, b, s) > limit
      {
        ExactLimitIsLargest(sb, n, t, s);
        SlipAgainstLimit(side, b, limit, s);
      }
    } else {
      var s := RoomInNextLevel(sb, n, t);
      SlipAgainstLimit(side, b, limit, s);
      assert SlipAt(side, b, s) <= limit;
    }
  }

  lemma SignedBook(side: Side, b: seq<Level>, k: nat)
    requires PositiveAmounts(b) && Sorted(side, b) && k <= |b|
    ensures PositiveAmounts(Signed(side, b)) && Sorted(Buy, Signed(side, b)) && |Signed(side, b)| == |b|
    ensures Depth(Signed(side, b)[..k]) == Depth(b[..k])
    ensures Depth(Signed(side, b)) == Depth(b)
  {
    MirrorTaken(b, 0.0);
    MirrorTaken(b[..k], 0.0);
    assert Mirror(b)[..k] == Mirror(b[..k]);
  }

  /** Two asks, 1 at 100 and 1 at 110: a 1% limit accepts 1 although 1.05 still averages within 1%. */
  lemma MaxSizeNotLargest()
    ensures var asks := [Level(100.0, 1.0), Level(110.0, 1.0)];
            && MaxSize(Buy, asks, 1.0) == 1.0
            && WalkOf(Buy, asks, 1.05).fullyFilled && WalkOf(Buy, asks, 1.05).slippage <= 1.0
  {
    var asks := [Level(100.0, 1.0), Level(110.0, 1.0)];
    assert asks[1..] == [Level(110.0, 1.0)] && asks[1..][1..] == [];
    assert Taken(asks[1..], 0.05) == Sweep(0.05, 5.5, 1) by { assert Taken(asks[1..][1..], 0.0) == Sweep(0.0, 0.0, 0); }
    assert Taken(asks, 1.05) == Sweep(1.05, 105.5, 2);
    assert AcceptedLevels(Buy, asks, 1.0) == 1 by {
      assert Accepted(Buy, asks, 1.0, 1, 1.0, 100.0) == 1;
    }
    assert asks[..1] == [Level(100.0, 1.0)];
    assert asks[..1][1..] == [];
  }
}
