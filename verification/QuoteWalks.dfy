/** Walking by quote amount, and why it is the inverse of walking by base amount. */
module QuoteWalks {
  import opened Money
  import opened Walking
  import opened Slippage

  /** What a walk for `q` quote on one side reports. */
  function QuoteWalkOf(side: Side, b: seq<Level>, q: real): WalkResult
    requires PositivePrices(b)
  {
    if b == [] then WalkResult(side, 0.0, 0.0, 0.0, 0.0, 0.0, 0.0, 0, false, 0.0, 0.0)
    else
      var s := Spent(b, q);
      var avg := if s.base > 0.0 then s.quote / s.base else 0.0;
      var slip := SlipPct(side, b[0].price, avg);
      WalkResult(side, s.base, s.base, s.quote, avg, b[0].price, if s.base > 0.0 then Max(0.0, slip) else 0.0,
                 s.levels, q - s.quote <= 0.0, LastPrice(b, s.levels), Depth(b))
  }

  lemma LevelRoundTrip(l: Level, base: real)
    requires l.price > 0.0
    ensures l.Base(l.Quote(base)) == base
    ensures base > 0.0 <==> l.Quote(base) > 0.0
  {
    ScaledCompare(base, 0.0, l.price);
    ScaledCompare(0.0, base, l.price);
    var q := base * l.price;
    var back := q / l.price;
    assert back * l.price == q;
    ScaledCompare(back, base, l.price);
  }

  lemma LevelPart(l: Level, q: real)
    requires l.price > 0.0 && 0.0 < q < l.Quote(l.amount)
    ensures 0.0 < l.Base(q) < l.amount && l.Quote(l.Base(q)) == q
  {
    BaseBack(l, q);
    LevelOrder(l, l.amount, l.Base(q));
    LevelOrder(l, l.Base(q), 0.0);
    assert l.Quote(0.0) == 0.0;
    hide Level.Quote, Level.Base;
  }

  lemma BaseBack(l: Level, q: real)
    requires l.price > 0.0
    ensures l.Quote(l.Base(q)) == q
  {
  }

  lemma LevelOrder(l: Level, x: real, y: real)
    requires l.price > 0.0
    ensures x <= y <==> l.Quote(x) <= l.Quote(y)
  {
    ScaledCompare(x, y, l.price);
  }

  /** A quote walk spends the request or the whole book value, whichever is smaller. */
  lemma {:induction false} SpentIsMin(b: seq<Level>, q: real)
    requires PositiveAmounts(b) && PositivePrices(b) && q >= 0.0
    ensures Spent(b, q).quote == Min(q, Value(b))
    ensures Value(b) >= 0.0
  {
    hide Level.Quote, Level.Base;
    if b != [] {
      LevelRoundTrip(b[0], b[0].amount);
      SpentIsMin(b[1..], q - Min(b[0].Quote(b[0].amount), q));
    }
  }

  /** Walking the base a quote walk returned trades the same base, quote and levels. */
  lemma {:induction false} WalkAfterQuote(b: seq<Level>, q: real)
    requires PositiveAmounts(b) && PositivePrices(b)
    ensures Taken(b, Spent(b, q).base) == Spent(b, q)
    ensures Spent(b, q).base >= 0.0
    ensures b != [] && q > 0.0 ==> Spent(b, q).base > 0.0
  {
    hide Level.Quote, Level.Base;
    if b != [] && q > 0.0 {
      var whole, rest := b[0].Quote(b[0].amount), b[1..];
      LevelRoundTrip(b[0], b[0].amount);
      WalkAfterQuote(rest, q - Min(whole, q));
      if q < whole { LevelPart(b[0], q); }
    }
  }

  /** Spending the quote a walk paid trades the same base, quote and levels. */
  lemma {:induction false} QuoteAfterWalk(b: seq<Level>, x: real)
    requires PositiveAmounts(b) && PositivePrices(b)
    ensures Spent(b, Taken(b, x).quote) == Taken(b, x)
    ensures Taken(b, x).quote >= 0.0
    ensures b != [] && x > 0.0 ==> Taken(b, x).quote > 0.0
  {
    hide Level.Quote, Level.Base;
    if b != [] && x > 0.0 {
      var l := b[0];
      var take := Min(l.amount, x);
      LevelRoundTrip(l, take);
      LevelOrder(l, l.amount, take);
      QuoteAfterWalk(b[1..], x - take);
      if take < l.amount { assert Taken(b[1..], 0.0) == Sweep(0.0, 0.0, 0); }
    }
  }

  /** `walk` of the base `walk_quote` reports spends min(q, value) and reports the same trade. */
  lemma QuoteWalkThenWalk(side: Side, b: seq<Level>, q: real)
    requires PositiveAmounts(b) && PositivePrices(b) && b != [] && q > 0.0
    ensures var w := QuoteWalkOf(side, b, q);
            && w.filled > 0.0 && w.quote == Min(q, Value(b))
            && WalkOf(side, b, w.filled) == w.(fullyFilled := true)
  {
    hide Spent, Taken;
    WalkAfterQuote(b, q);
    SpentIsMin(b, q);
  }

  /** `walk_quote` of the quote `walk` paid gives back min(x, depth) and reports the same trade. */
  lemma WalkThenQuoteWalk(side: Side, b: seq<Level>, x: real)
    requires PositiveAmounts(b) && PositivePrices(b) && b != [] && x > 0.0
    ensures var w := WalkOf(side, b, x);
            && w.quote > 0.0 && w.filled == Min(x, Depth(b))
            && QuoteWalkOf(side, b, w.quote) == w.(requested := w.filled, fullyFilled := true)
  {
    hide Spent, Taken;
    QuoteAfterWalk(b, x);
    TakenFills(b, x);
    DepthNonNeg(b);
  }

  // --- the whole report -----------------------------------------------------------------------------

  /** A walk's average, and its shortfall against the top of the book as a share of that; nothing filled has neither. */
  predicate Priced(side: Side, top: real, filled: real, quote: real, avg: real, slippage: real) {
    && (filled == 0.0 ==> quote == avg == slippage == 0.0)
    && avg * filled == quote
    && (filled > 0.0 && top > 0.0 ==>
          slippage * top == 100.0 * Max(0.0, if side.Buy? then avg - top else top - avg))
  }

  /** Where a report starts and ends: the top of the book and the last level it touched, and how deep the side is. */
  predicate Spans(w: WalkResult, b: seq<Level>) {
    && w.depth == Depth(b) && w.levels <= |b|
    && w.reference == (if b == [] then 0.0 else b[0].price)
    && w.last == (if b == [] then 0.0 else if w.levels == 0 then b[0].price else b[w.levels-1].price)
  }

  /** A walk fills the request as far as the side is deep, and is full exactly then; nothing is full in an empty book. */
  lemma WalkReport(side: Side, b: seq<Level>, x: real)
    requires PositiveAmounts(b)
    ensures var w := WalkOf(side, b, x);
            && w.side == side && w.requested == x && w.filled == Max(0.0, Min(x, Depth(b)))
            && (w.fullyFilled <==> b != [] && x <= Depth(b))
            && Priced(side, w.reference, w.filled, w.quote, w.avg, w.slippage) && Spans(w, b)
  {
    hide Taken, Depth, Priced, SlipPct;
    LevelsWithin(b, x);
    DepthNonNeg(b);
    NoDepth(b);
    NothingTaken(b, x);
    if x >= 0.0 { TakenFills(b, x); }
    if b == [] { NothingPriced(side); } else { SweepPriced(side, Taken(b, x), b[0].price); }
  }

  /** A quote walk spends the request as far as the side is worth, and is full exactly then. */
  lemma QuoteWalkReport(side: Side, b: seq<Level>, q: real)
    requires PositiveAmounts(b) && PositivePrices(b) && q >= 0.0
    ensures var w := QuoteWalkOf(side, b, q);
            && w.side == side && w.requested == w.filled && w.quote == Min(q, Value(b))
            && (w.fullyFilled <==> b != [] && q <= Value(b))
            && Priced(side, w.reference, w.filled, w.quote, w.avg, w.slippage) && Spans(w, b)
  {
    hide Spent, Taken, Depth, Value, Priced, SlipPct;
    SpentIsMin(b, q);
    WalkAfterQuote(b, q);
    LevelsWithin(b, Spent(b, q).base);
    NoDepth(b);
    NothingTaken(b, Spent(b, q).base);
    if b == [] { NothingPriced(side); } else { SweepPriced(side, Spent(b, q), b[0].price); }
  }

  lemma NothingPriced(side: Side)
    ensures Priced(side, 0.0, 0.0, 0.0, 0.0, 0.0)
  {
  }

  lemma SweepPriced(side: Side, s: Sweep, top: real)
    requires s.base >= 0.0 && (s.base == 0.0 ==> s.quote == 0.0)
    ensures var avg := if s.base > 0.0 then s.quote / s.base else 0.0;
            Priced(side, top, s.base, s.quote, avg, if s.base > 0.0 then Max(0.0, SlipPct(side, top, avg)) else 0.0)
  {
    if s.base > 0.0 {
      var avg := s.quote / s.base;
      assert avg * s.base == s.quote;
      if top > 0.0 { SlipTimes(side, top, avg, SlipPct(side, top, avg)); }
      hide SlipPct;
    }
  }

  lemma SlipTimes(side: Side, top: real, avg: real, slip: real)
    requires top > 0.0 && slip == SlipPct(side, top, avg)
    ensures Max(0.0, slip) * top == 100.0 * Max(0.0, if side.Buy? then avg - top else top - avg)
  {
    var worse := if side.Buy? then avg - top else top - avg;
    var share := worse / top;
    assert share * top == worse;
    assert slip == share * 100.0;
    ScaledCompare(0.0, slip, top);
    assert slip * top == 100.0 * worse;
  }

  lemma {:induction false} LevelsWithin(b: seq<Level>, x: real)
    ensures Taken(b, x).levels <= |b|
  {
    if b != [] && x > 0.0 { LevelsWithin(b[1..], x - Min(b[0].amount, x)); }
  }

  lemma NoDepth(b: seq<Level>)
    ensures b == [] ==> Depth(b) == Value(b) == 0.0
  {
  }

  lemma NothingTaken(b: seq<Level>, x: real)
    ensures b == [] || x <= 0.0 ==> Taken(b, x) == Sweep(0.0, 0.0, 0)
  {
  }
}
