/** Books thinned by the stress multiplier. */
module Stress {
  import opened Money
  import opened Walking
  import opened Slippage

  lemma {:induction false} ThinnedBook(side: Side, b: seq<Level>, m: real)
    requires m > 0.0 && PositiveAmounts(b)
    ensures |Thinned(b, m)| == |b| && PositiveAmounts(Thinned(b, m))
    ensures forall i | 0 <= i < |b| :: Thinned(b, m)[i].price == b[i].price
    ensures Sorted(side, b) ==> Sorted(side, Thinned(b, m))
  {
    if b != [] {
      ThinnedBook(side, b[1..], m);
      assert b[0].amount / m > 0.0;
    }
  }

  lemma {:induction false} ThinnedDepth(b: seq<Level>, m: real)
    requires m > 0.0
    ensures Scaled(Depth(Thinned(b, m)), m) == Depth(b)
  {
    hide Scaled;
    if b == [] {
      ScaledZero(m);
    } else {
      ThinnedDepth(b[1..], m);
      assert Thinned(b, m)[1..] == Thinned(b[1..], m);
      ScaledBack(b[0].amount, m);
      ScaledSum(b[0].amount / m, Depth(Thinned(b[1..], m)), m);
    }
  }

  /** Walking `x` on the thinned book is walking `m*x` on the original, scaled down by `m`. */
  lemma {:induction false} ThinnedTaken(b: seq<Level>, m: real, x: real)
    requires m > 0.0
    ensures Scaled(Taken(Thinned(b, m), x).base, m) == Taken(b, Scaled(x, m)).base
    ensures Scaled(Taken(Thinned(b, m), x).quote, m) == Taken(b, Scaled(x, m)).quote
    ensures Taken(Thinned(b, m), x).levels == Taken(b, Scaled(x, m)).levels
  {
    hide Level.Quote, Scaled;
    ScaledZero(m);
    ScaledOrder(x, 0.0, m);
    if b != [] && x > 0.0 {
      var a, tb := b[0].amount, Thinned(b, m);
      ScaledBack(a, m);
      ScaledOrder(a / m, x, m);
      var take := Min(a / m, x);
      assert Scaled(take, m) == Min(a, Scaled(x, m));
      ScaledSum(x, take, m);
      assert tb[1..] == Thinned(b[1..], m);
      ThinnedTaken(b[1..], m, x - take);
      var rest := Taken(tb[1..], x - take);
      ScaledSum(take, rest.base, m);
      ScaledSum(tb[0].Quote(take), rest.quote, m);
      ScaledQuote(tb[0], b[0], take, m);
    }
  }

  lemma ScaledQuote(l: Level, o: Level, take: real, m: real)
    requires l.price == o.price
    ensures Scaled(l.Quote(take), m) == o.Quote(Scaled(take, m))
  {
  }

  /** A stressed book reports at least the slippage of the book it thins, and never fills more. */
  lemma StressNeverHelps(side: Side, b: seq<Level>, m: real, x: real)
    requires m >= 1.0 && 0.0 < x && b != []
    requires PositiveAmounts(b) && PositivePrices(b) && Sorted(side, b)
    ensures WalkOf(side, Thinned(b, m), x).slippage >= WalkOf(side, b, x).slippage
    ensures WalkOf(side, Thinned(b, m), x).filled <= WalkOf(side, b, x).filled
  {
    hide Taken, Consumed, Vwap, Scaled;
    var tb := Thinned(b, m);
    DepthNonNeg(b);
    assert Depth(b) >= b[0].amount > 0.0;
    ThinnedBook(side, b, m);
    ThinnedFills(b, m, x);
    var f, g := Min(x, Depth(b)), Min(Scaled(x, m), Depth(b));
    SlipMonotone(side, b, f, g);
    SlipNonNeg(side, b, f);
    assert WalkOf(side, tb, x).slippage == Max(0.0, SlipAt(side, b, g));
    assert WalkOf(side, b, x).slippage == Max(0.0, SlipAt(side, b, f));
  }

  /** How much a walk fills on both books, and at which average price. */
  lemma ThinnedFills(b: seq<Level>, m: real, x: real)
    requires m >= 1.0 && 0.0 < x && PositiveAmounts(b) && Depth(b) > 0.0
    ensures PositiveAmounts(Thinned(b, m))
    ensures var s, o, f, g := Taken(Thinned(b, m), x), Taken(b, x), Min(x, Depth(b)), Min(Scaled(x, m), Depth(b));
            && 0.0 < s.base <= o.base == f <= g
            && o.quote / o.base == Vwap(b, f)
            && s.quote / s.base == Vwap(b, g)
  {
    hide Taken, Consumed, Depth, Scaled;
    var tb := Thinned(b, m);
    ThinnedBook(Buy, b, m);
    ThinnedDepth(b, m);
    ThinnedTaken(b, m, x);
    ScaledGrows(x, m);
    TakenFills(b, x);
    TakenFills(b, Scaled(x, m));
    TakenFills(tb, x);
    TakenPastDepth(b, x);
    TakenPastDepth(b, Scaled(x, m));
    DepthNonNeg(tb);
    ScaledGrows(Taken(tb, x).base, m);
    ScaledGrows(Depth(tb), m);
    ScaledQuotient(Taken(tb, x).quote, Taken(tb, x).base, m);
  }

  lemma ScaledGrows(x: real, m: real)
    requires m >= 1.0 && 0.0 <= x
    ensures x <= Scaled(x, m)
    ensures Scaled(x, m) > 0.0 ==> x > 0.0
  {
    MulMono(1.0, m, x);
  }

  lemma ScaledQuotient(q: real, x: real, m: real)
    requires m > 0.0 && x > 0.0
    ensures Scaled(x, m) > 0.0 && Scaled(q, m) / Scaled(x, m) == q / x
  {
    var r := q / x;
    assert r * x == q;
    assert r * (x * m) == q * m;
  }
}
