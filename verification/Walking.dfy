/** Depth walking on one side of an order book: what a greedy taker pays, and the laws it obeys. */
module Walking {
  import opened Money

  datatype Side = Buy | Sell

  datatype Level = Level(price: real, amount: real) {
    /** Quote value of `base` at this level's price. */
    function Quote(base: real): real { base * price }

    /** Base bought by `quote` at this level's price. */
    function Base(quote: real): real
      requires price > 0.0
    {
      quote / price
    }
  }

  /** What a walk took from a book: base, quote and the number of levels touched. */
  datatype Sweep = Sweep(base: real, quote: real, levels: nat)

  function Depth(b: seq<Level>): real {
    if b == [] then 0.0 else b[0].amount + Depth(b[1..])
  }

  /** Quote value of every level. */
  function Value(b: seq<Level>): real {
    if b == [] then 0.0 else b[0].Quote(b[0].amount) + Value(b[1..])
  }

  /** Greedy taking of `x` base from the front of the book. */
  function Taken(b: seq<Level>, x: real): Sweep {
    if b == [] || x <= 0.0 then Sweep(0.0, 0.0, 0)
    else
      var take := Min(b[0].amount, x);
      var rest := Taken(b[1..], x - take);
      Sweep(take + rest.base, b[0].Quote(take) + rest.quote, rest.levels + 1)
  }

  /** Greedy spending of `q` quote from the front of the book. */
  function Spent(b: seq<Level>, q: real): Sweep
    requires PositivePrices(b)
  {
    if b == [] || q <= 0.0 then Sweep(0.0, 0.0, 0)
    else
      var take := Min(b[0].Quote(b[0].amount), q);
      var rest := Spent(b[1..], q - take);
      Sweep(b[0].Base(take) + rest.base, take + rest.quote, rest.levels + 1)
  }

  /** The book left behind once `x` base is gone. */
  function Consumed(b: seq<Level>, x: real): seq<Level> {
    if b == [] || x <= 0.0 then b
    else if b[0].amount <= x then Consumed(b[1..], x - b[0].amount)
    else [b[0].(amount := b[0].amount - x)] + b[1..]
  }

  /** The same prices with every amount divided by `m`. */
  function Thinned(b: seq<Level>, m: real): seq<Level>
    requires m > 0.0
  {
    if b == [] then [] else [b[0].(amount := b[0].amount / m)] + Thinned(b[1..], m)
  }

  // --- books --------------------------------------------------------------------------

  ghost predicate PositivePrices(b: seq<Level>) { forall i | 0 <= i < |b| :: b[i].price > 0.0 }

  ghost predicate PositiveAmounts(b: seq<Level>) { forall i | 0 <= i < |b| :: b[i].amount > 0.0 }

  ghost predicate AtLeast(b: seq<Level>, p: real) { forall i | 0 <= i < |b| :: p <= b[i].price }

  /** Asks ascend and bids descend. */
  ghost predicate Sorted(side: Side, b: seq<Level>) {
    forall i, j | 0 <= i < j < |b| :: if side.Buy? then b[i].price <= b[j].price else b[j].price <= b[i].price
  }

  /** Bids with the sign of every price changed are asks: the laws of BUY then give those of SELL. */
  function Mirror(b: seq<Level>): (m: seq<Level>)
    ensures |m| == |b| && forall i | 0 <= i < |b| :: m[i] == Level(-b[i].price, b[i].amount)
  {
    seq(|b|, i requires 0 <= i < |b| => Level(-b[i].price, b[i].amount))
  }

  lemma MirrorTail(b: seq<Level>)
    requires b != []
    ensures Mirror(b)[1..] == Mirror(b[1..])
  {
  }

  lemma MirrorQuote(l: Level, base: real)
    ensures Level(-l.price, l.amount).Quote(base) == -l.Quote(base)
  {
  }

  lemma {:induction false} MirrorTaken(b: seq<Level>, x: real)
    ensures Taken(Mirror(b), x) == Taken(b, x).(quote := -Taken(b, x).quote)
    ensures Depth(Mirror(b)) == Depth(b)
  {
    hide Level.Quote, Mirror;
    if b != [] {
      MirrorTail(b);
      var take := Min(b[0].amount, x);
      MirrorTaken(b[1..], x - take);
      MirrorQuote(b[0], take);
    }
  }

  // --- filling --------------------------------------------------------------------------

  lemma {:induction false} DepthNonNeg(b: seq<Level>)
    requires PositiveAmounts(b)
    ensures Depth(b) >= 0.0
    ensures b != [] ==> Depth(b) >= b[0].amount
  {
    if b != [] { DepthNonNeg(b[1..]); }
  }

  /** A walk fills the request or the whole depth, whichever is smaller. */
  lemma {:induction false} TakenFills(b: seq<Level>, x: real)
    requires PositiveAmounts(b) && x >= 0.0
    ensures Taken(b, x).base == Min(x, Depth(b))
  {
    DepthNonNeg(b);
    if b != [] && x > 0.0 {
      DepthNonNeg(b[1..]);
      TakenFills(b[1..], x - Min(b[0].amount, x));
    }
  }

  /** Taking at least the whole depth pays the whole value and touches every level. */
  lemma {:induction false} TakenAll(b: seq<Level>, x: real)
    requires PositiveAmounts(b) && x >= Depth(b)
    ensures Taken(b, x) == Sweep(Depth(b), Value(b), |b|)
  {
    DepthNonNeg(b);
    if b != [] {
      DepthNonNeg(b[1..]);
      TakenAll(b[1..], x - b[0].amount);
    }
  }

  /** The levels touched are exactly the shortest prefix deep enough for the request. */
  lemma {:induction false} TakenLevels(b: seq<Level>, x: real)
    requires PositiveAmounts(b) && x > 0.0
    ensures var k := Taken(b, x).levels;
            && k <= |b|
            && (b != [] ==> 0 < k && Depth(b[..k-1]) < x)
            && (x <= Depth(b) ==> Depth(b[..k]) >= x)
            && (x > Depth(b) ==> k == |b|)
  {
    if b != [] {
      var take := Min(b[0].amount, x);
      var k := Taken(b[1..], x - take).levels;
      DepthNonNeg(b[1..]);
      if x > b[0].amount {
        TakenLevels(b[1..], x - take);
        assert b[..k+1][1..] == b[1..][..k];
        if b[1..] != [] { assert b[..k][1..] == b[1..][..k-1]; }
      } else {
        assert b[..1][1..] == [];
      }
    }
  }

  // --- composition ------------------------------------------------------------------------

  /** What is left has a suffix of the prices and no larger amounts. */
  lemma {:induction false} ConsumedSuffix(b: seq<Level>, x: real) returns (k: nat)
    requires PositiveAmounts(b) && x >= 0.0
    ensures k <= |b| && |Consumed(b, x)| == |b| - k
    ensures forall i | 0 <= i < |b| - k :: Consumed(b, x)[i].price == b[i+k].price && 0.0 < Consumed(b, x)[i].amount
  {
    if b != [] && x > 0.0 && b[0].amount <= x {
      k := ConsumedSuffix(b[1..], x - b[0].amount);
      k := k + 1;
    } else {
      k := 0;
    }
  }

  lemma {:induction false} ConsumedDepth(b: seq<Level>, x: real)
    requires PositiveAmounts(b) && x >= 0.0
    ensures Depth(Consumed(b, x)) == Depth(b) - Min(x, Depth(b))
  {
    DepthNonNeg(b);
    if b != [] && x > 0.0 {
      DepthNonNeg(b[1..]);
      if b[0].amount <= x { ConsumedDepth(b[1..], x - b[0].amount); }
      else { assert Consumed(b, x)[1..] == b[1..]; }
    }
  }

  /** Consuming keeps a book sorted and positive, and removes exactly the depth taken. */
  lemma ConsumedBook(side: Side, b: seq<Level>, x: real)
    requires PositiveAmounts(b) && x >= 0.0
    ensures PositiveAmounts(Consumed(b, x))
    ensures Sorted(side, b) ==> Sorted(side, Consumed(b, x))
    ensures PositivePrices(b) ==> PositivePrices(Consumed(b, x))
    ensures Depth(Consumed(b, x)) == Depth(b) - Min(x, Depth(b))
  {
    hide Consumed, Depth;
    var k := ConsumedSuffix(b, x);
    ConsumedDepth(b, x);
  }

  /** Walking `x` and then, on what is left, `y` is walking `x + y`. */
  lemma {:induction false} TakenComposes(b: seq<Level>, x: real, y: real)
    requires PositiveAmounts(b) && x >= 0.0 && y >= 0.0
    ensures Taken(b, x + y).base == Taken(b, x).base + Taken(Consumed(b, x), y).base
    ensures Taken(b, x + y).quote == Taken(b, x).quote + Taken(Consumed(b, x), y).quote
  {
    hide Level.Quote;
    if b != [] && x > 0.0 {
      var a := b[0].amount;
      if a <= x {
        TakenComposes(b[1..], x - a, y);
        assert x + y - a == x - a + y;
      } else if y > 0.0 {
        TakenWithinLevel(b, x, y);
      }
    }
  }

  /** Composition when the first walk ends inside the first level. */
  lemma TakenWithinLevel(b: seq<Level>, x: real, y: real)
    requires b != [] && 0.0 < x < b[0].amount && 0.0 < y
    ensures Taken(b, x + y).base == Taken(b, x).base + Taken(Consumed(b, x), y).base
    ensures Taken(b, x + y).quote == Taken(b, x).quote + Taken(Consumed(b, x), y).quote
  {
    hide Level.Quote;
    var a, rest, c := b[0].amount, b[1..], Consumed(b, x);
    var take := Min(a - x, y);
    assert c[1..] == rest && c[0] == b[0].(amount := a - x);
    assert Taken(rest, 0.0) == Sweep(0.0, 0.0, 0);
    assert Min(a, x + y) == x + take && x + y - (x + take) == y - take;
    QuoteSplits(b[0], c[0], x, take);
  }

  lemma QuoteSplits(l: Level, m: Level, x: real, y: real)
    requires l.price == m.price
    ensures l.Quote(x + y) == l.Quote(x) + m.Quote(y)
  {
    Distribute(x, y, l.price);
  }

  /** Consuming composes as well: the second consumer sees exactly the remaining book. */
  lemma {:induction false} ConsumedComposes(b: seq<Level>, x: real, y: real)
    requires PositiveAmounts(b) && x >= 0.0 && y >= 0.0
    ensures Consumed(Consumed(b, x), y) == Consumed(b, x + y)
  {
    if b != [] && x > 0.0 {
      var a := b[0].amount;
      if a <= x {
        ConsumedComposes(b[1..], x - a, y);
        assert x + y - a == x - a + y;
      } else if y > 0.0 {
        var c := Consumed(b, x);
        assert c[1..] == b[1..];
        assert y - c[0].amount == x + y - a;
      }
    }
  }

  // --- greedy is optimal ---------------------------------------------------------------------

  ghost predicate Allocation(b: seq<Level>, xs: seq<real>) {
    |xs| == |b| && forall i | 0 <= i < |b| :: 0.0 <= xs[i] <= b[i].amount
  }

  function Total(xs: seq<real>): real { if xs == [] then 0.0 else xs[0] + Total(xs[1..]) }

  /** Quote exchanged when `xs[i]` is taken from level `i`. */
  function Exchanged(b: seq<Level>, xs: seq<real>): real
    requires |xs| == |b|
  {
    if b == [] then 0.0 else b[0].Quote(xs[0]) + Exchanged(b[1..], xs[1..])
  }

  lemma QuoteAtLeast(l: Level, base: real, p: real)
    requires p <= l.price && base >= 0.0
    ensures l.Quote(base) >= base * p
  {
    MulMono(p, l.price, base);
  }

  /** A walk never pays less than the best price times what it took. */
  lemma {:induction false} TakenAtLeast(b: seq<Level>, x: real, p: real)
    requires PositiveAmounts(b) && AtLeast(b, p) && x >= 0.0
    ensures Taken(b, x).quote >= Taken(b, x).base * p
  {
    hide Level.Quote;
    if b != [] && x > 0.0 {
      var take := Min(b[0].amount, x);
      TakenAtLeast(b[1..], x - take, p);
      QuoteAtLeast(b[0], take, p);
      Distribute(take, Taken(b[1..], x - take).base, p);
    }
  }

  /** Each further unit costs at least `p` when no ask is below `p`. */
  lemma MarginalAtLeast(b: seq<Level>, x: real, y: real, p: real)
    requires PositiveAmounts(b) && AtLeast(b, p)
    requires 0.0 <= x <= y <= Depth(b)
    ensures Taken(b, y).quote - Taken(b, x).quote >= (y - x) * p
  {
    hide Taken, Consumed;
    var c := Consumed(b, x);
    assert x + (y - x) == y;
    TakenComposes(b, x, y - x);
    ConsumedBook(Buy, b, x);
    ConsumedAtLeast(b, x, p);
    TakenAtLeast(c, y - x, p);
    TakenFills(c, y - x);
  }

  lemma {:induction false} ConsumedAtLeast(b: seq<Level>, x: real, p: real)
    requires AtLeast(b, p)
    ensures AtLeast(Consumed(b, x), p)
  {
    if b != [] && x > 0.0 && b[0].amount <= x { ConsumedAtLeast(b[1..], x - b[0].amount, p); }
  }

  lemma {:induction false} GreedyBuyIsCheapest(b: seq<Level>, x: real, xs: seq<real>)
    requires PositiveAmounts(b) && Sorted(Buy, b) && x >= 0.0
    requires Allocation(b, xs) && Total(xs) == Taken(b, x).base
    ensures Taken(b, x).quote <= Exchanged(b, xs)
  {
    hide Level.Quote;
    TakenFills(b, x);
    AllocationTotal(b, xs);
    if b != [] {
      var rest, ys := b[1..], xs[1..];
      AllocationTotal(rest, ys);
      DepthNonNeg(rest);
      TakenFills(rest, Total(ys));
      GreedyBuyIsCheapest(rest, Total(ys), ys);
      if x > 0.0 { GreedyFirstLevel(b, x, xs[0], Total(ys)); }
    }
  }

  /** Filling the first level first costs no more than giving it `given` and the rest of the book `y`. */
  lemma GreedyFirstLevel(b: seq<Level>, x: real, given: real, y: real)
    requires PositiveAmounts(b) && Sorted(Buy, b) && b != [] && x > 0.0
    requires 0.0 <= given <= b[0].amount && 0.0 <= y <= Depth(b[1..])
    requires given + y == Min(x, Depth(b))
    ensures Taken(b, x).quote <= b[0].Quote(given) + Taken(b[1..], y).quote
  {
    hide Level.Quote;
    var rest, take := b[1..], Min(b[0].amount, x);
    DepthNonNeg(rest);
    TakenFills(rest, x - take);
    TakenPastDepth(rest, x - take);
    GreedySwap(b[0], rest, take, given, y, Taken(rest, x - take).base);
  }

  /** Moving base from a later level to the first one cannot cost more. */
  lemma GreedySwap(l: Level, rest: seq<Level>, take: real, given: real, y: real, z: real)
    requires PositiveAmounts(rest) && AtLeast(rest, l.price)
    requires given + y == take + z && 0.0 <= z <= y <= Depth(rest)
    ensures l.Quote(take) + Taken(rest, z).quote <= l.Quote(given) + Taken(rest, y).quote
  {
    hide Taken;
    MarginalAtLeast(rest, z, y, l.price);
    assert take == given + (y - z);
    Distribute(given, y - z, l.price);
  }

  /** Asking for more than the depth is asking for the depth. */
  lemma TakenPastDepth(b: seq<Level>, x: real)
    requires PositiveAmounts(b) && x >= 0.0
    ensures Taken(b, x).quote == Taken(b, Taken(b, x).base).quote
  {
    TakenFills(b, x);
    if x > Depth(b) { TakenAll(b, x); TakenAll(b, Depth(b)); }
  }

  lemma {:induction false} AllocationTotal(b: seq<Level>, xs: seq<real>)
    requires PositiveAmounts(b) && Allocation(b, xs)
    ensures 0.0 <= Total(xs) <= Depth(b)
    ensures Total(xs) == 0.0 ==> Exchanged(b, xs) == 0.0
  {
    if b != [] { AllocationTotal(b[1..], xs[1..]); }
  }

  lemma {:induction false} MirrorExchanged(b: seq<Level>, xs: seq<real>)
    requires |xs| == |b|
    ensures Exchanged(Mirror(b), xs) == -Exchanged(b, xs)
  {
    hide Level.Quote, Mirror;
    if b != [] {
      MirrorTail(b);
      MirrorExchanged(b[1..], xs[1..]);
      MirrorQuote(b[0], xs[0]);
    }
  }

  /** No other way to take the same base from the book is better than the walk. */
  lemma GreedyIsOptimal(side: Side, b: seq<Level>, x: real, xs: seq<real>)
    requires PositiveAmounts(b) && Sorted(side, b) && x >= 0.0
    requires Allocation(b, xs) && Total(xs) == Taken(b, x).base
    ensures side.Buy? ==> Taken(b, x).quote <= Exchanged(b, xs)
    ensures side.Sell? ==> Taken(b, x).quote >= Exchanged(b, xs)
  {
    if side.Buy? {
      GreedyBuyIsCheapest(b, x, xs);
    } else {
      MirrorTaken(b, x);
      MirrorExchanged(b, xs);
      GreedyBuyIsCheapest(Mirror(b), x, xs);
    }
  }

  /** The walk is itself such a way, so the bound is met. */
  lemma {:induction false} GreedyIsAllocation(b: seq<Level>, x: real) returns (xs: seq<real>)
    requires PositiveAmounts(b) && x >= 0.0
    ensures Allocation(b, xs) && Total(xs) == Taken(b, x).base && Exchanged(b, xs) == Taken(b, x).quote
  {
    if b == [] {
      xs := [];
    } else {
      var take := if x <= 0.0 then 0.0 else Min(b[0].amount, x);
      var ys := GreedyIsAllocation(b[1..], x - take);
      xs := [take] + ys;
      assert xs[1..] == ys;
    }
  }
}
