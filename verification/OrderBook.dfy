/** The mutable order book: two sorted lists of levels. Timestamps, venue and symbol are not modelled. */
module OrderBooks {
  import opened Wrappers
  import opened Money
  import opened Walking
  import opened Slippage
  import opened QuoteWalks
  import opened Stress

  datatype BookError = NonPositiveAmount

  // --- building a book from raw levels --------------------------------------------------

  /** Levels with a positive amount, in their original order. */
  function Displayed(raw: seq<Level>): (d: seq<Level>)
    ensures PositiveAmounts(d)
  {
    if raw == [] then []
    else (if raw[0].amount > 0.0 then [raw[0]] else []) + Displayed(raw[1..])
  }

  /** Displayed are exactly the levels with a positive amount, in the order they came. */
  lemma {:induction false} DisplayedAre(a: seq<Level>, b: seq<Level>, l: Level)
    ensures Displayed(a + b) == Displayed(a) + Displayed(b) && Displayed([l]) == if l.amount > 0.0 then [l] else []
  {
    assert [l][1..] == [];
    hide PositiveAmounts;
    if a == [] {
      assert a + b == b;
    } else {
      var rest := a[1..];
      DisplayedAre(rest, b, l);
      assert (a + b)[1..] == rest + b && (a + b)[0] == a[0];
      Regroup(if a[0].amount > 0.0 then [a[0]] else [], Displayed(rest), Displayed(b));
    }
  }

  lemma Regroup(a: seq<Level>, b: seq<Level>, c: seq<Level>)
    ensures a + (b + c) == (a + b) + c
  {
  }

  lemma {:induction false} DisplayedAsOften(raw: seq<Level>, l: Level)
    ensures multiset(Displayed(raw))[l] == if l.amount > 0.0 then multiset(raw)[l] else 0
  {
    if raw != [] {
      DisplayedAsOften(raw[1..], l);
      assert raw == [raw[0]] + raw[1..];
    }
  }

  predicate NoWorse(side: Side, l: Level, m: Level) {
    if side.Buy? then l.price <= m.price else l.price >= m.price
  }

  function Inserted(side: Side, l: Level, s: seq<Level>): seq<Level> {
    if s == [] || NoWorse(side, l, s[0]) then [l] + s else [s[0]] + Inserted(side, l, s[1..])
  }

  function SortedLevels(side: Side, s: seq<Level>): seq<Level> {
    if s == [] then [] else Inserted(side, s[0], SortedLevels(side, s[1..]))
  }

  /** The levels quoted at one price, in order. */
  function AtPrice(s: seq<Level>, p: real): seq<Level> {
    if s == [] then [] else (if s[0].price == p then [s[0]] else []) + AtPrice(s[1..], p)
  }

  lemma {:induction false} InsertedLevels(side: Side, l: Level, s: seq<Level>)
    ensures multiset(Inserted(side, l, s)) == multiset(s) + multiset{l}
  {
    if s != [] && !NoWorse(side, l, s[0]) {
      InsertedLevels(side, l, s[1..]);
      assert s == [s[0]] + s[1..];
    }
  }

  ghost predicate NoneWorse(side: Side, l: Level, s: seq<Level>) {
    forall i | 0 <= i < |s| :: NoWorse(side, l, s[i])
  }

  lemma {:induction false} InsertedSorted(side: Side, l: Level, s: seq<Level>)
    requires Sorted(side, s)
    ensures Sorted(side, Inserted(side, l, s))
    ensures forall m | NoWorse(side, m, l) && NoneWorse(side, m, s) :: NoneWorse(side, m, Inserted(side, l, s))
  {
    if s != [] && !NoWorse(side, l, s[0]) {
      InsertedSorted(side, l, s[1..]);
      assert NoneWorse(side, s[0], s[1..]);
      assert NoneWorse(side, s[0], Inserted(side, l, s[1..]));
      forall m | NoWorse(side, m, l) && NoneWorse(side, m, s)
        ensures NoneWorse(side, m, Inserted(side, l, s))
      {
        assert NoneWorse(side, m, s[1..]);
      }
    }
  }

  /** A new level goes in front of the levels already there at its price. */
  lemma {:induction false} InsertedAtPrice(side: Side, l: Level, s: seq<Level>, p: real)
    requires Sorted(side, s)
    ensures AtPrice(Inserted(side, l, s), p) == AtPrice([l] + s, p)
  {
    assert ([l] + s)[1..] == s;
    if s != [] && !NoWorse(side, l, s[0]) {
      InsertedAtPrice(side, l, s[1..], p);
      assert ([l] + s[1..])[1..] == s[1..];
      assert ([s[0]] + Inserted(side, l, s[1..]))[1..] == Inserted(side, l, s[1..]);
    }
  }

  /** Sorting keeps exactly the displayed levels, and levels of one price keep their order. */
  lemma {:induction false} SortedLevelsKeep(side: Side, s: seq<Level>, p: real)
    ensures Sorted(side, SortedLevels(side, s))
    ensures multiset(SortedLevels(side, s)) == multiset(s)
    ensures AtPrice(SortedLevels(side, s), p) == AtPrice(s, p)
  {
    if s != [] {
      var rest := SortedLevels(side, s[1..]);
      SortedLevelsKeep(side, s[1..], p);
      InsertedSorted(side, s[0], rest);
      InsertedLevels(side, s[0], rest);
      InsertedAtPrice(side, s[0], rest, p);
      assert s == [s[0]] + s[1..];
      assert ([s[0]] + rest)[1..] == rest;
    }
  }

  lemma SortedLevelsPositive(side: Side, raw: seq<Level>)
    ensures var b := SortedLevels(side, Displayed(raw));
            Sorted(side, b) && PositiveAmounts(b) && multiset(b) == multiset(Displayed(raw))
  {
    var d, b := Displayed(raw), SortedLevels(side, Displayed(raw));
    SortedLevelsKeep(side, d, 0.0);
    forall i | 0 <= i < |b|
      ensures b[i].amount > 0.0
    {
      assert b[i] in multiset(b);
      assert b[i] in multiset(d);
    }
  }

  class OrderBook {
    var bids: seq<Level>
    var asks: seq<Level>

    /** BUY takes from the asks, SELL from the bids. */
    function Levels(side: Side): seq<Level>
      reads this
    {
      if side.Buy? then asks else bids
    }

    /** Both sides sorted, every amount positive: what `FromRaw` builds and every method keeps. */
    ghost predicate Valid()
      reads this
    {
      && Sorted(Buy, asks) && PositiveAmounts(asks)
      && Sorted(Sell, bids) && PositiveAmounts(bids)
    }

    constructor FromRaw(rawBids: seq<Level>, rawAsks: seq<Level>)
      ensures Valid()
      ensures bids == SortedLevels(Sell, Displayed(rawBids))
      ensures asks == SortedLevels(Buy, Displayed(rawAsks))
      ensures multiset(bids) == multiset(Displayed(rawBids)) && multiset(asks) == multiset(Displayed(rawAsks))
    {
      bids := SortedLevels(Sell, Displayed(rawBids));
      asks := SortedLevels(Buy, Displayed(rawAsks));
      SortedLevelsPositive(Sell, rawBids);
      SortedLevelsPositive(Buy, rawAsks);
    }

    constructor Of(newBids: seq<Level>, newAsks: seq<Level>)
      ensures bids == newBids && asks == newAsks
    {
      bids, asks := newBids, newAsks;
    }

    method Walk(side: Side, baseAmount: real) returns (r: Result<WalkResult, BookError>)
      ensures baseAmount <= 0.0 ==> r == Err(NonPositiveAmount)
      ensures baseAmount > 0.0 ==> r == Ok(WalkOf(side, Levels(side), baseAmount))
    {
      if baseAmount <= 0.0 { return Err(NonPositiveAmount); }
      var book := Levels(side);
      if book == [] {
        return Ok(WalkResult(side, baseAmount, 0.0, 0.0, 0.0, 0.0, 0.0, 0, false, 0.0, 0.0));
      }
      var reference := book[0].price;
      var remaining, quote, filled, levels, last := baseAmount, 0.0, 0.0, 0, reference;
      ghost var all := Taken(book, baseAmount);
      var i := 0;
      while i < |book| && remaining > 0.0
        invariant 0 <= i == levels <= |book|
        invariant last == LastPrice(book, levels)
        invariant remaining == baseAmount - filled
        invariant var rest := Taken(book[i..], remaining);
                  all == Sweep(filled + rest.base, quote + rest.quote, levels + rest.levels)
      {
        var lv := book[i];
        assert book[i..][1..] == book[i+1..];
        var take := Min(lv.amount, remaining);
        quote := quote + lv.Quote(take);
        filled := filled + take;
        remaining := remaining - take;
        levels := levels + 1;
        last := lv.price;
        i := i + 1;
      }
      assert all == Sweep(filled, quote, levels);
      var avg := if filled > 0.0 then quote / filled else 0.0;
      var slip := if filled > 0.0 then SlipPct(side, reference, avg) else 0.0;
      return Ok(WalkResult(side, baseAmount, filled, quote, avg, reference, Max(0.0, slip), levels,
                           remaining <= 0.0, last, Depth(book)));
    }

    method WalkQuote(side: Side, quoteAmount: real) returns (r: Result<WalkResult, BookError>)
      requires PositivePrices(Levels(side))
      ensures quoteAmount <= 0.0 ==> r == Err(NonPositiveAmount)
      ensures quoteAmount > 0.0 ==> r == Ok(QuoteWalkOf(side, Levels(side), quoteAmount))
    {
      if quoteAmount <= 0.0 { return Err(NonPositiveAmount); }
      var book := Levels(side);
      if book == [] {
        return Ok(WalkResult(side, 0.0, 0.0, 0.0, 0.0, 0.0, 0.0, 0, false, 0.0, 0.0));
      }
      var reference := book[0].price;
      var remaining, base, spent, levels, last := quoteAmount, 0.0, 0.0, 0, reference;
      ghost var all := Spent(book, quoteAmount);
      var i := 0;
      while i < |book| && remaining > 0.0
        invariant 0 <= i == levels <= |book|
        invariant last == LastPrice(book, levels)
        invariant remaining == quoteAmount - spent
        invariant var rest := Spent(book[i..], remaining);
                  all == Sweep(base + rest.base, spent + rest.quote, levels + rest.levels)
      {
        var lv := book[i];
        assert book[i..][1..] == book[i+1..];
        var takeQuote := Min(lv.Quote(lv.amount), remaining);
        base := base + lv.Base(takeQuote);
        spent := spent + takeQuote;
        remaining := remaining - takeQuote;
        levels := levels + 1;
        last := lv.price;
        i := i + 1;
      }
      assert all == Sweep(base, spent, levels);
      var avg := if base > 0.0 then spent / base else 0.0;
      var slip := SlipPct(side, reference, avg);
      return Ok(WalkResult(side, base, base, spent, avg, reference, if base > 0.0 then Max(0.0, slip) else 0.0,
                           levels, remaining <= 0.0, last, Depth(book)));
    }

    /** The search result, and what it promises: every size up to it fills within the limit. */
    method MaxSizeWithinSlippage(side: Side, maxSlippagePct: real) returns (size: real)
      requires Valid()
      ensures size == MaxSize(side, Levels(side), maxSlippagePct)
      ensures PositivePrices(Levels(side)) ==>
                forall s | 0.0 < s <= size ::
                  WalkOf(side, Levels(side), s).fullyFilled && WalkOf(side, Levels(side), s).slippage <= maxSlippagePct
    {
      var book := Levels(side);
      size := 0.0;
      if book != [] {
        var reference := book[0].price;
        var cumBase, cumQuote := 0.0, 0.0;
        assert book[..0] == [];
        var i := 0;
        while i < |book|
          invariant 0 <= i <= |book|
          invariant size == cumBase == Depth(book[..i]) && size >= 0.0
          invariant Accepted(side, book, maxSlippagePct, i, cumBase, cumQuote) == AcceptedLevels(side, book, maxSlippagePct)
        {
          PrefixGrows(book, i);
          cumBase := cumBase + book[i].amount;
          cumQuote := cumQuote + book[i].Quote(book[i].amount);
          if SlipPct(side, reference, cumQuote / cumBase) > maxSlippagePct { break; }
          size := cumBase;
          i := i + 1;
        }
      }
      if PositivePrices(book) {
        forall s | 0.0 < s <= size
          ensures WalkOf(side, book, s).fullyFilled && WalkOf(side, book, s).slippage <= maxSlippagePct
        {
          MaxSizeIsSafe(side, book, maxSlippagePct, s);
        }
      }
    }

    /** A multiplier <= 1 hands back the book itself; a larger one a fresh, thinner book. */
    method ApplyStress(multiplier: real) returns (r: OrderBook)
      requires Valid()
      ensures multiplier <= 1.0 ==> r == this
      ensures multiplier > 1.0 ==>
                fresh(r) && forall side: Side :: r.Levels(side) == Thinned(Levels(side), multiplier)
      ensures r.Valid()
    {
      if multiplier <= 1.0 { return this; }
      ThinnedBook(Sell, bids, multiplier);
      ThinnedBook(Buy, asks, multiplier);
      r := new OrderBook.Of(Thinned(bids, multiplier), Thinned(asks, multiplier));
    }

    /** Takes `baseAmount` off one side in place; the other side does not change. */
    method Consume(side: Side, baseAmount: real)
      modifies this
      ensures Levels(side) == Consumed(old(Levels(side)), baseAmount)
      ensures side.Buy? ==> bids == old(bids)
      ensures side.Sell? ==> asks == old(asks)
      ensures old(Valid()) ==> Valid()
    {
      var remaining := baseAmount;
      while Levels(side) != [] && remaining > 0.0
        invariant Consumed(Levels(side), remaining) == Consumed(old(Levels(side)), baseAmount)
        invariant side.Buy? ==> bids == old(bids)
        invariant side.Sell? ==> asks == old(asks)
        decreases |Levels(side)|, remaining > 0.0
      {
        var book := Levels(side);
        var lv := book[0];
        if lv.amount <= remaining {
          remaining := remaining - lv.amount;
          book := book[1..];
        } else {
          book := [lv.(amount := lv.amount - remaining)] + book[1..];
          remaining := 0.0;
        }
        if side.Buy? { asks := book; } else { bids := book; }
      }
      if old(Valid()) {
        if baseAmount >= 0.0 { ConsumedBook(side, old(Levels(side)), baseAmount); }
        assert forall s: Side | s != side :: Levels(s) == old(Levels(s));
      }
    }
  }

  /** Consuming twice is consuming the sum, and a walk afterwards completes the walk before. */
  method ConsumeThenWalk(book: OrderBook, side: Side, x: real, y: real) returns (first: WalkResult, second: WalkResult)
    requires book.Valid() && x > 0.0 && y > 0.0
    modifies book
    ensures first.filled + second.filled == WalkOf(side, old(book.Levels(side)), x + y).filled
    ensures first.quote + second.quote == WalkOf(side, old(book.Levels(side)), x + y).quote
    ensures book.Levels(side) == Consumed(old(book.Levels(side)), x + y)
  {
    ghost var levels := book.Levels(side);
    var w := book.Walk(side, x);
    first := w.value;
    book.Consume(side, x);
    w := book.Walk(side, y);
    second := w.value;
    book.Consume(side, y);
    TakenComposes(levels, x, y);
    ConsumedComposes(levels, x, y);
  }
}
