/** Choosing a trade size, and why the guards that check it later cannot object. */
module Sizing {
  import opened Wrappers
  import opened Money
  import opened Walking
  import opened Slippage
  import opened Settings
  import opened SlippageGuards

  /** A venue as the sizing sees it; `book` is the cached side the leg would take. */
  datatype SizingVenue = SizingVenue(name: string, kind: VenueKind, book: Option<seq<Level>>)

  datatype SizingInputs = SizingInputs(
    base: string,
    flashLoan: bool,
    trading: TradingSettings,
    risk: RiskSettings,
    loans: FlashLoanSettings,
    slippage: SlippageSettings,
    usableCapitalUsd: real,
    price: real,
    buy: SizingVenue,
    sell: SizingVenue,
    quoteAvailable: real,
    baseAvailable: real,
    collateralAvailable: real,
    amountStep: Option<real>)

  datatype Note = NoUsableCapital | CappedByDepth(venue: string) | CappedByQuote | CappedByCollateral | CappedByBase

  function Target(inp: SizingInputs): real {
    if inp.flashLoan then Min(inp.loans.maxLoanUsd, inp.risk.maxFlashLoanUsd)
    else Min(inp.trading.maxTradeSizeUsd, PctOf(inp.usableCapitalUsd, inp.risk.maxCapitalUsagePct))
  }

  function Route(inp: SizingInputs): string { inp.buy.name + "->" + inp.sell.name }

  function Leg(inp: SizingInputs, side: Side): SizingVenue { if side.Buy? then inp.buy else inp.sell }

  predicate HasBook(v: SizingVenue) { !v.kind.Dex? && v.book.Some? }

  /** Cached books are built by the order book module: sorted, with positive prices and amounts. */
  ghost predicate BooksValid(inp: SizingInputs) {
    forall side: Side :: Leg(inp, side).book.Some? ==>
      var b := Leg(inp, side).book.value;
      PositiveAmounts(b) && PositivePrices(b) && Sorted(side, b)
  }

  ghost predicate CanCap(inp: SizingInputs) {
    (inp.buy.book.Some? ==> PositiveAmounts(inp.buy.book.value)) && (inp.sell.book.Some? ==> PositiveAmounts(inp.sell.book.value))
  }

  /** The depth of one leg within its slippage limit, computed for the whole target. */
  function DepthCap(inp: SizingInputs, side: Side): real
    requires HasBook(Leg(inp, side)) && CanCap(inp)
  {
    var v := Leg(inp, side);
    MaxSize(side, v.book.value, LimitOf(inp.slippage, inp.base, v.name, Route(inp), Target(inp)))
  }

  /** Base that a quote balance pays for, with 2% left for fees. */
  function Affordable(quoteBalance: real, price: real): real
    requires price > 0.0
  {
    quoteBalance / price * 0.98
  }

  function InventoryCaps(inp: SizingInputs): seq<real>
    requires inp.price > 0.0
  {
    if inp.flashLoan then []
    else [Affordable(inp.quoteAvailable, inp.price),
          if inp.sell.kind.Perp? then Affordable(inp.collateralAvailable, inp.price) else inp.baseAvailable]
  }

  function DepthCaps(inp: SizingInputs, side: Side): seq<real>
    requires CanCap(inp)
  {
    if HasBook(Leg(inp, side)) then [DepthCap(inp, side)] else []
  }

  /** Every limit on the size besides the target itself. */
  function Caps(inp: SizingInputs): seq<real>
    requires inp.price > 0.0 && CanCap(inp)
  {
    DepthCaps(inp, Buy) + DepthCaps(inp, Sell) + InventoryCaps(inp)
  }

  function Least(x: real, caps: seq<real>): (r: real)
    ensures r <= x && forall i | 0 <= i < |caps| :: r <= caps[i]
    ensures r == x || exists i | 0 <= i < |caps| :: r == caps[i]
    ensures r == x <==> forall i | 0 <= i < |caps| :: x <= caps[i]
  {
    if caps == [] then x
    else
      var n := |caps| - 1;
      var r := Least(x, caps[..n]);
      assert forall i | 0 <= i < n :: caps[..n][i] == caps[i];
      Min(r, caps[n])
  }

  function Step(inp: SizingInputs): real { if inp.amountStep.Some? then inp.amountStep.value else 0.000001 }

  function Unrounded(inp: SizingInputs): real
    requires inp.price > 0.0 && CanCap(inp)
  {
    Least(Target(inp) / inp.price, Caps(inp))
  }

  /** The picked size: the least of target and caps, never negative, rounded down to the step. */
  function Picked(inp: SizingInputs): real
    requires inp.price > 0.0 && CanCap(inp)
  {
    if Target(inp) <= 0.0 then 0.0 else FloorToStep(Max(0.0, Unrounded(inp)), Step(inp))
  }

  ghost predicate Uncapped(inp: SizingInputs)
    requires inp.price > 0.0 && CanCap(inp)
  {
    Target(inp) > 0.0 && Unrounded(inp) == Target(inp) / inp.price
  }

  lemma LeastAppend(x: real, caps: seq<real>, c: real)
    ensures Least(x, caps + [c]) == Min(Least(x, caps), c)
  {
    assert (caps + [c])[..|caps|] == caps;
  }

  /** One cap applied to the running size, with a note when it binds. */
  method ApplyCap(full: real, size: real, notes: seq<Note>, cap: real, note: Note, ghost caps: seq<real>)
    returns (size': real, notes': seq<Note>, ghost caps': seq<real>)
    requires size == Least(full, caps) && (notes == [] <==> size == full)
    ensures caps' == caps + [cap]
    ensures size' == Least(full, caps') && (notes' == [] <==> size' == full)
  {
    LeastAppend(full, caps, cap);
    size', notes', caps' := size, notes, caps + [cap];
    if cap < size {
      notes' := notes + [note];
      size' := cap;
    }
  }

  method ApplyDepthCap(inp: SizingInputs, side: Side, full: real, size: real, notes: seq<Note>, ghost caps: seq<real>)
    returns (size': real, notes': seq<Note>, ghost caps': seq<real>)
    requires CanCap(inp) && size == Least(full, caps) && (notes == [] <==> size == full)
    ensures caps' == caps + DepthCaps(inp, side)
    ensures size' == Least(full, caps') && (notes' == [] <==> size' == full)
  {
    hide DepthCap, Least;
    size', notes', caps' := size, notes, caps;
    var v := Leg(inp, side);
    if HasBook(v) {
      size', notes', caps' := ApplyCap(full, size, notes, DepthCap(inp, side), CappedByDepth(v.name), caps);
    }
  }

  method ApplyInventoryCaps(inp: SizingInputs, full: real, size: real, notes: seq<Note>, ghost caps: seq<real>)
    returns (size': real, notes': seq<Note>, ghost caps': seq<real>)
    requires inp.price > 0.0 && size == Least(full, caps) && (notes == [] <==> size == full)
    ensures caps' == caps + InventoryCaps(inp)
    ensures size' == Least(full, caps') && (notes' == [] <==> size' == full)
  {
    hide Affordable, Least;
    size', notes', caps' := size, notes, caps;
    if !inp.flashLoan {
      size', notes', caps' := ApplyCap(full, size', notes', Affordable(inp.quoteAvailable, inp.price), CappedByQuote, caps');
      var available, note := inp.baseAvailable, CappedByBase;
      if inp.sell.kind.Perp? { available, note := Affordable(inp.collateralAvailable, inp.price), CappedByCollateral; }
      size', notes', caps' := ApplyCap(full, size', notes', available, note, caps');
    }
  }

  /** Depth and inventory caps, in the order they are applied. */
  method ApplyCaps(inp: SizingInputs, full: real) returns (size: real, notes: seq<Note>)
    requires inp.price > 0.0 && CanCap(inp)
    ensures size == Least(full, Caps(inp)) && (notes == [] <==> size == full)
  {
    hide DepthCaps, InventoryCaps, Least;
    LeastOfNone(full);
    size, notes := full, [];
    ghost var caps: seq<real> := [];
    size, notes, caps := ApplyDepthCap(inp, Buy, full, size, notes, caps);
    size, notes, caps := ApplyDepthCap(inp, Sell, full, size, notes, caps);
    size, notes, caps := ApplyInventoryCaps(inp, full, size, notes, caps);
    assert caps == Caps(inp);
  }

  method PickSize(inp: SizingInputs) returns (size: real, notes: seq<Note>)
    requires inp.price > 0.0 && CanCap(inp)
    ensures size == Picked(inp)
    ensures notes == [] <==> Uncapped(inp)
  {
    hide Caps, Target, Least, FloorToStep, Max;
    var target := Target(inp);
    if target <= 0.0 { return 0.0, [NoUsableCapital]; }
    size, notes := ApplyCaps(inp, target / inp.price);
    size := FloorToStep(Max(0.0, size), Step(inp));
  }

  lemma LeastOfNone(x: real)
    ensures Least(x, []) == x
  {
  }

  // --- the size passes what checks it later ------------------------------------------------------

  /** The quote an order-book venue returns for a size. */
  function BookQuote(v: SizingVenue, side: Side, size: real, feePct: Option<real>): ExecutionQuote
    requires v.book.Some?
  {
    var w := WalkOf(side, v.book.value, size);
    ExecutionQuote(v.name, v.kind, None, size, w.quote, w.avg, w.reference, w.slippage, 0.0, w.fullyFilled, 0,
                   feePct, None, false, feePct)
  }

  lemma PickedBelow(inp: SizingInputs)
    requires inp.price > 0.0 && CanCap(inp) && Picked(inp) > 0.0
    ensures Target(inp) > 0.0 && 0.0 < Picked(inp) <= Unrounded(inp)
    ensures Picked(inp) * inp.price <= Target(inp)
    ensures forall i | 0 <= i < |Caps(inp)| :: Picked(inp) <= Caps(inp)[i]
  {
    hide DepthCap, Affordable, Target, Least;
    var least := Unrounded(inp);
    assert Target(inp) > 0.0;
    FloorToStepBelow(Max(0.0, least), Step(inp));
    assert FloorToStep(0.0, Step(inp)) <= 0.0 by { FloorToStepBelow(0.0, Step(inp)); }
    assert least > 0.0;
    QuotientBelow(Picked(inp), Target(inp), inp.price);
  }

  /** The USD value of a trade stays within both of its limits. */
  predicate WithinTarget(inp: SizingInputs, usd: real) {
    if inp.flashLoan then usd <= inp.loans.maxLoanUsd && usd <= inp.risk.maxFlashLoanUsd
    else usd <= inp.trading.maxTradeSizeUsd && usd <= inp.usableCapitalUsd * inp.risk.maxCapitalUsagePct / 100.0
  }

  /** The value aimed at is the smaller of the limits. */
  predicate IsTarget(inp: SizingInputs, target: real) {
    && WithinTarget(inp, target)
    && (if inp.flashLoan then target == inp.loans.maxLoanUsd || target == inp.risk.maxFlashLoanUsd
        else target == inp.trading.maxTradeSizeUsd || target == inp.usableCapitalUsd * inp.risk.maxCapitalUsagePct / 100.0)
  }

  /** The cached book of an order-book venue holds the size within the slippage limit of the whole target. */
  ghost predicate DepthHolds(inp: SizingInputs, v: SizingVenue, side: Side, size: real, target: real)
    requires v.book.Some? ==> PositiveAmounts(v.book.value)
  {
    v.kind != Dex && v.book.Some? ==>
      size <= MaxSize(side, v.book.value, LimitOf(inp.slippage, inp.base, v.name, inp.buy.name + "->" + inp.sell.name, target))
  }

  /** Everything a size worth `usd` has to fit: its target, both books, and what is there for it unless it is borrowed. */
  ghost predicate Fits(inp: SizingInputs, size: real, usd: real, target: real)
    requires CanCap(inp)
  {
    && WithinTarget(inp, usd)
    && DepthHolds(inp, inp.buy, Buy, size, target) && DepthHolds(inp, inp.sell, Sell, size, target)
    && (!inp.flashLoan ==> MoneyThere(inp, size, usd))
  }

  /** 98% of the quote pays for the purchase; the base to sell, or 98% of the collateral to post, is there. */
  predicate MoneyThere(inp: SizingInputs, size: real, usd: real) {
    && usd <= inp.quoteAvailable * 0.98
    && (if inp.sell.kind.Perp? then usd <= inp.collateralAvailable * 0.98 else size <= inp.baseAvailable)
  }

  lemma TargetIs(inp: SizingInputs, usd: real, target: real)
    requires IsTarget(inp, target)
    ensures target == Target(inp) && (WithinTarget(inp, usd) <==> usd <= Target(inp))
  {
  }

  ghost predicate AllAtLeast(caps: seq<real>, size: real) { forall i | 0 <= i < |caps| :: size <= caps[i] }

  lemma OneAtLeast(cap: real, size: real)
    ensures AllAtLeast([cap], size) <==> size <= cap
    ensures AllAtLeast([], size)
  {
    assert [cap][0] == cap;
  }

  lemma JoinedAtLeast(a: seq<real>, b: seq<real>, size: real)
    ensures AllAtLeast(a + b, size) <==> AllAtLeast(a, size) && AllAtLeast(b, size)
  {
    assert forall i | 0 <= i < |a| :: a[i] == (a + b)[i];
    assert forall i | 0 <= i < |b| :: b[i] == (a + b)[|a| + i];
  }

  lemma DepthHoldsIff(inp: SizingInputs, side: Side, size: real)
    requires CanCap(inp)
    ensures DepthHolds(inp, Leg(inp, side), side, size, Target(inp)) <==> AllAtLeast(DepthCaps(inp, side), size)
  {
    hide Target, MaxSize, LimitOf, AllAtLeast;
    if HasBook(Leg(inp, side)) { OneAtLeast(DepthCap(inp, side), size); } else { OneAtLeast(0.0, size); }
  }

  lemma AffordableIff(size: real, balance: real, price: real, usd: real)
    requires price > 0.0 && usd == size * price
    ensures size <= Affordable(balance, price) <==> usd <= balance * 0.98
  {
    var q := balance / price;
    assert q * price == balance;
    ScaledCompare(size, q * 0.98, price);
    assert q * 0.98 * price == balance * 0.98;
  }

  lemma QuotientIff(size: real, target: real, price: real, usd: real)
    requires price > 0.0 && usd == size * price
    ensures size <= target / price <==> usd <= target
  {
    assert target / price * price == target;
    ScaledCompare(size, target / price, price);
  }

  /** What fits is what stays below the least of target and caps. */
  lemma FitsIff(inp: SizingInputs, size: real, usd: real, target: real)
    requires inp.price > 0.0 && CanCap(inp) && IsTarget(inp, target) && usd == size * inp.price
    ensures Fits(inp, size, usd, target) <==> size <= Unrounded(inp)
  {
    hide DepthHolds, DepthCaps, InventoryCaps, Target, WithinTarget, IsTarget, Least, AllAtLeast, MoneyThere, CanCap;
    TargetIs(inp, usd, target);
    QuotientIff(size, Target(inp), inp.price, usd);
    DepthHoldsIff(inp, Buy, size);
    DepthHoldsIff(inp, Sell, size);
    InventoryIff(inp, size, usd);
    LeastIff(Target(inp) / inp.price, Caps(inp), size);
    JoinedAtLeast(DepthCaps(inp, Buy) + DepthCaps(inp, Sell), InventoryCaps(inp), size);
    JoinedAtLeast(DepthCaps(inp, Buy), DepthCaps(inp, Sell), size);
  }

  lemma InventoryIff(inp: SizingInputs, size: real, usd: real)
    requires inp.price > 0.0 && usd == size * inp.price
    ensures AllAtLeast(InventoryCaps(inp), size) <==> (!inp.flashLoan ==> MoneyThere(inp, size, usd))
  {
    hide Affordable, AllAtLeast;
    var second := if inp.sell.kind.Perp? then Affordable(inp.collateralAvailable, inp.price) else inp.baseAvailable;
    AffordableIff(size, inp.quoteAvailable, inp.price, usd);
    AffordableIff(size, inp.collateralAvailable, inp.price, usd);
    OneAtLeast(Affordable(inp.quoteAvailable, inp.price), size);
    OneAtLeast(second, size);
    JoinedAtLeast([Affordable(inp.quoteAvailable, inp.price)], [second], size);
    assert [Affordable(inp.quoteAvailable, inp.price)] + [second] == [Affordable(inp.quoteAvailable, inp.price), second];
  }

  lemma LeastIff(x: real, caps: seq<real>, size: real)
    ensures size <= Least(x, caps) <==> size <= x && AllAtLeast(caps, size)
  {
  }

  /** The step of the market, or a millionth where none is known. */
  ghost predicate IsStep(inp: SizingInputs, step: real) {
    step > 0.0 && (inp.amountStep == Some(step) || (inp.amountStep.None? && step == 0.000001))
  }

  /** Nothing capped the size exactly when the whole target fits. */
  lemma UncappedIff(inp: SizingInputs, target: real)
    requires inp.price > 0.0 && CanCap(inp) && IsTarget(inp, target)
    ensures Uncapped(inp) <==> target > 0.0 && Fits(inp, target / inp.price, target, target)
  {
    hide Target, Fits, CanCap, Caps;
    TargetIs(inp, target, target);
    hide IsTarget;
    FitsIff(inp, target / inp.price, target, target);
  }

  /** The picked size is on the grid of the exchange: a whole number of steps that fits. */
  lemma PickedOnGrid(inp: SizingInputs, target: real, step: real) returns (k: nat)
    requires inp.price > 0.0 && CanCap(inp) && IsTarget(inp, target) && IsStep(inp, step)
    ensures Picked(inp) == k as real * step
    ensures k > 0 ==> Fits(inp, Picked(inp), Picked(inp) * inp.price, target)
  {
    hide Target, FloorToStep, Unrounded, Fits, IsTarget, CanCap;
    assert step == Step(inp);
    if Target(inp) <= 0.0 { return 0; }
    k := FloorToStepGrid(Max(0.0, Unrounded(inp)), step);
    if k > 0 {
      MulStrict(0.0, k as real, step);
      FitsIff(inp, Picked(inp), Picked(inp) * inp.price, target);
    }
  }

  /** And no larger number of steps fits. */
  lemma PickedIsLargest(inp: SizingInputs, target: real, step: real, k: nat, size: real)
    requires inp.price > 0.0 && CanCap(inp) && IsTarget(inp, target) && IsStep(inp, step)
    requires size == k as real * step && Fits(inp, size, size * inp.price, target)
    ensures size <= Picked(inp)
  {
    FitsIff(inp, size, size * inp.price, target);
    hide Target, FloorToStep, Fits, IsTarget, Unrounded;
    assert step == Step(inp);
    NoTargetNoRoom(inp);
    LargestStep(Unrounded(inp), step, k, size);
  }

  lemma NoTargetNoRoom(inp: SizingInputs)
    requires inp.price > 0.0 && CanCap(inp)
    ensures Target(inp) <= 0.0 ==> Unrounded(inp) <= 0.0
  {
    hide Caps, Target;
    if Target(inp) <= 0.0 { DivMono(Target(inp), 0.0, inp.price); }
  }

  lemma LargestStep(room: real, step: real, k: nat, size: real)
    requires step > 0.0 && size == k as real * step && size <= room
    ensures size <= FloorToStep(Max(0.0, room), step) && (room <= 0.0 ==> size <= 0.0)
  {
    hide FloorToStep;
    FloorToStepLargest(Max(0.0, room), step, k);
  }

  lemma QuotientBelow(x: real, target: real, price: real)
    requires price > 0.0 && x <= target / price
    ensures x * price <= target
  {
    var q := target / price;
    assert q * price == target;
    MulMono(x, q, price);
  }

  /**
   * On every order-book leg with a cached book the picked size fills completely and passes the slippage
   * guard at its own, smaller notional: the limit used for sizing is the tighter one.
   */
  lemma SizePassesSlippageGuard(inp: SizingInputs, side: Side, feePct: Option<real>)
    requires inp.price > 0.0 && CanCap(inp) && BooksValid(inp) && Picked(inp) > 0.0
    requires HasBook(Leg(inp, side)) && NonIncreasing(SortedTiers(inp.slippage.sizeTiers))
    ensures var q := BookQuote(Leg(inp, side), side, Picked(inp), feePct);
            q.fullyFillable && Passes(inp.slippage, q, Route(inp), Picked(inp) * inp.price, inp.base)
  {
    hide WalkOf, LimitOf, MaxSize, NonIncreasing, Target, Picked, Affordable;
    PickedBelow(inp);
    var v := Leg(inp, side);
    var limit := LimitOf(inp.slippage, inp.base, v.name, Route(inp), Target(inp));
    var k := if side.Sell? && HasBook(inp.buy) then 1 else 0;
    assert Caps(inp)[k] == DepthCap(inp, side);
    MaxSizeIsSafe(side, v.book.value, limit, Picked(inp));
    LimitShrinks(inp.slippage, inp.base, v.name, Route(inp), Picked(inp) * inp.price, Target(inp));
  }

  /** Prefunded trades stay within the maximum trade size, the usable capital and the base held for the sale. */
  lemma SizeFitsCapitalAndBase(inp: SizingInputs)
    requires inp.price > 0.0 && CanCap(inp) && Picked(inp) > 0.0 && !inp.flashLoan
    ensures Picked(inp) * inp.price <= inp.trading.maxTradeSizeUsd
    ensures Picked(inp) * inp.price <= PctOf(inp.usableCapitalUsd, inp.risk.maxCapitalUsagePct)
    ensures !inp.sell.kind.Perp? ==> Picked(inp) <= inp.baseAvailable
    ensures Picked(inp) <= Affordable(inp.quoteAvailable, inp.price)
    ensures inp.sell.kind.Perp? ==> Picked(inp) <= Affordable(inp.collateralAvailable, inp.price)
  {
    hide DepthCap, Affordable, PctOf, Picked;
    PickedBelow(inp);
    var n := |Caps(inp)|;
    assert Caps(inp)[n-2] == InventoryCaps(inp)[0] && Caps(inp)[n-1] == InventoryCaps(inp)[1];
  }

  /** Quote needed for a purchase at an average price, fee included. */
  function QuoteNeeded(size: real, avg: real, feePct: real): real { size * avg * (1.0 + feePct / 100.0) }

  /** The 2% margin covers price and fee whenever avg * (1 + fee) * 0.98 stays within the sizing price. */
  lemma QuoteBalanceSuffices(inp: SizingInputs, avg: real, feePct: real)
    requires inp.price > 0.0 && CanCap(inp) && Picked(inp) > 0.0 && !inp.flashLoan
    requires avg >= 0.0 && feePct >= 0.0 && avg * (1.0 + feePct / 100.0) * 0.98 <= inp.price
    ensures QuoteNeeded(Picked(inp), avg, feePct) <= inp.quoteAvailable
  {
    hide Picked, Affordable, QuoteNeeded;
    SizeFitsCapitalAndBase(inp);
    NeededFits(Picked(inp), inp.quoteAvailable, inp.price, avg, feePct);
  }

  lemma NeededFits(size: real, balance: real, price: real, avg: real, feePct: real)
    requires price > 0.0 && 0.0 < size <= Affordable(balance, price)
    requires avg >= 0.0 && feePct >= 0.0 && avg * (1.0 + feePct / 100.0) * 0.98 <= price
    ensures QuoteNeeded(size, avg, feePct) <= balance
  {
    hide Affordable;
    var factor := 1.0 + feePct / 100.0;
    MulNonNeg(avg, factor);
    MarginCovers(size, balance, price, avg * factor);
    assert size * avg * factor == size * (avg * factor);
  }

  /** A size of exactly the affordable base is covered if and only if that condition holds. */
  lemma AffordableCoveredIff(balance: real, price: real, allIn: real)
    requires price > 0.0 && balance > 0.0
    ensures Affordable(balance, price) * allIn <= balance <==> allIn * 0.98 <= price
  {
    var q := balance / price;
    assert q * price == balance;
    assert q > 0.0 by { PositiveQuotient(balance, price); }
    assert Affordable(balance, price) * allIn == allIn * 0.98 * q;
    ScaledCompare(allIn * 0.98, price, q);
  }

  lemma PositiveQuotient(a: real, b: real)
    requires a > 0.0 && b > 0.0
    ensures a / b > 0.0
  {
  }

  lemma MarginCovers(size: real, balance: real, price: real, allIn: real)
    requires price > 0.0 && 0.0 < size <= Affordable(balance, price)
    requires 0.0 <= allIn && allIn * 0.98 <= price
    ensures size * allIn <= balance
  {
    assert balance > 0.0 by { QuotientBelow(size / 0.98, balance, price); assert size / 0.98 * price > 0.0; }
    MulMono(size, Affordable(balance, price), allIn);
    AffordableCoveredIff(balance, price, allIn);
  }
}
