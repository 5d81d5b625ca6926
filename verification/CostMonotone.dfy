/** Raising a cost can only take approvals away, and where that stops being true. */
module CostMonotone {
  import opened Wrappers
  import opened Money
  import opened Settings
  import opened ProfitGuards
  import opened ProfitTheorems

  ghost predicate FeeDearer(a: Option<real>, b: Option<real>) {
    a == b || (a.Some? && b.Some? && a.value <= b.value)
  }

  /** A transfer fee that rose or became unknown. */
  ghost predicate TransferDearer(a: Option<real>, b: Option<real>) {
    a == b || (a.Some? && (b.None? || a.value <= b.value))
  }

  /** The fee of a maker leg counts as dearer once it is not below the taker fee: no discount is left to lose. */
  ghost predicate NoMakerDiscount(q: ExecutionQuote) {
    q.takerFeePct.Some? && q.feePct.Some? ==> q.takerFeePct.value <= q.feePct.value
  }

  /** A maker fee that rises at the cost of its discount, in percent of what is traded at no less than the reference price. */
  ghost predicate CoversDiscount(q: ExecutionQuote, isBuy: bool) {
    q.feeInQuote.None? && (isBuy || q.referencePrice <= q.avgPrice)
  }

  /**
   * A leg may charge a higher fee, with two exceptions whose rise can lower a cost: the fee of a pool where fees are
   * stressed less than slippage (`DexFeeImprovesIff`), and a maker fee whose discount is worth more than the fee, on a
   * sale below its reference or where the quote names the fee (`MakerFeeFallsIff`).
   */
  ghost predicate LegDearer(a: ExecutionQuote, b: ExecutionQuote, t: TradingSettings, isBuy: bool) {
    && b == a.(feePct := b.feePct, feeInQuote := b.feeInQuote)
    && FeeDearer(a.feePct, b.feePct) && FeeDearer(a.feeInQuote, b.feeInQuote)
    && (a.kind.Dex? ==> a.feePct == b.feePct || t.worstCaseSlippageMultiplier <= t.worstCaseFeeMultiplier)
    && (!a.kind.Dex? && a.isMaker ==> a.feePct == b.feePct || NoMakerDiscount(a) || CoversDiscount(a, isBuy))
  }

  ghost predicate GasDearer(a: Option<GasAssessment>, b: Option<GasAssessment>) {
    || a == b
    || (&& a.Some? && b.Some?
        && a.value.regime == b.value.regime && a.value.passed == b.value.passed && a.value.reasons == b.value.reasons
        && a.value.expected <= b.value.expected && a.value.stress <= b.value.stress
        && a.value.priorityFee <= b.value.priorityFee)
  }

  /** `b` is `a` with some of its costs raised. */
  ghost predicate Dearer(a: Inputs, b: Inputs) {
    && b == a.(buy := b.buy, sell := b.sell, gas := b.gas, experienceExtraPct := b.experienceExtraPct,
               fundingCostUsd := b.fundingCostUsd, bridgeFeeUsd := b.bridgeFeeUsd,
               withdrawalFeeUsd := b.withdrawalFeeUsd, depositFeeUsd := b.depositFeeUsd)
    && LegDearer(a.buy, b.buy, a.trading, true) && LegDearer(a.sell, b.sell, a.trading, false) && GasDearer(a.gas, b.gas)
    && a.experienceExtraPct <= b.experienceExtraPct && a.fundingCostUsd <= b.fundingCostUsd
    && TransferDearer(a.bridgeFeeUsd, b.bridgeFeeUsd) && TransferDearer(a.withdrawalFeeUsd, b.withdrawalFeeUsd)
    && TransferDearer(a.depositFeeUsd, b.depositFeeUsd)
  }

  lemma PctOfMono(value: real, p: real, q: real)
    requires value >= 0.0 && p <= q
    ensures PctOf(value, p) <= PctOf(value, q)
  {
    MulMono(p, q, value);
  }

  function Deviated(l: LegCosts): real { l.swapFee + l.impact + l.slip }

  /** The fees of a leg rise, by more than its maker adjustment falls; its deviation is the same, stressed no less. */
  ghost predicate LegRises(l: LegCosts, m: LegCosts, t: TradingSettings) {
    && l.tradingFee <= m.tradingFee && l.tradingFee + l.makerTaker <= m.tradingFee + m.makerTaker
    && Deviated(l) == Deviated(m) && Deviated(Stressed(l, t)) <= Deviated(Stressed(m, t))
    && l.unknown == m.unknown
  }

  lemma LegAttributionMono(a: ExecutionQuote, b: ExecutionQuote, notional: real, deviation: real, t: TradingSettings, isBuy: bool)
    requires LegDearer(a, b, t, isBuy) && notional >= 0.0 && deviation >= 0.0 && (isBuy || deviation <= notional)
    requires !isBuy && a.referencePrice <= a.avgPrice ==> deviation == 0.0
    ensures LegRises(LegAttribution(a, notional, deviation, t, isBuy), LegAttribution(b, notional, deviation, t, isBuy), t)
  {
    hide PctOf, Scaled;
    if a.kind.Dex? {
      DexLegMono(a, b, notional, deviation, t);
    } else if a.feePct.Some? && b.feePct.Some? {
      var executed := notional + (if isBuy then deviation else -deviation);
      PctOfMono(executed, a.feePct.value, b.feePct.value);
      if a.isMaker && a.takerFeePct.Some? && CoversDiscount(a, isBuy) {
        DiscountCovered(notional, executed, a.feePct.value, b.feePct.value, a.takerFeePct.value);
      }
    }
  }

  lemma DexLegMono(a: ExecutionQuote, b: ExecutionQuote, notional: real, deviation: real, t: TradingSettings)
    requires LegDearer(a, b, t, true) && a.kind.Dex? && notional >= 0.0 && deviation >= 0.0
    ensures LegRises(DexLeg(a, notional, deviation), DexLeg(b, notional, deviation), t)
  {
    hide PctOf, Scaled;
    LegAttributionExact(a, notional, deviation, t, true);
    LegAttributionExact(b, notional, deviation, t, true);
    if a.feePct != b.feePct { DexFeeImprovesIff(a, b.feePct.value, notional, deviation, t); }
  }

  /** A fee on at least the notional rises by at least what the discount on the notional loses. */
  lemma DiscountCovered(notional: real, executed: real, f: real, f': real, taker: real)
    requires 0.0 <= notional <= executed && f <= f'
    ensures PctOf(executed, f) + PctOf(notional, Max(0.0, taker - f)) <= PctOf(executed, f') + PctOf(notional, Max(0.0, taker - f'))
  {
    var lost := Max(0.0, taker - f) - Max(0.0, taker - f');
    assert 0.0 <= lost <= f' - f;
    PctOfSplits(executed, f, f');
    PctOfSplits(notional, Max(0.0, taker - f'), Max(0.0, taker - f));
    PctOfMono(notional, lost, f' - f);
    PctOfValueMono(notional, executed, f' - f);
  }

  lemma PctOfSplits(value: real, p: real, q: real)
    ensures PctOf(value, q) - PctOf(value, p) == PctOf(value, q - p)
  {
  }

  lemma PctOfValueMono(x: real, y: real, p: real)
    requires x <= y && p >= 0.0
    ensures PctOf(x, p) <= PctOf(y, p)
  {
    MulMono(x, y, p);
  }

  /** A dearer case trades the same size at the same prices. */
  lemma SameNotionals(a: Inputs, b: Inputs)
    requires Dearer(a, b)
    ensures BuyRef(a) == BuyRef(b) && SellRef(a) == SellRef(b) && BuyExec(a) == BuyExec(b) && SellExec(a) == SellExec(b)
    ensures OnChain(a) == OnChain(b) && Trips(a) == Trips(b) && Tolerance(a) == Tolerance(b)
  {
    assert Size(a) == Size(b);
    hide Size, GasDearer, TransferDearer, FeeDearer;
  }

  lemma LegsMono(a: Inputs, b: Inputs)
    requires Dearer(a, b) && Sane(a)
    ensures BuyRef(a) == BuyRef(b) && SellRef(a) == SellRef(b) && BuyExec(a) == BuyExec(b) && SellExec(a) == SellExec(b)
    ensures LegRises(BuyLeg(a), BuyLeg(b), a.trading) && LegRises(SellLeg(a), SellLeg(b), a.trading)
    ensures OnChain(a) == OnChain(b) && Trips(a) == Trips(b) && Tolerance(a) == Tolerance(b)
  {
    hide LegAttribution, LegRises, LegDearer, GasDearer, TransferDearer, BuyRef, SellRef, BuyExec, SellExec, Sane, Tolerance, OnChain;
    SameNotionals(a, b);
    NotionalsNonNeg(a);
    if a.sell.referencePrice <= a.sell.avgPrice { NoSellDeviation(a); }
    LegAttributionMono(a.buy, b.buy, BuyRef(a), BuyDeviation(a), a.trading, true);
    LegAttributionMono(a.sell, b.sell, SellRef(a), SellDeviation(a), a.trading, false);
  }

  lemma NoSellDeviation(inp: Inputs)
    requires Sane(inp) && inp.sell.referencePrice <= inp.sell.avgPrice
    ensures SellDeviation(inp) == 0.0
  {
    ValueMono(Size(inp), inp.sell.referencePrice, inp.sell.avgPrice, inp.rate);
  }

  lemma ValueMono(size: real, p: real, q: real, rate: real)
    requires size >= 0.0 && rate >= 0.0 && p <= q
    ensures size * p * rate <= size * q * rate
  {
    MulMono(p, q, size);
    MulMono(size * p, size * q, rate);
  }

  lemma FundingMono(a: Inputs, b: Inputs)
    requires a.fundingCostUsd <= b.fundingCostUsd && a.trading == b.trading && a.trading.worstCaseFeeMultiplier >= 1.0
    ensures WorstFunding(a) <= WorstFunding(b)
  {
    hide Scaled;
    ScaledMono(a.fundingCostUsd, b.fundingCostUsd, a.trading.worstCaseFeeMultiplier);
    if b.fundingCostUsd > 0.0 { RepeatedAtLeast(b.fundingCostUsd, b.trading.worstCaseFeeMultiplier); }
  }

  /** Fees with the maker adjustment, execution costs together, and each other component of a sheet are no lower. */
  ghost predicate Rises(x: Costs, y: Costs) {
    && x.buyTradingFee <= y.buyTradingFee && x.sellTradingFee <= y.sellTradingFee
    && x.buyTradingFee + x.sellTradingFee + x.makerTakerAdjustment <= y.buyTradingFee + y.sellTradingFee + y.makerTakerAdjustment
    && x.ExecutionCosts() <= y.ExecutionCosts()
    && CostsLe(x.(makerTakerAdjustment := 0.0, dexSwapFee := 0.0, priceImpact := 0.0, slippage := 0.0),
               y.(makerTakerAdjustment := 0.0, dexSwapFee := 0.0, priceImpact := 0.0, slippage := 0.0))
  }

  lemma RisesTotal(x: Costs, y: Costs)
    requires Rises(x, y)
    ensures x.Total() <= y.Total()
  {
  }

  /** A rise repeated or stressed is at least the rise itself. */
  lemma RepeatedGap(x: real, y: real, n: real)
    requires x <= y && n >= 1.0
    ensures y - x <= Scaled(y, n) - Scaled(x, n)
  {
    ScaledSum(y, x, n);
    RepeatedAtLeast(y - x, n);
  }

  lemma ScaledThree(x: real, y: real, z: real, n: real)
    ensures Scaled(x, n) + Scaled(y, n) + Scaled(z, n) == Scaled(x + y + z, n)
  {
    hide Scaled;
    ScaledSum(x, y, n);
    ScaledSum(x + y, z, n);
  }

  /** The trading fees of the two legs, stressed or not, once per trip, with the maker adjustment. */
  lemma FeesMono(l: LegCosts, m: LegCosts, n: real, fm: real)
    requires l.tradingFee <= m.tradingFee && l.tradingFee + l.makerTaker <= m.tradingFee + m.makerTaker && n >= 1.0 && fm >= 1.0
    ensures Scaled(l.tradingFee, n) <= Scaled(m.tradingFee, n)
    ensures Scaled(l.tradingFee, n) + l.makerTaker <= Scaled(m.tradingFee, n) + m.makerTaker
    ensures Scaled(Scaled(l.tradingFee, fm), n) <= Scaled(Scaled(m.tradingFee, fm), n)
    ensures Scaled(Scaled(l.tradingFee, fm), n) + l.makerTaker <= Scaled(Scaled(m.tradingFee, fm), n) + m.makerTaker
  {
    hide Scaled;
    RepeatedGap(l.tradingFee, m.tradingFee, n);
    RepeatedGap(l.tradingFee, m.tradingFee, fm);
    RepeatedGap(Scaled(l.tradingFee, fm), Scaled(m.tradingFee, fm), n);
  }

  lemma ExecutionMono(a: Inputs, b: Inputs)
    requires Dearer(a, b) && Sane(a)
    ensures Expected(a).ExecutionCosts() <= Expected(b).ExecutionCosts()
    ensures Worst(a).ExecutionCosts() <= Worst(b).ExecutionCosts()
  {
    hide LegAttribution, Scaled, BuyLeg, SellLeg, Costs.ExecutionCosts, Expected, Worst, LegDearer, Stressed, Deviated, Tolerance, Trips;
    assert Trips(a) >= 1.0 by { DeviationNonNeg(a); }
    LegsMono(a, b);
    ExecutionIs(a);
    ExecutionIs(b);
    ScaledMono(Deviated(Stressed(BuyLeg(a), a.trading)) + Deviated(Stressed(SellLeg(a), a.trading)),
               Deviated(Stressed(BuyLeg(b), a.trading)) + Deviated(Stressed(SellLeg(b), a.trading)), Trips(a));
  }

  lemma ExecutionIs(inp: Inputs)
    ensures Expected(inp).ExecutionCosts() == Scaled(Deviated(BuyLeg(inp)) + Deviated(SellLeg(inp)), Trips(inp))
    ensures Worst(inp).ExecutionCosts()
            == Scaled(Deviated(Stressed(BuyLeg(inp), inp.trading)) + Deviated(Stressed(SellLeg(inp), inp.trading)), Trips(inp)) + Tolerance(inp)
  {
    hide LegAttribution, Scaled, ValueAt, PctOf, WorstGas, WorstFunding, ExpectedGas, PriorityFee, Stressed, Trips, Tolerance;
    var n, b, s := Trips(inp), BuyLeg(inp), SellLeg(inp);
    var bw, sw := Stressed(b, inp.trading), Stressed(s, inp.trading);
    ScaledThree(b.swapFee + s.swapFee, b.impact + s.impact, b.slip + s.slip, n);
    ScaledThree(bw.swapFee + sw.swapFee, bw.impact + sw.impact, bw.slip + sw.slip, n);
  }

  /**
   * Both sheets rise, expected and worst case. Where the attribution of the deviation and the maker adjustment stay, each
   * of the twenty components does.
   */
  lemma CostsMono(a: Inputs, b: Inputs)
    requires Dearer(a, b) && Sane(a) && Sane(b)
    requires !AnyUnknown(b)
    ensures Rises(Expected(a), Expected(b)) && Rises(Worst(a), Worst(b))
    ensures OnlyFee(BuyLeg(a), BuyLeg(b)) && OnlyFee(SellLeg(a), SellLeg(b)) ==>
              CostsLe(Expected(a), Expected(b)) && CostsLe(Worst(a), Worst(b))
    ensures !AnyUnknown(a)
  {
    hide LegAttribution, Scaled, PctOf, ValueAt, WorstFunding, LegDearer;
    LegsMono(a, b);
    FundingMono(a, b);
    NotionalsNonNeg(a);
    ExecutionMono(a, b);
    FeesMono(BuyLeg(a), BuyLeg(b), Trips(a), a.trading.worstCaseFeeMultiplier);
    FeesMono(SellLeg(a), SellLeg(b), Trips(a), a.trading.worstCaseFeeMultiplier);
    ScaledMono(PriorityFee(a), PriorityFee(b), a.gasSettings.stressMultiplier);
    PctOfMono(BuyRef(a), BufferPct(a), BufferPct(b));
  }

  ghost predicate OnlyFee(l: LegCosts, m: LegCosts) { m == l.(tradingFee := m.tradingFee) }

  lemma CapitalMono(a: Inputs, b: Inputs)
    requires Dearer(a, b) && Sane(a)
    requires Rises(Expected(a), Expected(b))
    ensures CapitalRequired(a) <= CapitalRequired(b) && GasAndPriority(a) <= GasAndPriority(b)
  {
    hide Expected, ValueAt;
    LegsMono(a, b);
  }

  /** With less profit needed on more capital, the cheaper trade has at least the return of the dearer one. */
  lemma RatioMono(net: real, base: real, net': real, base': real, floor: real)
    requires net' <= net && 0.0 < base <= base' && 0.0 <= floor <= net' / base'
    ensures floor <= net / base
  {
    var r := net' / base';
    assert r * base' == net';
    MulNonNeg(r, base' - base);
    assert r * base <= net' by { assert r * base' == r * base + r * (base' - base); }
    var q := net / base;
    assert q * base == net;
    if q < r { MulStrict(q, r, base); }
  }

  lemma RoiMono(net: real, capital: real, net': real, capital': real, floor: real)
    requires net' <= net && capital <= capital' && 0.0 <= floor <= Roi(net', capital')
    requires capital > 0.0 || floor == 0.0
    ensures floor <= Roi(net, capital)
  {
    if capital > 0.0 {
      assert Roi(net', capital') == net' / capital' * 100.0;
      RatioMono(net, capital, net', capital', floor / 100.0);
    }
  }

  /** The thresholds as a whole are monotone in net, worst case, capital and gas. */
  lemma ThresholdsMono(a: Inputs, b: Inputs, net: real, worst: real, capital: real, gas: real,
                       net': real, worst': real, capital': real, gas': real)
    requires Dearer(a, b) && Sane(a)
    requires net' <= net && worst' <= worst && capital <= capital' && gas <= gas'
    requires a.trading.minRoiPct >= 0.0 && a.flashSettings.minProfitGasRatio >= 0.0
    requires capital > 0.0 || a.trading.minRoiPct == 0.0
    requires ClearsThresholds(b, net', worst', capital', gas')
    ensures ClearsThresholds(a, net, worst, capital, gas)
  {
    hide Expected, Worst, Pct, Roi, ValueAt, GasRatio, MinProfit, MinWorstCase;
    LegsMono(a, b);
    SameThresholds(a, b);
    RoiMono(net, capital, net', capital', a.trading.minRoiPct);
    if Gross(a) > 0.0 { PctMono(gas, gas', Gross(a)); }
    if a.flashLoan.Some? && gas > 0.0 { GasRatioMono(net, gas, net', gas', a.flashSettings.minProfitGasRatio); }
  }

  /** A dearer case is held to the same minimum profits. */
  lemma SameThresholds(a: Inputs, b: Inputs)
    requires Dearer(a, b)
    ensures MinProfit(a) == MinProfit(b) && MinWorstCase(a) == MinWorstCase(b)
  {
  }

  lemma GasRatioMono(net: real, gas: real, net': real, gas': real, floor: real)
    requires net' <= net && 0.0 < gas <= gas' && 0.0 <= floor <= GasRatio(net', gas')
    ensures floor <= GasRatio(net, gas)
  {
    RatioMono(net, gas, net', gas', floor);
  }

  /** Raising fees, gas, transfer fees, funding cost or the learned buffer never turns BLOCKED into SAFE. */
  lemma DearerNeverUnlocks(a: Inputs, b: Inputs)
    requires Dearer(a, b) && Sane(a) && Sane(b)
    requires a.trading.minRoiPct >= 0.0 && a.flashSettings.minProfitGasRatio >= 0.0
    requires CapitalRequired(a) > 0.0 || a.trading.minRoiPct == 0.0
    ensures Acceptable(b) ==> Acceptable(a)
  {
    hide Expected, Worst, ValueAt, LegAttribution, ClearsThresholds;
    if Acceptable(b) {
      CostsMono(a, b);
      CapitalMono(a, b);
      LegsMono(a, b);
      RisesTotal(Expected(a), Expected(b));
      RisesTotal(Worst(a), Worst(b));
      ThresholdsMono(a, b, ExpectedNet(a), WorstCase(a), CapitalRequired(a), GasAndPriority(a),
                     ExpectedNet(b), WorstCase(b), CapitalRequired(b), GasAndPriority(b));
    }
  }

  /** Learning can only remove approvals: what is SAFE with a learned buffer is SAFE without it. */
  lemma LearningOnlyRemoves(inp: Inputs)
    requires Sane(inp) && inp.experienceExtraPct >= 0.0
    requires inp.trading.minRoiPct >= 0.0 && inp.flashSettings.minProfitGasRatio >= 0.0
    requires CapitalRequired(inp.(experienceExtraPct := 0.0)) > 0.0 || inp.trading.minRoiPct == 0.0
    ensures Acceptable(inp) ==> Acceptable(inp.(experienceExtraPct := 0.0))
  {
    hide Expected, Worst, Acceptable, CapitalRequired;
    DearerNeverUnlocks(inp.(experienceExtraPct := 0.0), inp);
  }

  /** A trade with a cost nobody could estimate is never approved, nor is one whose gas is unknown. */
  lemma UnknownCostsBlock(inp: Inputs)
    requires AnyUnknown(inp) || (OnChain(inp) && inp.gas.None?)
    ensures !Acceptable(inp)
  {
    hide Expected, Worst, ClearsThresholds, LegAttribution;
  }

  /**
   * The exact condition: the cheaper of two cases is SAFE with the dearer one if and only if it still needs capital, or
   * no return on capital is asked for.
   */
  lemma CheaperStaysSafeIff(a: Inputs, b: Inputs)
    requires Dearer(a, b) && Sane(a) && Sane(b)
    requires a.trading.minRoiPct >= 0.0 && a.flashSettings.minProfitGasRatio >= 0.0
    ensures Acceptable(b) ==> (Acceptable(a) <==> CapitalRequired(a) > 0.0 || a.trading.minRoiPct == 0.0)
  {
    hide Acceptable, CapitalRequired;
    if CapitalRequired(a) > 0.0 || a.trading.minRoiPct == 0.0 { DearerNeverUnlocks(a, b); }
    else { NoCapitalBlocks(a); }
  }

  // --- where monotonicity stops -----------------------------------------------------------

  /** A route that needs no capital reports a ROI of 0, so a positive ROI floor blocks it however good it is. */
  lemma NoCapitalBlocks(inp: Inputs)
    requires CapitalRequired(inp) <= 0.0 && inp.trading.minRoiPct > 0.0
    ensures !Acceptable(inp)
  {
    hide Expected, Worst;
  }

  /** So a free flash loan, approved or not at its gas cost, is blocked once the gas is free: there cheaper is worse. */
  lemma FreeGasLocks(b: Inputs) returns (a: Inputs)
    requires Sane(b) && b.flashLoan.Some? && b.gas.Some?
    requires b.flashLoan.value.feePct == 0.0 && b.trading.minRoiPct > 0.0
    ensures a == b.(gas := Some(b.gas.value.(expected := 0.0, stress := 0.0, priorityFee := 0.0)))
    ensures Dearer(a, b) && !Acceptable(a)
  {
    a := b.(gas := Some(b.gas.value.(expected := 0.0, stress := 0.0, priorityFee := 0.0)));
    hide Acceptable, LegAttribution, ValueAt;
    assert PctOf(b.flashLoan.value.loanAmountUsd, 0.0) == 0.0;
    NoCapitalBlocks(a);
  }

  /** Worst-case cost of a DEX leg: swap fee, impact and slippage under their multipliers. */
  function WorstDexCost(leg: ExecutionQuote, notional: real, deviation: real, t: TradingSettings): real {
    var l := Stressed(DexLeg(leg, notional, deviation), t);
    l.swapFee + l.impact + l.slip
  }

  /** The deviation is fixed by the quote; the fee only decides how much of it counts as swap fee. */
  lemma WorstDexCostIs(leg: ExecutionQuote, notional: real, deviation: real, t: TradingSettings)
    requires leg.kind.Dex? && leg.feePct.Some? && deviation >= 0.0
    ensures var fee := Min(deviation, PctOf(notional, leg.feePct.value));
            WorstDexCost(leg, notional, deviation, t)
            == Scaled(fee, t.worstCaseFeeMultiplier) + Scaled(deviation, t.worstCaseSlippageMultiplier)
               - Scaled(fee, t.worstCaseSlippageMultiplier)
  {
    hide PctOf, Scaled;
    var l := DexLeg(leg, notional, deviation);
    LegAttributionExact(leg, notional, deviation, t, true);
    ScaledSum(l.impact, l.slip, t.worstCaseSlippageMultiplier);
    ScaledSum(deviation, l.swapFee, t.worstCaseSlippageMultiplier);
    assert l.impact + l.slip == deviation - l.swapFee;
  }

  lemma FactorsDiffer(d: real, fm: real, sm: real)
    requires d >= 0.0
    ensures Scaled(d, fm) < Scaled(d, sm) <==> d > 0.0 && fm < sm
  {
    hide Scaled;
    ScaledSwap(d, fm);
    ScaledSwap(d, sm);
    if d > 0.0 {
      ScaledOrder(sm, fm, d);
    } else {
      ScaledZero(fm);
      ScaledZero(sm);
    }
  }

  lemma ScaledSwap(x: real, y: real)
    ensures Scaled(x, y) == Scaled(y, x)
  {
  }

  /**
   * Raising the fee of any DEX leg lowers its worst-case cost if and only if fees are stressed less than slippage, and
   * the rise moves some of the deviation: it is a real rise, and the old fee does not fill the deviation already.
   */
  lemma DexFeeImprovesIff(leg: ExecutionQuote, fee: real, notional: real, deviation: real, t: TradingSettings)
    requires leg.kind.Dex? && leg.feePct.Some? && leg.feePct.value <= fee && deviation >= 0.0 && notional >= 0.0
    ensures WorstDexCost(leg.(feePct := Some(fee)), notional, deviation, t) < WorstDexCost(leg, notional, deviation, t) <==>
            && t.worstCaseFeeMultiplier < t.worstCaseSlippageMultiplier
            && PctOf(notional, leg.feePct.value) < PctOf(notional, fee)
            && PctOf(notional, leg.feePct.value) < deviation
  {
    hide PctOf, Scaled, WorstDexCost;
    var fm, sm := t.worstCaseFeeMultiplier, t.worstCaseSlippageMultiplier;
    PctOfMono(notional, leg.feePct.value, fee);
    var f, f' := Min(deviation, PctOf(notional, leg.feePct.value)), Min(deviation, PctOf(notional, fee));
    WorstDexCostIs(leg, notional, deviation, t);
    WorstDexCostIs(leg.(feePct := Some(fee)), notional, deviation, t);
    ScaledSum(f', f, fm);
    ScaledSum(f', f, sm);
    FactorsDiffer(f' - f, fm, sm);
  }

  /** The purchase with a dearer pool fee at the same quoted price. */
  function WithBuyFee(inp: Inputs, fee: real): Inputs { inp.(buy := inp.buy.(feePct := Some(fee))) }

  /** Everything in the worst case but the execution costs of the purchase. */
  lemma WorstTotalSplits(inp: Inputs)
    requires inp.buy.kind.Dex?
    ensures var s, n := Stressed(SellLeg(inp), inp.trading), Trips(inp);
            Worst(inp).Total() == Scaled(WorstDexCost(inp.buy, BuyRef(inp), BuyDeviation(inp), inp.trading), n)
              + Scaled(s.swapFee + s.impact + s.slip, n) + (Worst(inp).Total() - Worst(inp).ExecutionCosts()) + Tolerance(inp)
  {
    hide Scaled, PctOf, ValueAt, LegAttribution, DexLeg, Tolerance, WorstGas, PriorityFee, WorstFunding, Expected, Stressed, Trips, Costs.Total;
    var b, s, n := Stressed(BuyLeg(inp), inp.trading), Stressed(SellLeg(inp), inp.trading), Trips(inp);
    assert BuyLeg(inp) == DexLeg(inp.buy, BuyRef(inp), BuyDeviation(inp)) by { UnfoldDexLeg(inp); }
    ScaledSum(b.swapFee + s.swapFee, b.impact + s.impact, n);
    ScaledSum(b.swapFee + s.swapFee + (b.impact + s.impact), b.slip + s.slip, n);
    ScaledSum(b.swapFee + b.impact + b.slip, s.swapFee + s.impact + s.slip, n);
  }

  lemma UnfoldDexLeg(inp: Inputs)
    requires inp.buy.kind.Dex?
    ensures BuyLeg(inp) == DexLeg(inp.buy, BuyRef(inp), BuyDeviation(inp))
  {
    hide DexLeg, ValueAt;
  }

  lemma SameSize(a: Inputs, fee: real)
    ensures Size(a) == Size(WithBuyFee(a, fee))
  {
  }

  lemma SameValue(a: Inputs, b: Inputs, price: real)
    requires Size(a) == Size(b) && a.rate == b.rate
    ensures ValueAt(a, price) == ValueAt(b, price)
  {
    hide Size;
  }

  lemma OtherCostsSame(a: Inputs, fee: real)
    requires a.buy.kind.Dex? && a.buy.feePct.Some?
    ensures var b := WithBuyFee(a, fee);
            && BuyRef(a) == BuyRef(b) && BuyDeviation(a) == BuyDeviation(b) && SellLeg(a) == SellLeg(b) && Gross(a) == Gross(b)
            && Trips(a) == Trips(b) && Tolerance(a) == Tolerance(b)
            && Worst(a).Total() - Worst(a).ExecutionCosts() == Worst(b).Total() - Worst(b).ExecutionCosts()
  {
    hide Scaled, PctOf, LegAttribution, ValueAt, Size;
    var b := WithBuyFee(a, fee);
    SameSize(a, fee);
    SameValue(a, b, a.buy.referencePrice);
    SameValue(a, b, a.buy.avgPrice);
    SameValue(a, b, a.sell.referencePrice);
    SameValue(a, b, a.sell.avgPrice);
    UnfoldDexLeg(a);
    UnfoldDexLeg(WithBuyFee(a, fee));
  }

  /** So the worst-case profit of a purchase from a pool rises with the pool's fee under exactly that condition. */
  lemma DexFeeRaisesWorstCaseIff(a: Inputs, fee: real)
    requires a.buy.kind.Dex? && a.buy.feePct.Some? && a.buy.feePct.value <= fee && BuyRef(a) >= 0.0
    ensures WorstCase(WithBuyFee(a, fee)) > WorstCase(a) <==>
            && a.trading.worstCaseFeeMultiplier < a.trading.worstCaseSlippageMultiplier
            && PctOf(BuyRef(a), a.buy.feePct.value) < PctOf(BuyRef(a), fee)
            && PctOf(BuyRef(a), a.buy.feePct.value) < BuyDeviation(a)
  {
    hide Worst, Expected, Scaled, PctOf, BuyRef, BuyDeviation, Stressed, SellLeg, WorstDexCost, Tolerance, Trips, Gross, Costs.Total, Costs.ExecutionCosts;
    var b := WithBuyFee(a, fee);
    WorstTotalSplits(a);
    WorstTotalSplits(b);
    OtherCostsSame(a, fee);
    DeviationNonNeg(a);
    DexFeeImprovesIff(a.buy, fee, BuyRef(a), BuyDeviation(a), a.trading);
    ScaledOrder(WorstDexCost(a.buy, BuyRef(a), BuyDeviation(a), a.trading), WorstDexCost(b.buy, BuyRef(a), BuyDeviation(a), a.trading), Trips(a));
  }

  lemma DeviationNonNeg(inp: Inputs)
    ensures BuyDeviation(inp) >= 0.0 && Trips(inp) >= 1.0
  {
    hide ValueAt;
  }

  /** Under the shipped multipliers, 1.25 for fees and 2 for slippage, a fee of 0.5% looks better than one of 0.3%. */
  lemma DearerPoolLooksBetter(leg: ExecutionQuote, t: TradingSettings)
    requires leg.kind.Dex? && leg.feePct == Some(0.3) && leg.priceImpactPct == 0.5
    requires t.worstCaseFeeMultiplier == 1.25 && t.worstCaseSlippageMultiplier == 2.0
    ensures WorstDexCost(leg, 1000.0, 10.0, t) == 17.75
    ensures WorstDexCost(leg.(feePct := Some(0.5)), 1000.0, 10.0, t) == 16.25
  {
    WorstDexCostIs(leg, 1000.0, 10.0, t);
    WorstDexCostIs(leg.(feePct := Some(0.5)), 1000.0, 10.0, t);
    assert PctOf(1000.0, 0.3) == 3.0 && PctOf(1000.0, 0.5) == 5.0;
    hide WorstDexCost;
  }

  /** Expected cost of an order-book leg that pays a percentage: its fee and what a failing maker order adds. */
  function MakerCost(leg: ExecutionQuote, notional: real, deviation: real, t: TradingSettings, isBuy: bool): real {
    var l := LegAttribution(leg, notional, deviation, t, isBuy);
    l.tradingFee + l.makerTaker
  }

  /**
   * Raising the fee of a maker leg up to its taker fee moves cost from the maker adjustment, charged on the reference
   * notional, to the fee, charged on the executed one unless the quote names it. The leg gets cheaper if and only if it
   * is a sale that executes below its reference, or its fee is named and only the adjustment falls.
   */
  lemma MakerFeeFallsIff(leg: ExecutionQuote, fee: real, notional: real, deviation: real, t: TradingSettings, isBuy: bool)
    requires !leg.kind.Dex? && leg.isMaker && leg.feePct.Some? && leg.takerFeePct.Some?
    requires leg.feePct.value <= fee <= leg.takerFeePct.value
    requires deviation >= 0.0
    ensures MakerCost(leg.(feePct := Some(fee)), notional, deviation, t, isBuy) < MakerCost(leg, notional, deviation, t, isBuy) <==>
            leg.feePct.value < fee && (if leg.feeInQuote.Some? then notional > 0.0 else !isBuy && deviation > 0.0)
  {
    if leg.feeInQuote.Some? {
      FeeOnDifference(-notional, leg.feePct.value, fee);
      PctOfSplits(notional, leg.takerFeePct.value - fee, leg.takerFeePct.value - leg.feePct.value);
      return;
    }
    var f, taker, executed := leg.feePct.value, leg.takerFeePct.value, notional + (if isBuy then deviation else -deviation);
    MakerCostIs(notional, executed, f, taker);
    MakerCostIs(notional, executed, fee, taker);
    hide PctOf;
    assert MakerCost(leg, notional, deviation, t, isBuy) == PctOf(executed, f) + PctOf(notional, taker - f);
    assert MakerCost(leg.(feePct := Some(fee)), notional, deviation, t, isBuy) == PctOf(executed, fee) + PctOf(notional, taker - fee);
    FeeOnDifference(executed - notional, f, fee);
  }

  /** What does not change with the fee, plus the fee on the difference of the two notionals. */
  lemma MakerCostIs(notional: real, executed: real, fee: real, taker: real)
    ensures PctOf(executed, fee) + PctOf(notional, taker - fee) == PctOf(notional, taker) + PctOf(executed - notional, fee)
  {
    var d := executed - notional;
    Distribute(notional, d, fee);
    assert notional + d == executed;
    assert notional * (taker - fee) == notional * taker - notional * fee;
  }

  lemma FeeOnDifference(d: real, f: real, f': real)
    requires f <= f'
    ensures PctOf(d, f') < PctOf(d, f) <==> d < 0.0 && f < f'
  {
    assert PctOf(d, f') - PctOf(d, f) == d * (f' - f) / 100.0;
    if d < 0.0 && f < f' { MulStrict(d, 0.0, f' - f); }
    if d >= 0.0 { MulNonNeg(d, f' - f); }
  }
}
