/** What the Profit Guard's numbers mean: exact attribution, a pessimistic worst case, a monotone rule. */
module ProfitTheorems {
  import opened Wrappers
  import opened Money
  import opened Settings
  import opened ProfitGuards

  // --- attribution is exact ------------------------------------------------------------------

  /** Swap fee, impact and slippage of one leg add up to its adverse deviation, whatever the quote says. */
  lemma LegAttributionExact(leg: ExecutionQuote, notional: real, deviation: real, t: TradingSettings, isBuy: bool)
    requires deviation >= 0.0
    ensures var l := LegAttribution(leg, notional, deviation, t, isBuy);
            l.swapFee + l.impact + l.slip == deviation
  {
    hide PctOf;
  }

  /**
   * Gross profit minus the attributed execution costs never exceeds what the quotes execute at, and
   * equals it exactly when both deviations are adverse and paid once.
   */
  lemma ExecutionIdentity(inp: Inputs)
    ensures Gross(inp) - Expected(inp).ExecutionCosts() <= ExecutableNet(inp)
    ensures Gross(inp) - Expected(inp).ExecutionCosts() == ExecutableNet(inp) <==>
            && BuyRef(inp) <= BuyExec(inp) && SellExec(inp) <= SellRef(inp)
            && (Trips(inp) == 1.0 || (BuyExec(inp) == BuyRef(inp) && SellExec(inp) == SellRef(inp)))
  {
    hide ValueAt, LegAttribution, Scaled, PctOf;
    var b, s, n := BuyDeviation(inp), SellDeviation(inp), Trips(inp);
    LegAttributionExact(inp.buy, BuyRef(inp), b, inp.trading, true);
    LegAttributionExact(inp.sell, SellRef(inp), s, inp.trading, false);
    var bl, sl := BuyLeg(inp), SellLeg(inp);
    ScaledSum(bl.swapFee + sl.swapFee, bl.impact + sl.impact, n);
    ScaledSum(bl.swapFee + sl.swapFee + (bl.impact + sl.impact), bl.slip + sl.slip, n);
    assert Expected(inp).ExecutionCosts() == Scaled(b + s, n);
    RepeatedAtLeast(b + s, n);
  }

  lemma RepeatedAtLeast(x: real, n: real)
    requires x >= 0.0 && n >= 1.0
    ensures Scaled(x, n) >= x
    ensures Scaled(x, n) == x <==> n == 1.0 || x == 0.0
  {
    MulMono(1.0, n, x);
    if n > 1.0 && x > 0.0 { MulStrict(1.0, n, x); }
  }

  /** A buy quote better than the reference: the gain is in the executable net but not in the guard's figure. */
  lemma ExecutionIdentityFails(inp: Inputs)
    requires BuyExec(inp) < BuyRef(inp)
    ensures Gross(inp) - Expected(inp).ExecutionCosts() < ExecutableNet(inp)
  {
    hide ValueAt, Expected;
    ExecutionIdentity(inp);
  }

  // --- the worst case is a worst case ------------------------------------------------------------

  ghost predicate CostsLe(a: Costs, b: Costs) {
    && a.buyTradingFee <= b.buyTradingFee && a.sellTradingFee <= b.sellTradingFee
    && a.makerTakerAdjustment <= b.makerTakerAdjustment && a.dexSwapFee <= b.dexSwapFee && a.lpFee <= b.lpFee
    && a.gas <= b.gas && a.priorityFee <= b.priorityFee && a.slippage <= b.slippage
    && a.priceImpact <= b.priceImpact && a.bridgeFee <= b.bridgeFee && a.withdrawalFee <= b.withdrawalFee
    && a.depositFee <= b.depositFee && a.funding <= b.funding && a.rebalanceAllowance <= b.rebalanceAllowance
    && a.latencyAllowance <= b.latencyAllowance && a.partialFillAllowance <= b.partialFillAllowance
    && a.failureReserve <= b.failureReserve && a.safetyBuffer <= b.safetyBuffer
    && a.flashLoanFee <= b.flashLoanFee && a.mevReserve <= b.mevReserve
  }

  ghost predicate NonNeg(o: Option<real>) { o.Some? ==> o.value >= 0.0 }

  ghost predicate SaneLeg(q: ExecutionQuote) {
    && q.avgPrice >= 0.0 && q.referencePrice >= 0.0
    && NonNeg(q.feePct) && NonNeg(q.feeInQuote)
  }

  /** Multipliers of at least one, non-negative fees, allowances and gas, as the shipped settings have them. */
  ghost predicate Sane(inp: Inputs) {
    && Size(inp) >= 0.0 && inp.rate >= 0.0 && SaneLeg(inp.buy) && SaneLeg(inp.sell)
    && inp.trading.worstCaseFeeMultiplier >= 1.0 && inp.trading.worstCaseSlippageMultiplier >= 1.0
    && inp.gasSettings.stressMultiplier >= 1.0 && inp.gasSettings.conservativeGasFallbackUsd >= 0.0
    && NonNeg(inp.trading.unknownFeeFallbackPct)
    && inp.trading.latencyAllowancePct >= 0.0 && inp.trading.partialFillAllowancePct >= 0.0
    && inp.trading.failureReservePct >= 0.0
    && inp.flashSettings.mevReservePct >= 0.0 && inp.flashSettings.maxSlippageBps >= 0
    && (inp.gas.Some? ==> SaneGas(inp.gas.value))
  }

  ghost predicate SaneGas(g: GasAssessment) { 0.0 <= g.expected <= g.stress && g.priorityFee >= 0.0 }

  lemma ValueNonNeg(size: real, price: real, rate: real)
    requires size >= 0.0 && price >= 0.0 && rate >= 0.0
    ensures size * price * rate >= 0.0
  {
    MulNonNeg(size, price);
    MulNonNeg(size * price, rate);
  }

  lemma PctOfNonNeg(value: real, percent: real)
    requires value >= 0.0 && percent >= 0.0
    ensures PctOf(value, percent) >= 0.0
  {
    MulNonNeg(value, percent);
  }

  lemma NotionalsNonNeg(inp: Inputs)
    requires Sane(inp)
    ensures BuyRef(inp) >= 0.0 && SellRef(inp) >= 0.0 && BuyExec(inp) >= 0.0 && SellExec(inp) >= 0.0
  {
    ValueNonNeg(Size(inp), inp.buy.referencePrice, inp.rate);
    ValueNonNeg(Size(inp), inp.sell.referencePrice, inp.rate);
    ValueNonNeg(Size(inp), inp.buy.avgPrice, inp.rate);
    ValueNonNeg(Size(inp), inp.sell.avgPrice, inp.rate);
  }

  ghost predicate LegNonNeg(l: LegCosts) {
    l.swapFee >= 0.0 && l.impact >= 0.0 && l.slip >= 0.0 && l.tradingFee >= 0.0
  }

  /** No attributed cost of a leg is negative. */
  lemma LegCostsNonNeg(leg: ExecutionQuote, notional: real, deviation: real, t: TradingSettings, isBuy: bool)
    requires SaneLeg(leg) && NonNeg(t.unknownFeeFallbackPct)
    requires notional >= 0.0 && deviation >= 0.0 && (isBuy || deviation <= notional)
    ensures LegNonNeg(LegAttribution(leg, notional, deviation, t, isBuy))
  {
    hide PctOf;
    if leg.feePct.Some? {
      PctOfNonNeg(notional, leg.feePct.value);
      PctOfNonNeg(notional + (if isBuy then deviation else -deviation), leg.feePct.value);
    }
    if t.unknownFeeFallbackPct.Some? { PctOfNonNeg(notional, t.unknownFeeFallbackPct.value); }
    if leg.priceImpactPct > 0.0 { PctOfNonNeg(notional, leg.priceImpactPct); }
  }

  lemma BothLegsNonNeg(inp: Inputs)
    requires Sane(inp)
    ensures LegNonNeg(BuyLeg(inp)) && LegNonNeg(SellLeg(inp))
  {
    hide ValueAt, LegAttribution;
    NotionalsNonNeg(inp);
    LegCostsNonNeg(inp.buy, BuyRef(inp), BuyDeviation(inp), inp.trading, true);
    LegCostsNonNeg(inp.sell, SellRef(inp), SellDeviation(inp), inp.trading, false);
  }

  lemma ScaledMono(a: real, b: real, n: real)
    requires a <= b && n >= 0.0
    ensures Scaled(a, n) <= Scaled(b, n)
  {
    MulMono(a, b, n);
  }

  /** Multipliers of at least one never lower a leg's costs. */
  lemma StressedLeg(l: LegCosts, t: TradingSettings)
    requires LegNonNeg(l) && t.worstCaseFeeMultiplier >= 1.0 && t.worstCaseSlippageMultiplier >= 1.0
    ensures var w := Stressed(l, t);
            l.swapFee <= w.swapFee && l.impact <= w.impact && l.slip <= w.slip && l.tradingFee <= w.tradingFee
  {
    hide Scaled;
    RepeatedAtLeast(l.swapFee, t.worstCaseFeeMultiplier);
    RepeatedAtLeast(l.impact, t.worstCaseSlippageMultiplier);
    RepeatedAtLeast(l.slip, t.worstCaseSlippageMultiplier);
    RepeatedAtLeast(l.tradingFee, t.worstCaseFeeMultiplier);
  }

  lemma GasNonNeg(inp: Inputs)
    requires Sane(inp)
    ensures 0.0 <= ExpectedGas(inp) <= WorstGas(inp)
    ensures 0.0 <= PriorityFee(inp) <= Scaled(PriorityFee(inp), inp.gasSettings.stressMultiplier)
  {
    hide Scaled;
    RepeatedAtLeast(inp.gasSettings.conservativeGasFallbackUsd, inp.gasSettings.stressMultiplier);
    RepeatedAtLeast(PriorityFee(inp), inp.gasSettings.stressMultiplier);
  }

  lemma WorstFundingAtLeast(inp: Inputs)
    requires inp.trading.worstCaseFeeMultiplier >= 1.0
    ensures inp.fundingCostUsd <= WorstFunding(inp)
  {
    hide Scaled;
    if inp.fundingCostUsd > 0.0 { RepeatedAtLeast(inp.fundingCostUsd, inp.trading.worstCaseFeeMultiplier); }
  }

  lemma ToleranceNonNeg(inp: Inputs)
    requires Sane(inp) && BuyRef(inp) >= 0.0
    ensures Tolerance(inp) >= 0.0
  {
    MulNonNeg(BuyRef(inp), inp.flashSettings.maxSlippageBps as real);
  }

  /** The execution part of the sheets: five components, each at least as large in the worst case. */
  lemma ExecutionWorse(inp: Inputs)
    requires Sane(inp)
    ensures var e, w := Expected(inp), Worst(inp);
            && e.buyTradingFee <= w.buyTradingFee && e.sellTradingFee <= w.sellTradingFee
            && e.dexSwapFee <= w.dexSwapFee && e.priceImpact <= w.priceImpact && e.slippage <= w.slippage
  {
    hide ValueAt, LegAttribution, Scaled, PctOf, Stressed, Tolerance, ExpectedGas, WorstGas, PriorityFee, WorstFunding;
    NotionalsNonNeg(inp);
    BothLegsNonNeg(inp);
    ToleranceNonNeg(inp);
    var n, b, s := Trips(inp), BuyLeg(inp), SellLeg(inp);
    StressedLeg(b, inp.trading);
    StressedLeg(s, inp.trading);
    var bw, sw := Stressed(b, inp.trading), Stressed(s, inp.trading);
    ScaledMono(b.tradingFee, bw.tradingFee, n);
    ScaledMono(s.tradingFee, sw.tradingFee, n);
    ScaledMono(b.swapFee + s.swapFee, bw.swapFee + sw.swapFee, n);
    ScaledMono(b.impact + s.impact, bw.impact + sw.impact, n);
    ScaledMono(b.slip + s.slip, bw.slip + sw.slip, n);
  }

  /** Each of the twenty worst-case costs is at least the expected one, so the worst case never beats the estimate. */
  lemma WorstNeverBeatsExpected(inp: Inputs)
    requires Sane(inp)
    ensures CostsLe(Expected(inp), Worst(inp))
    ensures WorstCase(inp) <= ExpectedNet(inp)
  {
    hide ValueAt, LegAttribution, Scaled, PctOf, Tolerance, ExpectedGas, WorstGas, PriorityFee, WorstFunding;
    NotionalsNonNeg(inp);
    ExecutionWorse(inp);
    GasNonNeg(inp);
    WorstFundingAtLeast(inp);
    var ref := BuyRef(inp);
    PctOfNonNeg(ref, inp.trading.latencyAllowancePct);
    PctOfNonNeg(ref, inp.trading.partialFillAllowancePct);
    PctOfNonNeg(ref, inp.trading.failureReservePct);
    PctOfNonNeg(ref, MevPct(inp));
    TotalMono(Expected(inp), Worst(inp));
  }

  lemma TotalMono(a: Costs, b: Costs)
    requires CostsLe(a, b)
    ensures a.Total() <= b.Total()
  {
  }
}
