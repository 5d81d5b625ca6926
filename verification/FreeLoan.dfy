/** A flash loan that is approved while its gas costs something, and blocked once the gas is free. */
module FreeLoans {
  import opened Wrappers
  import opened Money
  import opened Settings
  import opened ProfitGuards
  import opened ProfitTheorems
  import CostMonotone

  /** A pool quoted 1% off its reference: 0.3% fee, 0.5% impact, the rest slippage. */
  function PoolQuote(reference: real, average: real): ExecutionQuote {
    ExecutionQuote("pool", Dex, Some("base"), 1.0, average, average, reference, 0.2, 0.5, true, 0, Some(0.3), None, false, None)
  }

  function LoanTrading(): TradingSettings {
    TradingSettings(true, 1000.0, 1.0, 1.0, 1.0, 5.0, 1000, 100, 0.0, 0.0, 0.0, 0.0, 0.0, 2.0, 1.25, None)
  }

  function LoanRisk(): RiskSettings {
    RiskSettings(100.0, 100.0, 100.0, 100.0, 100.0, 1, 0, 1.0, 1.0, 1000, 1, 1000.0, 1.0, false, 0.0, 0.0, false, {})
  }

  /** A fee-free loan of $101, as from Balancer, that buys at 100 and sells at 110; a return of 5% is asked for. */
  function LoanCase(): Inputs {
    Inputs(PoolQuote(100.0, 101.0), PoolQuote(110.0, 108.9), LoanTrading(), LoanRisk(),
           GasSettings(10.0, 100.0, 0.0, 1.0, 1.0, 1.0, 0, 2.0, 3.0, 4.0, 1.0, false, 0.0),
           FlashLoanSettings(true, "balancer_v2", 1000.0, 1.0, 10.0, 0, 1.0, true, true, false, 0.0, {"base"}),
           Some(GasAssessment(Normal, 0.1, 0.2, 1.0, true, [], 0.02)),
           1.0, 0.0, Some(FlashLoanTerms(101.0, 0.0, Some(true), true)), 0.0, Some(0.0), Some(0.0), Some(0.0), 0.0, 1)
  }

  ghost predicate PoolLegOf(leg: ExecutionQuote, reference: real, average: real) {
    && leg.kind.Dex? && leg.baseAmount == 1.0 && leg.referencePrice == reference && leg.avgPrice == average
    && leg.feePct == Some(0.3) && leg.priceImpactPct == 0.5 && leg.feeInQuote.None? && leg.fullyFillable && leg.ageMs == 0
  }

  /** What the case says, field by field. */
  ghost predicate IsLoanCase(inp: Inputs) {
    && PoolLegOf(inp.buy, 100.0, 101.0) && PoolLegOf(inp.sell, 110.0, 108.9) && inp.rate == 1.0 && inp.roundTrips == 1
    && LoanGuards(inp.trading, inp.risk, inp.gasSettings, inp.flashSettings)
    && LoanAllowances(inp.trading, inp.flashSettings) && inp.stablecoinHaircutPct == inp.experienceExtraPct == inp.fundingCostUsd == 0.0
    && inp.gas.Some? && inp.gas.value.regime == Normal && inp.gas.value.passed
    && inp.gas.value.expected == 0.1 && inp.gas.value.stress == 0.2 && inp.gas.value.priorityFee == 0.02
    && inp.flashLoan == Some(FlashLoanTerms(101.0, 0.0, Some(true), true))
    && inp.bridgeFeeUsd == inp.withdrawalFeeUsd == inp.depositFeeUsd == Some(0.0)
  }

  ghost predicate LoanGuards(t: TradingSettings, r: RiskSettings, g: GasSettings, f: FlashLoanSettings) {
    && t.minProfitUsd == t.minWorstCaseProfitUsd == f.minNetProfitUsd == f.minProfitGasRatio == 1.0 && t.minRoiPct == 5.0
    && t.maxQuoteAgeMs == r.maxQuoteAgeMs == 1000 && f.maxLoanUsd == 1000.0 && r.maxFlashLoanUsd == 1000.0
    && g.maxGasPctOfGross == 100.0 && g.minProfitAfterGasUsd == 0.0 && g.conservativeGasFallbackUsd == 0.0
  }

  ghost predicate LoanAllowances(t: TradingSettings, f: FlashLoanSettings) {
    && t.worstCaseFeeMultiplier == 1.25 && t.worstCaseSlippageMultiplier == 2.0 && t.unknownFeeFallbackPct.None?
    && t.safetyBufferPct == t.latencyAllowancePct == t.partialFillAllowancePct == t.failureReservePct == t.rebalanceAllowancePct == 0.0
    && !f.mevAware && f.mevReservePct == 0.0 && f.maxSlippageBps == 0
  }

  lemma LoanFields()
    ensures IsLoanCase(LoanCase()) && LoanCase().gasSettings.stressMultiplier == 1.0
  {
  }

  lemma LoanQuotes(inp: Inputs)
    requires IsLoanCase(inp)
    ensures Size(inp) == 1.0 && BuyRef(inp) == 100.0 && SellRef(inp) == 110.0 && BuyDeviation(inp) == 1.0 && SellDeviation(inp) == 1.1
  {
    hide LoanGuards, LoanAllowances;
  }

  lemma PoolLeg(leg: ExecutionQuote, notional: real, deviation: real, t: TradingSettings, isBuy: bool)
    requires leg.kind.Dex? && leg.feePct == Some(0.3) && leg.priceImpactPct == 0.5
    requires notional > 0.0 && deviation == notional / 100.0
    ensures LegAttribution(leg, notional, deviation, t, isBuy)
            == LegCosts(0.003 * notional, 0.005 * notional, 0.002 * notional, 0.0, 0.0, false)
  {
    assert PctOf(notional, 0.3) == 0.003 * notional && PctOf(notional, 0.5) == 0.005 * notional;
  }

  lemma LoanLegs(inp: Inputs)
    requires IsLoanCase(inp)
    ensures BuyLeg(inp) == LegCosts(0.3, 0.5, 0.2, 0.0, 0.0, false) && SellLeg(inp) == LegCosts(0.33, 0.55, 0.22, 0.0, 0.0, false)
  {
    hide LegAttribution, BuyRef, SellRef, BuyDeviation, SellDeviation, LoanGuards, LoanAllowances;
    LoanQuotes(inp);
    PoolLeg(inp.buy, BuyRef(inp), BuyDeviation(inp), inp.trading, true);
    PoolLeg(inp.sell, SellRef(inp), SellDeviation(inp), inp.trading, false);
  }

  lemma LoanExpected(inp: Inputs)
    requires IsLoanCase(inp)
    ensures Expected(inp).Total() == 2.32 && !AnyUnknown(inp) && CapitalRequired(inp) == GasAndPriority(inp) == 0.12
  {
    hide BuyLeg, SellLeg, BuyRef, LoanGuards, PctOf;
    LoanLegs(inp);
    LoanPercents(inp);
  }

  /** No percentage of the notional or of the loan is held back. */
  lemma LoanPercents(inp: Inputs)
    requires IsLoanCase(inp)
    ensures PctOf(BuyRef(inp), BufferPct(inp)) == PctOf(BuyRef(inp), MevPct(inp)) == PctOf(101.0, 0.0) == Tolerance(inp) == 0.0
  {
    hide LoanGuards, BuyRef;
  }

  lemma LoanWorst(inp: Inputs)
    requires IsLoanCase(inp) && inp.gasSettings.stressMultiplier == 1.0
    ensures Worst(inp).Total() == 4.1475
  {
    hide BuyLeg, SellLeg, BuyRef, LoanGuards, PctOf, Tolerance;
    LoanLegs(inp);
    LoanPercents(inp);
  }

  lemma LoanUsable(inp: Inputs)
    requires IsLoanCase(inp)
    ensures QuotesUsable(inp) && MinProfit(inp) == MinWorstCase(inp) == 1.0 && OnChain(inp) && Gross(inp) == 10.0
  {
    hide LoanAllowances;
    LoanQuotes(inp);
    hide BuyRef, SellRef, Size;
  }

  /** The loan is approved: its expected and worst-case profits of 7.68 and 5.8525 clear every floor on a capital of 0.12. */
  lemma LoanApproved(inp: Inputs)
    requires IsLoanCase(inp) && inp.gasSettings.stressMultiplier == 1.0
    ensures Acceptable(inp)
  {
    hide Expected, Worst, QuotesUsable, AnyUnknown, MinProfit, MinWorstCase, OnChain, CapitalRequired, GasAndPriority, Gross,
      Costs.Total, PoolLegOf, LoanAllowances;
    LoanExpected(inp);
    LoanWorst(inp);
    LoanUsable(inp);
    assert Pct(0.12, 10.0) == 1.2 && Pct(7.68, 0.12) == 6400.0;
  }

  lemma LoanSane(inp: Inputs)
    requires IsLoanCase(inp) && inp.gasSettings.stressMultiplier == 1.0
    ensures Sane(inp)
  {
    LoanQuotes(inp);
    hide Size;
  }

  /** And once its gas is free, everything else unchanged, it is blocked. */
  lemma ApprovedLoanLocks() returns (a: Inputs)
    ensures Acceptable(LoanCase()) && CostMonotone.Dearer(a, LoanCase()) && !Acceptable(a)
    ensures a == LoanCase().(gas := Some(LoanCase().gas.value.(expected := 0.0, stress := 0.0, priorityFee := 0.0)))
  {
    LoanFields();
    hide Acceptable, LoanCase, CostMonotone.Dearer, Sane, PoolLegOf, LoanAllowances;
    LoanApproved(LoanCase());
    LoanSane(LoanCase());
    a := CostMonotone.FreeGasLocks(LoanCase());
  }
}
