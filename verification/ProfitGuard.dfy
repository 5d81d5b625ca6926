/** PROFIT GUARD: all-in cost attribution and the profit rule every trade has to clear. */
module ProfitGuards {
  import opened Wrappers
  import opened Money
  import opened Settings

  /** The twenty costs subtracted from gross profit, in USD. */
  datatype Costs = Costs(
    buyTradingFee: real,
    sellTradingFee: real,
    makerTakerAdjustment: real,
    dexSwapFee: real,
    lpFee: real,
    gas: real,
    priorityFee: real,
    slippage: real,
    priceImpact: real,
    bridgeFee: real,
    withdrawalFee: real,
    depositFee: real,
    funding: real,
    rebalanceAllowance: real,
    latencyAllowance: real,
    partialFillAllowance: real,
    failureReserve: real,
    safetyBuffer: real,
    flashLoanFee: real,
    mevReserve: real)
  {
    function Total(): real {
      buyTradingFee + sellTradingFee + makerTakerAdjustment + dexSwapFee + lpFee + gas + priorityFee + slippage
      + priceImpact + bridgeFee + withdrawalFee + depositFee + funding + rebalanceAllowance + latencyAllowance
      + partialFillAllowance + failureReserve + safetyBuffer + flashLoanFee + mevReserve
    }

    /** What the quotes themselves cost against the reference prices. */
    function ExecutionCosts(): real { dexSwapFee + priceImpact + slippage }

    /** What accounting later compares with the fees and gas actually paid. */
    function FeesAndGas(): real { buyTradingFee + sellTradingFee + gas + priorityFee }

    /** Everything held back for what no fill will show: allowances, buffers, transfers, funding, loan costs. */
    function Reserves(): real { Total() - ExecutionCosts() - FeesAndGas() }
  }

  const NO_COSTS := Costs(0.0, 0.0, 0.0, 0.0, 0.0, 0.0, 0.0, 0.0, 0.0, 0.0, 0.0, 0.0, 0.0, 0.0, 0.0, 0.0, 0.0, 0.0, 0.0, 0.0)

  datatype GasReason = GasUnknown | SnapshotStale | PriorityFeeTooHigh | GasPriceTooHigh | GasTooExpensive | StressTooExpensive | GasShareTooHigh | RegimeExtreme

  datatype GasAssessment = GasAssessment(
    regime: GasRegime,
    expected: real,
    stress: real,
    pctOfGross: real,
    passed: bool,
    reasons: seq<GasReason>,
    priorityFee: real)

  datatype FlashLoanTerms = FlashLoanTerms(loanAmountUsd: real, feePct: real, simulationPassed: Option<bool>, atomic: bool)

  datatype Inputs = Inputs(
    buy: ExecutionQuote,
    sell: ExecutionQuote,
    trading: TradingSettings,
    risk: RiskSettings,
    gasSettings: GasSettings,
    flashSettings: FlashLoanSettings,
    gas: Option<GasAssessment>,
    rate: real,
    experienceExtraPct: real,
    flashLoan: Option<FlashLoanTerms>,
    fundingCostUsd: real,
    bridgeFeeUsd: Option<real>,
    withdrawalFeeUsd: Option<real>,
    depositFeeUsd: Option<real>,
    stablecoinHaircutPct: real,
    roundTrips: int)

  datatype UnknownCost = UnknownSwapFee | UnknownTradingFee | UnknownGas | UnknownBridgeFee | UnknownWithdrawalFee | UnknownDepositFee

  datatype Reason =
    | ZeroSize | SizesDiffer | NoBuyDepth | NoSellDepth | Stale | GasFallback | GasGuard(why: GasReason)
    | NotSimulated | NotAtomic | LoanTooLarge | LoanOverRisk | ExtremeGas | UnknownCosts
    | BelowMinProfit | BelowMinWorstCase | BelowMinRoi | GasShare | BelowMinAfterGas | BelowGasRatio

  datatype Decision = SafeToExecute | Blocked

  datatype Assessment = Assessment(
    gross: real,
    expectedNet: real,
    worstCase: real,
    capitalRequired: real,
    roiPct: real,
    minProfit: real,
    minWorstCase: real,
    expectedCosts: Costs,
    worstCosts: Costs,
    decision: Decision,
    reasons: seq<Reason>)

  // --- the economics of one pair of quotes ------------------------------------------------

  function Size(inp: Inputs): real { Min(inp.buy.baseAmount, inp.sell.baseAmount) }

  /** USD value of the trade size at a price. */
  function ValueAt(inp: Inputs, price: real): real { Size(inp) * price * inp.rate }

  function BuyRef(inp: Inputs): real { ValueAt(inp, inp.buy.referencePrice) }
  function SellRef(inp: Inputs): real { ValueAt(inp, inp.sell.referencePrice) }
  function BuyExec(inp: Inputs): real { ValueAt(inp, inp.buy.avgPrice) }
  function SellExec(inp: Inputs): real { ValueAt(inp, inp.sell.avgPrice) }

  /** Profit at the reference prices. */
  function Gross(inp: Inputs): real { SellRef(inp) - BuyRef(inp) }

  /** Profit at the prices the quotes execute at, before any explicit cost. */
  function ExecutableNet(inp: Inputs): real { SellExec(inp) - BuyExec(inp) }

  function BuyDeviation(inp: Inputs): real { Max(0.0, BuyExec(inp) - BuyRef(inp)) }
  function SellDeviation(inp: Inputs): real { Max(0.0, SellRef(inp) - SellExec(inp)) }

  predicate OnChain(inp: Inputs) { inp.buy.kind.Dex? || inp.sell.kind.Dex? || inp.flashLoan.Some? }

  /** How one leg's adverse deviation and fee are attributed. */
  datatype LegCosts = LegCosts(swapFee: real, impact: real, slip: real, tradingFee: real, makerTaker: real, unknown: bool)

  function DexLeg(leg: ExecutionQuote, notional: real, deviation: real): LegCosts {
    var swapFee := if leg.feePct.Some? then Min(deviation, PctOf(notional, leg.feePct.value)) else 0.0;
    var impact :=
      if leg.priceImpactPct > 0.0 then Min(deviation - swapFee, PctOf(notional, leg.priceImpactPct)) else 0.0;
    LegCosts(swapFee, impact, Max(0.0, deviation - swapFee - impact), 0.0, 0.0,
             leg.feePct.None? && deviation == 0.0 && leg.feeInQuote.None?)
  }

  /** The trading fee of an order-book leg, None when neither the quote nor the settings know one. */
  function TradingFee(leg: ExecutionQuote, notional: real, deviation: real, t: TradingSettings, isBuy: bool): Option<real> {
    if leg.feeInQuote.Some? then leg.feeInQuote
    else if leg.feePct.Some? then Some(PctOf(notional + (if isBuy then deviation else -deviation), leg.feePct.value))
    else if t.unknownFeeFallbackPct.Some? then Some(PctOf(notional, t.unknownFeeFallbackPct.value))
    else None
  }

  /** What a maker leg costs more when it converts to taker. */
  function MakerTaker(leg: ExecutionQuote, notional: real): real {
    if leg.isMaker && leg.feePct.Some? then
      var taker := if leg.takerFeePct.Some? then leg.takerFeePct.value else leg.feePct.value;
      PctOf(notional, Max(0.0, taker - leg.feePct.value))
    else 0.0
  }

  function LegAttribution(leg: ExecutionQuote, notional: real, deviation: real, t: TradingSettings, isBuy: bool): LegCosts {
    if leg.kind.Dex? then DexLeg(leg, notional, deviation)
    else
      var fee := TradingFee(leg, notional, deviation, t, isBuy);
      LegCosts(0.0, 0.0, deviation, if fee.Some? then fee.value else 0.0, MakerTaker(leg, notional), fee.None?)
  }

  function BuyLeg(inp: Inputs): LegCosts { LegAttribution(inp.buy, BuyRef(inp), BuyDeviation(inp), inp.trading, true) }
  function SellLeg(inp: Inputs): LegCosts { LegAttribution(inp.sell, SellRef(inp), SellDeviation(inp), inp.trading, false) }

  function Known(fee: Option<real>): real { if fee.Some? then fee.value else 0.0 }

  /** Carry trades pay the execution costs once per round trip. */
  function Trips(inp: Inputs): real { if inp.roundTrips > 1 then inp.roundTrips as real else 1.0 }

  function ExpectedGas(inp: Inputs): real {
    if !OnChain(inp) then 0.0
    else if inp.gas.Some? then inp.gas.value.expected
    else if inp.gasSettings.conservativeFallback then inp.gasSettings.conservativeGasFallbackUsd
    else 0.0
  }

  function WorstGas(inp: Inputs): real {
    if !OnChain(inp) then 0.0
    else if inp.gas.Some? then inp.gas.value.stress
    else if inp.gasSettings.conservativeFallback then Scaled(inp.gasSettings.conservativeGasFallbackUsd, inp.gasSettings.stressMultiplier)
    else 0.0
  }

  function PriorityFee(inp: Inputs): real { if OnChain(inp) && inp.gas.Some? then inp.gas.value.priorityFee else 0.0 }

  function BufferPct(inp: Inputs): real {
    inp.trading.safetyBufferPct + Max(0.0, inp.experienceExtraPct) + inp.stablecoinHaircutPct
  }

  function MevPct(inp: Inputs): real { if inp.flashSettings.mevAware then inp.flashSettings.mevReservePct else 0.0 }

  /** The expected costs, component by component. */
  function Expected(inp: Inputs): Costs {
    var b, s, n, atomic, ref := BuyLeg(inp), SellLeg(inp), Trips(inp), inp.flashLoan.Some?, BuyRef(inp);
    Costs(
      buyTradingFee := Scaled(b.tradingFee, n),
      sellTradingFee := Scaled(s.tradingFee, n),
      makerTakerAdjustment := b.makerTaker + s.makerTaker,
      dexSwapFee := Scaled(b.swapFee + s.swapFee, n),
      lpFee := 0.0,
      gas := ExpectedGas(inp),
      priorityFee := PriorityFee(inp),
      slippage := Scaled(b.slip + s.slip, n),
      priceImpact := Scaled(b.impact + s.impact, n),
      bridgeFee := Known(inp.bridgeFeeUsd),
      withdrawalFee := Known(inp.withdrawalFeeUsd),
      depositFee := Known(inp.depositFeeUsd),
      funding := inp.fundingCostUsd,
      rebalanceAllowance := if atomic then 0.0 else PctOf(ref, inp.trading.rebalanceAllowancePct),
      latencyAllowance := if atomic then 0.0 else PctOf(ref, inp.trading.latencyAllowancePct),
      partialFillAllowance := if atomic then 0.0 else PctOf(ref, inp.trading.partialFillAllowancePct),
      failureReserve := if atomic then WorstGas(inp) * 0.5 else PctOf(ref, inp.trading.failureReservePct),
      safetyBuffer := PctOf(ref, BufferPct(inp)),
      flashLoanFee := if atomic then PctOf(inp.flashLoan.value.loanAmountUsd, inp.flashLoan.value.feePct) else 0.0,
      mevReserve := if atomic then PctOf(ref, MevPct(inp)) else 0.0)
  }

  /** What an atomic route loses when its whole on-chain slippage tolerance is used up. */
  function Tolerance(inp: Inputs): real {
    if inp.flashLoan.Some? then BuyRef(inp) * (inp.flashSettings.maxSlippageBps as real) / 10000.0 else 0.0
  }

  /** A leg's costs under the worst-case multipliers; the maker adjustment is not stressed. */
  function Stressed(l: LegCosts, t: TradingSettings): LegCosts {
    l.(swapFee := Scaled(l.swapFee, t.worstCaseFeeMultiplier),
       impact := Scaled(l.impact, t.worstCaseSlippageMultiplier),
       slip := Scaled(l.slip, t.worstCaseSlippageMultiplier),
       tradingFee := Scaled(l.tradingFee, t.worstCaseFeeMultiplier))
  }

  /** Funding income counts for half, a funding cost is stressed like a fee. */
  function WorstFunding(inp: Inputs): real {
    if inp.fundingCostUsd > 0.0 then Scaled(inp.fundingCostUsd, inp.trading.worstCaseFeeMultiplier)
    else inp.fundingCostUsd / 2.0
  }

  /** The worst-case costs, component by component. */
  function Worst(inp: Inputs): Costs {
    var b, s := Stressed(BuyLeg(inp), inp.trading), Stressed(SellLeg(inp), inp.trading);
    var n, atomic, e := Trips(inp), inp.flashLoan.Some?, Expected(inp);
    Costs(
      buyTradingFee := Scaled(b.tradingFee, n),
      sellTradingFee := Scaled(s.tradingFee, n),
      makerTakerAdjustment := b.makerTaker + s.makerTaker,
      dexSwapFee := Scaled(b.swapFee + s.swapFee, n),
      lpFee := 0.0,
      gas := WorstGas(inp),
      priorityFee := Scaled(PriorityFee(inp), inp.gasSettings.stressMultiplier),
      slippage := Scaled(b.slip + s.slip, n) + Tolerance(inp),
      priceImpact := Scaled(b.impact + s.impact, n),
      bridgeFee := e.bridgeFee,
      withdrawalFee := e.withdrawalFee,
      depositFee := e.depositFee,
      funding := WorstFunding(inp),
      rebalanceAllowance := e.rebalanceAllowance,
      latencyAllowance := e.latencyAllowance * 2.0,
      partialFillAllowance := e.partialFillAllowance * 2.0,
      failureReserve :=
        if atomic then WorstGas(inp) else e.failureReserve * 2.0 + (if OnChain(inp) then WorstGas(inp) else 0.0),
      safetyBuffer := e.safetyBuffer,
      flashLoanFee := e.flashLoanFee,
      mevReserve := e.mevReserve * 2.0)
  }

  // --- the rule -------------------------------------------------------------------------

  /** Some cost the rule needs could not be estimated. */
  predicate AnyUnknown(inp: Inputs) {
    || BuyLeg(inp).unknown || SellLeg(inp).unknown
    || (OnChain(inp) && inp.gas.None? && !inp.gasSettings.conservativeFallback)
    || inp.bridgeFeeUsd.None? || inp.withdrawalFeeUsd.None? || inp.depositFeeUsd.None?
  }

  function CapitalRequired(inp: Inputs): real {
    var e := Expected(inp);
    if inp.flashLoan.Some? then e.gas + e.priorityFee + e.flashLoanFee
    else BuyExec(inp) + e.buyTradingFee + e.gas + e.priorityFee
  }

  predicate Regime(inp: Inputs, regime: GasRegime) { inp.gas.Some? && inp.gas.value.regime == regime }

  /** How much the gas regime raises the profit thresholds. */
  function ThresholdFactor(inp: Inputs): real {
    if Regime(inp, Elevated) then inp.gasSettings.elevatedProfitMultiplier
    else if Regime(inp, High) && OnChain(inp) then 2.0
    else 1.0
  }

  function MinProfit(inp: Inputs): real {
    (if inp.flashLoan.Some? then Max(inp.trading.minProfitUsd, inp.flashSettings.minNetProfitUsd) else inp.trading.minProfitUsd)
    * ThresholdFactor(inp)
  }

  function MinWorstCase(inp: Inputs): real { inp.trading.minWorstCaseProfitUsd * ThresholdFactor(inp) }

  function ExpectedNet(inp: Inputs): real { Gross(inp) - Expected(inp).Total() }
  function WorstCase(inp: Inputs): real { Gross(inp) - Worst(inp).Total() }

  function Roi(net: real, capital: real): real { if capital > 0.0 then Pct(net, capital) else 0.0 }

  /** The quotes themselves are usable: equal sizes, full depth, fresh, gas accepted, loan allowed. */
  predicate QuotesUsable(inp: Inputs) {
    && Size(inp) > 0.0
    && inp.buy.baseAmount == inp.sell.baseAmount
    && inp.buy.fullyFillable && inp.sell.fullyFillable
    && Larger(inp.buy.ageMs, inp.sell.ageMs) <= Smaller(inp.trading.maxQuoteAgeMs, inp.risk.maxQuoteAgeMs)
    && (OnChain(inp) ==>
         if inp.gas.Some? then inp.gas.value.passed || inp.gas.value.reasons == []
         else !inp.gasSettings.conservativeFallback)
    && !(Regime(inp, Extreme) && OnChain(inp))
    && (inp.flashLoan.Some? ==> LoanAllowed(inp))
  }

  predicate LoanAllowed(inp: Inputs)
    requires inp.flashLoan.Some?
  {
    var fl := inp.flashLoan.value;
    && (inp.flashSettings.requireSimulation ==> fl.simulationPassed == Some(true))
    && (inp.flashSettings.requireAtomic ==> fl.atomic)
    && fl.loanAmountUsd <= inp.flashSettings.maxLoanUsd
    && fl.loanAmountUsd <= inp.risk.maxFlashLoanUsd
  }

  function GasRatio(net: real, gas: real): real
    requires gas > 0.0
  {
    net / gas
  }

  /** The profit thresholds as conditions on net profit, worst case, capital and gas. */
  predicate ClearsThresholds(inp: Inputs, net: real, worst: real, capital: real, gas: real) {
    && MinProfit(inp) <= net
    && MinWorstCase(inp) <= worst
    && inp.trading.minRoiPct <= Roi(net, capital)
    && (OnChain(inp) && inp.gas.Some? && Gross(inp) > 0.0 ==>
         Pct(gas, Gross(inp)) <= inp.gasSettings.maxGasPctOfGross && inp.gasSettings.minProfitAfterGasUsd <= net)
    && (inp.flashLoan.Some? && gas > 0.0 ==> inp.flashSettings.minProfitGasRatio <= GasRatio(net, gas))
  }

  function GasAndPriority(inp: Inputs): real { Expected(inp).gas + Expected(inp).priorityFee }

  /** The whole rule: what has to hold for SAFE_TO_EXECUTE. */
  predicate Acceptable(inp: Inputs) {
    && QuotesUsable(inp)
    && !AnyUnknown(inp)
    && ClearsThresholds(inp, ExpectedNet(inp), WorstCase(inp), CapitalRequired(inp), GasAndPriority(inp))
  }

  function Smaller(a: int, b: int): int { if a <= b then a else b }
  function Larger(a: int, b: int): int { if a >= b then a else b }

  // --- the guard itself -------------------------------------------------------------------

  /** The cost sheet the guard fills in step by step. */
  class CostBreakdown {
    var costs: Costs

    constructor ()
      ensures costs == NO_COSTS
    {
      costs := NO_COSTS;
    }

    /** Adds one leg's attributed costs to the sheet. */
    method Charge(l: LegCosts, isBuy: bool)
      modifies this
      ensures costs == Plus(old(costs), l, isBuy)
    {
      costs := costs.(dexSwapFee := costs.dexSwapFee + l.swapFee);
      costs := costs.(priceImpact := costs.priceImpact + l.impact);
      costs := costs.(slippage := costs.slippage + l.slip);
      if isBuy { costs := costs.(buyTradingFee := costs.buyTradingFee + l.tradingFee); }
      else { costs := costs.(sellTradingFee := costs.sellTradingFee + l.tradingFee); }
      costs := costs.(makerTakerAdjustment := costs.makerTakerAdjustment + l.makerTaker);
    }

    /** The five execution costs are paid once per round trip. */
    method Repeat(n: real)
      modifies this
      ensures costs == Repeated(old(costs), n)
    {
      costs := costs.(buyTradingFee := Scaled(costs.buyTradingFee, n));
      costs := costs.(sellTradingFee := Scaled(costs.sellTradingFee, n));
      costs := costs.(dexSwapFee := Scaled(costs.dexSwapFee, n));
      costs := costs.(slippage := Scaled(costs.slippage, n));
      costs := costs.(priceImpact := Scaled(costs.priceImpact, n));
    }
  }

  /** The sheet with one leg's attribution added. */
  function Plus(c: Costs, l: LegCosts, isBuy: bool): Costs {
    c.(dexSwapFee := c.dexSwapFee + l.swapFee,
       priceImpact := c.priceImpact + l.impact,
       slippage := c.slippage + l.slip,
       buyTradingFee := if isBuy then c.buyTradingFee + l.tradingFee else c.buyTradingFee,
       sellTradingFee := if isBuy then c.sellTradingFee else c.sellTradingFee + l.tradingFee,
       makerTakerAdjustment := c.makerTakerAdjustment + l.makerTaker)
  }

  method AttributeLeg(leg: ExecutionQuote, notional: real, deviation: real, exp: CostBreakdown, wc: CostBreakdown,
                      t: TradingSettings, isBuy: bool) returns (unknown: seq<UnknownCost>)
    requires exp != wc
    modifies exp, wc
    ensures var l := LegAttribution(leg, notional, deviation, t, isBuy);
            && exp.costs == Plus(old(exp.costs), l, isBuy)
            && wc.costs == Plus(old(wc.costs), Stressed(l, t), isBuy)
            && (unknown != [] <==> l.unknown)
  {
    hide PctOf, Scaled;
    unknown := [];
    var feePart, impactPart, residual, paid, diff := 0.0, 0.0, 0.0, 0.0, 0.0;
    if leg.kind.Dex? {
      if leg.feePct.Some? { feePart := Min(deviation, PctOf(notional, leg.feePct.value)); }
      if leg.priceImpactPct > 0.0 { impactPart := Min(deviation - feePart, PctOf(notional, leg.priceImpactPct)); }
      residual := Max(0.0, deviation - feePart - impactPart);
      if leg.feePct.None? && deviation == 0.0 && leg.feeInQuote.None? { unknown := [UnknownSwapFee]; }
    } else {
      residual := deviation;
      var fee: Option<real> := None;
      if leg.feeInQuote.Some? {
        fee := leg.feeInQuote;
      } else if leg.feePct.Some? {
        fee := Some(PctOf(notional + (if isBuy then deviation else -deviation), leg.feePct.value));
      } else if t.unknownFeeFallbackPct.Some? {
        fee := Some(PctOf(notional, t.unknownFeeFallbackPct.value));
      }
      if fee.None? { unknown := [UnknownTradingFee]; } else { paid := fee.value; }
      if leg.isMaker && leg.feePct.Some? {
        var taker := if leg.takerFeePct.Some? then leg.takerFeePct.value else leg.feePct.value;
        diff := PctOf(notional, Max(0.0, taker - leg.feePct.value));
      }
    }
    var costs := LegCosts(feePart, impactPart, residual, paid, diff, unknown != []);
    assert costs == LegAttribution(leg, notional, deviation, t, isBuy);
    exp.Charge(costs, isBuy);
    wc.Charge(Stressed(costs, t), isBuy);
  }

  /** Sizes, depth and freshness of the two quotes. */
  method CheckQuotes(inp: Inputs) returns (reasons: seq<Reason>)
    ensures reasons == [] <==>
            (&& inp.buy.baseAmount == inp.sell.baseAmount
             && inp.buy.fullyFillable && inp.sell.fullyFillable
             && Larger(inp.buy.ageMs, inp.sell.ageMs) <= Smaller(inp.trading.maxQuoteAgeMs, inp.risk.maxQuoteAgeMs))
  {
    reasons := [];
    if inp.buy.baseAmount != inp.sell.baseAmount { reasons := reasons + [SizesDiffer]; }
    if !inp.buy.fullyFillable { reasons := reasons + [NoBuyDepth]; }
    if !inp.sell.fullyFillable { reasons := reasons + [NoSellDepth]; }
    var maxAge := Smaller(inp.trading.maxQuoteAgeMs, inp.risk.maxQuoteAgeMs);
    var age := Larger(inp.buy.ageMs, inp.sell.ageMs);
    if age > maxAge { reasons := reasons + [Stale]; }
  }

  function GasReasons(why: seq<GasReason>): (rs: seq<Reason>)
    ensures |rs| == |why|
  {
    seq(|why|, i requires 0 <= i < |why| => GasGuard(why[i]))
  }

  method ApplyGas(inp: Inputs, exp: CostBreakdown, wc: CostBreakdown)
    returns (reasons: seq<Reason>, unknown: seq<UnknownCost>)
    requires exp != wc && exp.costs.gas == exp.costs.priorityFee == wc.costs.gas == wc.costs.priorityFee == 0.0
    modifies exp, wc
    ensures exp.costs == old(exp.costs).(gas := ExpectedGas(inp), priorityFee := PriorityFee(inp))
    ensures wc.costs == old(wc.costs).(gas := WorstGas(inp),
                                         priorityFee := Scaled(PriorityFee(inp), inp.gasSettings.stressMultiplier))
    ensures unknown != [] <==> OnChain(inp) && inp.gas.None? && !inp.gasSettings.conservativeFallback
    ensures reasons == [] <==>
            (OnChain(inp) ==>
               if inp.gas.Some? then inp.gas.value.passed || inp.gas.value.reasons == []
               else !inp.gasSettings.conservativeFallback)
  {
    ScaledZero(inp.gasSettings.stressMultiplier);
    hide Scaled;
    reasons, unknown := [], [];
    if OnChain(inp) {
      if inp.gas.None? {
        if inp.gasSettings.conservativeFallback {
          exp.costs := exp.costs.(gas := inp.gasSettings.conservativeGasFallbackUsd);
          wc.costs := wc.costs.(gas := Scaled(inp.gasSettings.conservativeGasFallbackUsd, inp.gasSettings.stressMultiplier));
          reasons := reasons + [GasFallback];
        } else {
          unknown := unknown + [UnknownGas];
        }
      } else {
        var gas := inp.gas.value;
        exp.costs := exp.costs.(gas := gas.expected);
        wc.costs := wc.costs.(gas := gas.stress);
        exp.costs := exp.costs.(priorityFee := gas.priorityFee);
        wc.costs := wc.costs.(priorityFee := Scaled(gas.priorityFee, inp.gasSettings.stressMultiplier));
        if !gas.passed { reasons := reasons + GasReasons(gas.reasons); }
      }
    }
  }

  /** Transfers and funding, then the repetition of execution costs for carry trades. */
  method ApplyTransfers(inp: Inputs, exp: CostBreakdown, wc: CostBreakdown) returns (unknown: seq<UnknownCost>)
    requires exp != wc
    requires exp.costs.bridgeFee == exp.costs.withdrawalFee == exp.costs.depositFee == 0.0
    requires wc.costs.bridgeFee == wc.costs.withdrawalFee == wc.costs.depositFee == 0.0
    modifies exp, wc
    ensures exp.costs == Transferred(old(exp.costs), inp, inp.fundingCostUsd)
    ensures wc.costs == Transferred(old(wc.costs), inp, WorstFunding(inp))
    ensures unknown != [] <==> inp.bridgeFeeUsd.None? || inp.withdrawalFeeUsd.None? || inp.depositFeeUsd.None?
  {
    RepeatOnce(exp.costs);
    RepeatOnce(wc.costs);
    hide Scaled;
    unknown := [];
    if inp.bridgeFeeUsd.None? { unknown := unknown + [UnknownBridgeFee]; }
    else { exp.costs := exp.costs.(bridgeFee := inp.bridgeFeeUsd.value); wc.costs := wc.costs.(bridgeFee := inp.bridgeFeeUsd.value); }
    if inp.withdrawalFeeUsd.None? { unknown := unknown + [UnknownWithdrawalFee]; }
    else { exp.costs := exp.costs.(withdrawalFee := inp.withdrawalFeeUsd.value); wc.costs := wc.costs.(withdrawalFee := inp.withdrawalFeeUsd.value); }
    if inp.depositFeeUsd.None? { unknown := unknown + [UnknownDepositFee]; }
    else { exp.costs := exp.costs.(depositFee := inp.depositFeeUsd.value); wc.costs := wc.costs.(depositFee := inp.depositFeeUsd.value); }
    exp.costs := exp.costs.(funding := inp.fundingCostUsd);
    if inp.fundingCostUsd > 0.0 { wc.costs := wc.costs.(funding := Scaled(inp.fundingCostUsd, inp.trading.worstCaseFeeMultiplier)); }
    else { wc.costs := wc.costs.(funding := inp.fundingCostUsd / 2.0); }
    if inp.roundTrips > 1 {
      exp.Repeat(inp.roundTrips as real);
      wc.Repeat(inp.roundTrips as real);
    }
  }

  function Repeated(c: Costs, n: real): Costs {
    c.(buyTradingFee := Scaled(c.buyTradingFee, n), sellTradingFee := Scaled(c.sellTradingFee, n),
       dexSwapFee := Scaled(c.dexSwapFee, n), slippage := Scaled(c.slippage, n), priceImpact := Scaled(c.priceImpact, n))
  }

  function Transferred(c: Costs, inp: Inputs, funding: real): Costs {
    Repeated(c.(bridgeFee := Known(inp.bridgeFeeUsd), withdrawalFee := Known(inp.withdrawalFeeUsd),
                depositFee := Known(inp.depositFeeUsd), funding := funding), Trips(inp))
  }

  lemma RepeatOnce(c: Costs)
    ensures Repeated(c, 1.0) == c
  {
  }

  /** Allowances, reserves and the safety buffer, as percentages of the reference notional. */
  method ApplyAllowances(inp: Inputs, notional: real, exp: CostBreakdown, wc: CostBreakdown)
    requires exp != wc && notional == BuyRef(inp)
    requires wc.costs.gas == WorstGas(inp)
    modifies exp, wc
    ensures var e := Expected(inp);
            exp.costs == old(exp.costs).(rebalanceAllowance := e.rebalanceAllowance,
              latencyAllowance := e.latencyAllowance, partialFillAllowance := e.partialFillAllowance,
              failureReserve := e.failureReserve, safetyBuffer := e.safetyBuffer)
    ensures var w := Worst(inp);
            wc.costs == old(wc.costs).(rebalanceAllowance := w.rebalanceAllowance,
              latencyAllowance := w.latencyAllowance, partialFillAllowance := w.partialFillAllowance,
              failureReserve := w.failureReserve, safetyBuffer := w.safetyBuffer,
              slippage := old(wc.costs.slippage) + Tolerance(inp))
  {
    hide Scaled, PctOf, BuyRef, Stressed, BuyLeg, SellLeg, ExpectedGas, WorstGas;
    var t := inp.trading;
    if inp.flashLoan.Some? {
      exp.costs := exp.costs.(rebalanceAllowance := 0.0, latencyAllowance := 0.0, partialFillAllowance := 0.0);
      wc.costs := wc.costs.(rebalanceAllowance := 0.0, latencyAllowance := 0.0, partialFillAllowance := 0.0);
      exp.costs := exp.costs.(failureReserve := wc.costs.gas * 0.5);
      wc.costs := wc.costs.(failureReserve := wc.costs.gas);
      var tol := notional * (inp.flashSettings.maxSlippageBps as real) / 10000.0;
      wc.costs := wc.costs.(slippage := wc.costs.slippage + tol);
    } else {
      exp.costs := exp.costs.(rebalanceAllowance := PctOf(notional, t.rebalanceAllowancePct));
      wc.costs := wc.costs.(rebalanceAllowance := exp.costs.rebalanceAllowance);
      exp.costs := exp.costs.(latencyAllowance := PctOf(notional, t.latencyAllowancePct));
      wc.costs := wc.costs.(latencyAllowance := exp.costs.latencyAllowance * 2.0);
      exp.costs := exp.costs.(partialFillAllowance := PctOf(notional, t.partialFillAllowancePct));
      wc.costs := wc.costs.(partialFillAllowance := exp.costs.partialFillAllowance * 2.0);
      exp.costs := exp.costs.(failureReserve := PctOf(notional, t.failureReservePct));
      wc.costs := wc.costs.(failureReserve := exp.costs.failureReserve * 2.0 + (if OnChain(inp) then wc.costs.gas else 0.0));
    }
    var bufferPct := t.safetyBufferPct + Max(0.0, inp.experienceExtraPct) + inp.stablecoinHaircutPct;
    exp.costs := exp.costs.(safetyBuffer := PctOf(notional, bufferPct));
    wc.costs := wc.costs.(safetyBuffer := exp.costs.safetyBuffer);
  }

  method ApplyFlashLoan(inp: Inputs, notional: real, exp: CostBreakdown, wc: CostBreakdown)
    returns (reasons: seq<Reason>)
    requires exp != wc && notional == BuyRef(inp)
    requires exp.costs.flashLoanFee == exp.costs.mevReserve == wc.costs.flashLoanFee == wc.costs.mevReserve == 0.0
    modifies exp, wc
    ensures var e := Expected(inp);
            && exp.costs == old(exp.costs).(flashLoanFee := e.flashLoanFee, mevReserve := e.mevReserve)
            && wc.costs == old(wc.costs).(flashLoanFee := e.flashLoanFee, mevReserve := e.mevReserve * 2.0)
    ensures reasons == [] <==> (inp.flashLoan.Some? ==> LoanAllowed(inp))
  {
    hide Scaled, PctOf, BuyRef, BuyLeg, SellLeg, ExpectedGas, WorstGas;
    reasons := [];
    if inp.flashLoan.Some? {
      var fl, s := inp.flashLoan.value, inp.flashSettings;
      exp.costs := exp.costs.(flashLoanFee := PctOf(fl.loanAmountUsd, fl.feePct));
      wc.costs := wc.costs.(flashLoanFee := exp.costs.flashLoanFee);
      exp.costs := exp.costs.(mevReserve := PctOf(notional, MevPct(inp)));
      wc.costs := wc.costs.(mevReserve := exp.costs.mevReserve * 2.0);
      if s.requireSimulation && fl.simulationPassed != Some(true) { reasons := reasons + [NotSimulated]; }
      if s.requireAtomic && !fl.atomic { reasons := reasons + [NotAtomic]; }
      if fl.loanAmountUsd > s.maxLoanUsd { reasons := reasons + [LoanTooLarge]; }
      if fl.loanAmountUsd > inp.risk.maxFlashLoanUsd { reasons := reasons + [LoanOverRisk]; }
    }
  }

  /** The profit thresholds of the current gas regime, and which of them the numbers miss. */
  method CheckThresholds(inp: Inputs, net: real, worst: real, capital: real, gas: real)
    returns (reasons: seq<Reason>, minProfit: real, minWorst: real, roi: real)
    ensures minProfit == MinProfit(inp) && minWorst == MinWorstCase(inp) && roi == Roi(net, capital)
    ensures reasons == [] <==> ClearsThresholds(inp, net, worst, capital, gas) && !(Regime(inp, Extreme) && OnChain(inp))
  {
    hide Gross, Pct;
    reasons := [];
    minProfit, minWorst := inp.trading.minProfitUsd, inp.trading.minWorstCaseProfitUsd;
    if inp.flashLoan.Some? { minProfit := Max(minProfit, inp.flashSettings.minNetProfitUsd); }
    if Regime(inp, Elevated) {
      minProfit := minProfit * inp.gasSettings.elevatedProfitMultiplier;
      minWorst := minWorst * inp.gasSettings.elevatedProfitMultiplier;
    }
    if Regime(inp, High) && OnChain(inp) {
      minProfit := minProfit * 2.0;
      minWorst := minWorst * 2.0;
    }
    if Regime(inp, Extreme) && OnChain(inp) { reasons := reasons + [ExtremeGas]; }
    roi := if capital > 0.0 then Pct(net, capital) else 0.0;
    if net < minProfit { reasons := reasons + [BelowMinProfit]; }
    if worst < minWorst { reasons := reasons + [BelowMinWorstCase]; }
    if roi < inp.trading.minRoiPct { reasons := reasons + [BelowMinRoi]; }
    if OnChain(inp) && inp.gas.Some? && Gross(inp) > 0.0 {
      if Pct(gas, Gross(inp)) > inp.gasSettings.maxGasPctOfGross { reasons := reasons + [GasShare]; }
      if net < inp.gasSettings.minProfitAfterGasUsd { reasons := reasons + [BelowMinAfterGas]; }
    }
    if inp.flashLoan.Some? && gas > 0.0 {
      if GasRatio(net, gas) < inp.flashSettings.minProfitGasRatio { reasons := reasons + [BelowGasRatio]; }
    }
  }

  /** Both cost sheets for one pair of quotes, with the refusals found on the way. */
  method FillSheets(inp: Inputs) returns (exp: Costs, wc: Costs, unknown: seq<UnknownCost>, reasons: seq<Reason>)
    ensures exp == Expected(inp) && wc == Worst(inp)
    ensures unknown != [] <==> AnyUnknown(inp)
    ensures reasons == [] <==>
            && (OnChain(inp) ==>
                 if inp.gas.Some? then inp.gas.value.passed || inp.gas.value.reasons == []
                 else !inp.gasSettings.conservativeFallback)
            && (inp.flashLoan.Some? ==> LoanAllowed(inp))
  {
    hide Scaled, PctOf, ValueAt, LegAttribution, WorstFunding, ExpectedGas, WorstGas, PriorityFee, LoanAllowed;
    var expSheet := new CostBreakdown();
    var wcSheet := new CostBreakdown();
    var buyUnknown := AttributeLeg(inp.buy, BuyRef(inp), BuyDeviation(inp), expSheet, wcSheet, inp.trading, true);
    var sellUnknown := AttributeLeg(inp.sell, SellRef(inp), SellDeviation(inp), expSheet, wcSheet, inp.trading, false);
    var gasReasons, gasUnknown := ApplyGas(inp, expSheet, wcSheet);
    var transferUnknown := ApplyTransfers(inp, expSheet, wcSheet);
    ApplyAllowances(inp, BuyRef(inp), expSheet, wcSheet);
    var loanReasons := ApplyFlashLoan(inp, BuyRef(inp), expSheet, wcSheet);
    exp, wc := expSheet.costs, wcSheet.costs;
    unknown := buyUnknown + sellUnknown + gasUnknown + transferUnknown;
    reasons := gasReasons + loanReasons;
  }

  /**
   * The guard: numbers exactly as `Expected` and `Worst` define them, SAFE exactly when the whole rule
   * holds, and a reason for every refusal.
   */
  method Assess(inp: Inputs) returns (r: Assessment)
    ensures r.decision.SafeToExecute? <==> Acceptable(inp)
    ensures r.reasons == [] <==> r.decision.SafeToExecute?
    ensures Size(inp) > 0.0 ==>
              && r.gross == Gross(inp)
              && r.expectedCosts == Expected(inp) && r.worstCosts == Worst(inp)
              && r.expectedNet == ExpectedNet(inp) && r.worstCase == WorstCase(inp)
              && r.capitalRequired == CapitalRequired(inp)
              && r.roiPct == Roi(r.expectedNet, r.capitalRequired)
              && r.minProfit == MinProfit(inp) && r.minWorstCase == MinWorstCase(inp)
    ensures Size(inp) <= 0.0 ==>
              r == Assessment(0.0, 0.0, 0.0, 0.0, 0.0, inp.trading.minProfitUsd, inp.trading.minWorstCaseProfitUsd,
                              NO_COSTS, NO_COSTS, Decision.Blocked, [ZeroSize])
  {
    hide Scaled, PctOf, ValueAt, LegAttribution, Expected, Worst, WorstFunding, Plus, Stressed, Transferred,
      ExpectedGas, WorstGas, PriorityFee, ClearsThresholds, MinProfit, MinWorstCase, Roi, LoanAllowed;
    if Size(inp) <= 0.0 {
      return Assessment(0.0, 0.0, 0.0, 0.0, 0.0, inp.trading.minProfitUsd, inp.trading.minWorstCaseProfitUsd,
                        NO_COSTS, NO_COSTS, Decision.Blocked, [ZeroSize]);
    }
    var quoteReasons := CheckQuotes(inp);
    var exp, wc, unknown, sheetReasons := FillSheets(inp);
    var net := Gross(inp) - exp.Total();
    var worst := Gross(inp) - wc.Total();
    var capital := if inp.flashLoan.Some? then exp.gas + exp.priorityFee + exp.flashLoanFee
                   else BuyExec(inp) + exp.buyTradingFee + exp.gas + exp.priorityFee;
    var thresholdReasons, minProfit, minWorst, roi := CheckThresholds(inp, net, worst, capital, exp.gas + exp.priorityFee);
    var reasons := quoteReasons + sheetReasons;
    if unknown != [] { reasons := reasons + [UnknownCosts]; }
    reasons := reasons + thresholdReasons;
    r := Assessment(Gross(inp), net, worst, capital, roi, minProfit, minWorst, exp, wc,
                    if reasons == [] then SafeToExecute else Decision.Blocked, reasons);
  }
}
