/** The profit of a trade and the rule it has to clear, written out on quotes and settings alone. */
module NetProfits {
  import opened Wrappers
  import opened Money
  import opened Settings
  import opened ProfitGuards
  import opened ProfitTheorems

  // --- the profit in one formula ------------------------------------------------------------------

  /** What a quote is worse than its reference by, never negative. */
  function Shortfall(reference: real, executed: real, isBuy: bool): real {
    if isBuy && executed > reference then executed - reference
    else if !isBuy && executed < reference then reference - executed
    else 0.0
  }

  /** The trading fee of an order-book leg on the worse of its two values; 0 where nobody knows it. */
  function BookFee(leg: ExecutionQuote, reference: real, executed: real, fallback: Option<real>, isBuy: bool): real {
    match (leg.feeInQuote, leg.feePct, fallback)
    case (Some(named), _, _) => named
    case (None, Some(pct), _) => (if isBuy == (executed > reference) then executed else reference) * pct / 100.0
    case (None, None, Some(pct)) => reference * pct / 100.0
    case _ => 0.0
  }

  /** The pool fee inside a DEX quote: no more than the shortfall it is part of. */
  function PoolFee(leg: ExecutionQuote, reference: real, shortfall: real): real {
    if leg.feePct.None? then 0.0
    else if reference * leg.feePct.value / 100.0 <= shortfall then reference * leg.feePct.value / 100.0
    else shortfall
  }

  /** What one leg costs, its fees counted `fees` times and the rest of its shortfall `slips` times. */
  function LegCost(leg: ExecutionQuote, reference: real, executed: real, fallback: Option<real>, isBuy: bool, fees: real, slips: real): real {
    var shortfall := Shortfall(reference, executed, isBuy);
    if leg.kind.Dex? then
      PoolFee(leg, reference, shortfall) * fees + (shortfall - PoolFee(leg, reference, shortfall)) * slips
    else
      BookFee(leg, reference, executed, fallback, isBuy) * fees + shortfall * slips
  }

  /** What a maker order pays more if it turns taker. */
  function LostDiscount(leg: ExecutionQuote, reference: real): real {
    if !leg.kind.Dex? && leg.isMaker && leg.feePct.Some? && leg.takerFeePct.Some? && leg.takerFeePct.value > leg.feePct.value
    then reference * (leg.takerFeePct.value - leg.feePct.value) / 100.0
    else 0.0
  }

  predicate TouchesChain(inp: Inputs) { inp.buy.kind == Dex || inp.sell.kind == Dex || inp.flashLoan != None }

  /** Gas of the trade, expected or stressed, without the priority fee. */
  function GasUsd(inp: Inputs, stressed: bool): real {
    if !TouchesChain(inp) then 0.0
    else
      match inp.gas
      case Some(gas) => if stressed then gas.stress else gas.expected
      case None =>
        if !inp.gasSettings.conservativeFallback then 0.0
        else inp.gasSettings.conservativeGasFallbackUsd * (if stressed then inp.gasSettings.stressMultiplier else 1.0)
  }

  function PriorityUsd(inp: Inputs): real {
    if TouchesChain(inp) && inp.gas.Some? then inp.gas.value.priorityFee else 0.0
  }

  function LoanFee(inp: Inputs): real {
    if inp.flashLoan.Some? then inp.flashLoan.value.loanAmountUsd * inp.flashLoan.value.feePct / 100.0 else 0.0
  }

  function TransferFees(inp: Inputs): real {
    (if inp.bridgeFeeUsd.Some? then inp.bridgeFeeUsd.value else 0.0)
    + (if inp.withdrawalFeeUsd.Some? then inp.withdrawalFeeUsd.value else 0.0)
    + (if inp.depositFeeUsd.Some? then inp.depositFeeUsd.value else 0.0)
  }

  /** Funding to be paid counts more in the worst case, funding to be received half. */
  function FundingUsd(inp: Inputs, worst: bool): real {
    if !worst then inp.fundingCostUsd
    else if inp.fundingCostUsd > 0.0 then inp.fundingCostUsd * inp.trading.worstCaseFeeMultiplier
    else inp.fundingCostUsd / 2.0
  }

  /** Percent of the purchase held back from every trade: safety, learned and haircut. */
  function BufferOf(inp: Inputs): real {
    inp.trading.safetyBufferPct + (if inp.experienceExtraPct > 0.0 then inp.experienceExtraPct else 0.0) + inp.stablecoinHaircutPct
  }

  /** All that the slippage tolerance of a loan can cost. */
  function Leeway(inp: Inputs, value: real): real { value * inp.flashSettings.maxSlippageBps as real / 10000.0 }

  /** What is held back, of a purchase worth `value` at its reference, for what no quote shows. */
  function Reserve(inp: Inputs, value: real, worst: bool): real {
    var t, f, twice := inp.trading, inp.flashSettings, if worst then 2.0 else 1.0;
    if inp.flashLoan.Some? then
      PctOf(value, BufferOf(inp) + (if f.mevAware then f.mevReservePct * twice else 0.0))
      + LoanFee(inp) + GasUsd(inp, true) * twice / 2.0
      + (if worst then Leeway(inp, value) else 0.0)
    else
      PctOf(value, BufferOf(inp) + t.rebalanceAllowancePct
                   + (t.latencyAllowancePct + t.partialFillAllowancePct + t.failureReservePct) * twice)
      + (if worst then GasUsd(inp, true) else 0.0)
  }

  function Rounds(inp: Inputs): real { if inp.roundTrips >= 2 then inp.roundTrips as real else 1.0 }

  /** The USD value of `x` base at a price. */
  function Usd(inp: Inputs, x: real, price: real): real { x * price * inp.rate }

  function LegsOf(inp: Inputs, x: real, fees: real, slips: real): real {
    var fallback := inp.trading.unknownFeeFallbackPct;
    LegCost(inp.buy, Usd(inp, x, inp.buy.referencePrice), Usd(inp, x, inp.buy.avgPrice), fallback, true, fees, slips)
    + LegCost(inp.sell, Usd(inp, x, inp.sell.referencePrice), Usd(inp, x, inp.sell.avgPrice), fallback, false, fees, slips)
  }

  /** Both legs of `x` base, once per round. */
  function Execution(inp: Inputs, x: real, worst: bool): real {
    var t := inp.trading;
    var fees, slips := if worst then t.worstCaseFeeMultiplier else 1.0, if worst then t.worstCaseSlippageMultiplier else 1.0;
    Scaled(LegsOf(inp, x, fees, slips), Rounds(inp))
  }

  /** Gas and priority fee of the trade. */
  function ChainCosts(inp: Inputs, worst: bool): real {
    GasUsd(inp, worst) + (if worst then Scaled(PriorityUsd(inp), inp.gasSettings.stressMultiplier) else PriorityUsd(inp))
  }

  /** The profit of trading `x` base, expected or in the worst case. */
  function Net(inp: Inputs, x: real, worst: bool): real {
    var buy, sell := Usd(inp, x, inp.buy.referencePrice), Usd(inp, x, inp.sell.referencePrice);
    sell - buy
    - Execution(inp, x, worst) - LostDiscount(inp.buy, buy) - LostDiscount(inp.sell, sell)
    - ChainCosts(inp, worst) - TransferFees(inp) - FundingUsd(inp, worst) - Reserve(inp, buy, worst)
  }

  // --- it is what the guard's sheets add up to --------------------------------------------------------

  ghost predicate IsSize(inp: Inputs, x: real) {
    x <= inp.buy.baseAmount && x <= inp.sell.baseAmount && (x == inp.buy.baseAmount || x == inp.sell.baseAmount)
  }

  lemma Values(inp: Inputs, x: real)
    requires IsSize(inp, x)
    ensures BuyRef(inp) == Usd(inp, x, inp.buy.referencePrice) && SellRef(inp) == Usd(inp, x, inp.sell.referencePrice)
    ensures BuyExec(inp) == Usd(inp, x, inp.buy.avgPrice) && SellExec(inp) == Usd(inp, x, inp.sell.avgPrice)
    ensures BuyDeviation(inp) == Shortfall(BuyRef(inp), BuyExec(inp), true)
    ensures SellDeviation(inp) == Shortfall(SellRef(inp), SellExec(inp), false)
  {
    assert Size(inp) == x;
    hide Size;
  }

  lemma LegCostIs(leg: ExecutionQuote, reference: real, executed: real, t: TradingSettings, isBuy: bool, fees: real, slips: real)
    ensures var l := LegAttribution(leg, reference, Shortfall(reference, executed, isBuy), t, isBuy);
            && Scaled(l.swapFee, fees) + Scaled(l.impact, slips) + Scaled(l.slip, slips) + Scaled(l.tradingFee, fees)
               == LegCost(leg, reference, executed, t.unknownFeeFallbackPct, isBuy, fees, slips)
            && l.makerTaker == LostDiscount(leg, reference)
  {
    var shortfall := Shortfall(reference, executed, isBuy);
    var l := LegAttribution(leg, reference, shortfall, t, isBuy);
    LegParts(leg, reference, executed, t, isBuy);
    FourScaled(l, fees, slips);
    hide Scaled, LegAttribution, Shortfall, PoolFee, BookFee, LostDiscount;
  }

  lemma FourScaled(l: LegCosts, fees: real, slips: real)
    ensures Scaled(l.swapFee, fees) + Scaled(l.impact, slips) + Scaled(l.slip, slips) + Scaled(l.tradingFee, fees)
            == l.swapFee * fees + (l.impact + l.slip) * slips + l.tradingFee * fees
    ensures l.swapFee == 0.0 ==> l.swapFee * fees == 0.0
    ensures l.tradingFee == 0.0 ==> l.tradingFee * fees == 0.0
  {
    Distribute(l.impact, l.slip, slips);
  }

  lemma LegParts(leg: ExecutionQuote, reference: real, executed: real, t: TradingSettings, isBuy: bool)
    ensures var shortfall := Shortfall(reference, executed, isBuy);
            var l := LegAttribution(leg, reference, shortfall, t, isBuy);
            && l.swapFee == (if leg.kind.Dex? then PoolFee(leg, reference, shortfall) else 0.0)
            && l.impact + l.slip == shortfall - l.swapFee
            && l.tradingFee == (if leg.kind.Dex? then 0.0 else BookFee(leg, reference, executed, t.unknownFeeFallbackPct, isBuy))
            && l.makerTaker == LostDiscount(leg, reference)
  {
    LegAttributionExact(leg, reference, Shortfall(reference, executed, isBuy), t, isBuy);
    assert PctOf(reference, 0.0) == 0.0;
  }

  function Parts(l: LegCosts): real { l.swapFee + l.impact + l.slip + l.tradingFee }

  lemma LegsCost(inp: Inputs, x: real)
    requires IsSize(inp, x)
    ensures Parts(BuyLeg(inp)) + Parts(SellLeg(inp)) == LegsOf(inp, x, 1.0, 1.0)
    ensures Parts(Stressed(BuyLeg(inp), inp.trading)) + Parts(Stressed(SellLeg(inp), inp.trading))
            == LegsOf(inp, x, inp.trading.worstCaseFeeMultiplier, inp.trading.worstCaseSlippageMultiplier)
    ensures BuyLeg(inp).makerTaker == LostDiscount(inp.buy, BuyRef(inp)) && SellLeg(inp).makerTaker == LostDiscount(inp.sell, SellRef(inp))
  {
    hide LegAttribution, LegCost, LostDiscount, Scaled, Shortfall, Usd, BuyRef, SellRef, BuyExec, SellExec, IsSize;
    Values(inp, x);
    var t := inp.trading;
    LegCostIs(inp.buy, BuyRef(inp), BuyExec(inp), t, true, 1.0, 1.0);
    LegCostIs(inp.sell, SellRef(inp), SellExec(inp), t, false, 1.0, 1.0);
    Unscaled(BuyLeg(inp));
    Unscaled(SellLeg(inp));
    LegCostIs(inp.buy, BuyRef(inp), BuyExec(inp), t, true, t.worstCaseFeeMultiplier, t.worstCaseSlippageMultiplier);
    LegCostIs(inp.sell, SellRef(inp), SellExec(inp), t, false, t.worstCaseFeeMultiplier, t.worstCaseSlippageMultiplier);
  }

  /** Five repeated components of two legs. */
  lemma RepeatedSum(b: LegCosts, s: LegCosts, n: real)
    ensures Scaled(b.tradingFee, n) + Scaled(s.tradingFee, n) + Scaled(b.swapFee + s.swapFee, n)
            + Scaled(b.impact + s.impact, n) + Scaled(b.slip + s.slip, n) == Scaled(Parts(b) + Parts(s), n)
  {
    hide Scaled;
    ScaledSum(b.tradingFee, s.tradingFee, n);
    ScaledSum(b.tradingFee + s.tradingFee, b.swapFee + s.swapFee, n);
    ScaledSum(b.tradingFee + s.tradingFee + (b.swapFee + s.swapFee), b.impact + s.impact, n);
    ScaledSum(b.tradingFee + s.tradingFee + (b.swapFee + s.swapFee) + (b.impact + s.impact), b.slip + s.slip, n);
    assert b.tradingFee + s.tradingFee + (b.swapFee + s.swapFee) + (b.impact + s.impact) + (b.slip + s.slip) == Parts(b) + Parts(s);
  }

  function HeldBack(c: Costs): real {
    c.rebalanceAllowance + c.latencyAllowance + c.partialFillAllowance + c.failureReserve + c.safetyBuffer + c.flashLoanFee + c.mevReserve
  }

  lemma LoanFeeIs(inp: Inputs)
    ensures inp.flashLoan.Some? ==> PctOf(inp.flashLoan.value.loanAmountUsd, inp.flashLoan.value.feePct) == LoanFee(inp)
  {
  }

  /** Percentages of one value add up, counted once or twice. */
  lemma PercentsAdd(value: real, buffer: real, p: real, l: real, f: real, r: real)
    ensures PctOf(value, buffer + p + (l + f + r) * 1.0)
            == PctOf(value, buffer) + PctOf(value, p) + PctOf(value, l) + PctOf(value, f) + PctOf(value, r)
    ensures PctOf(value, buffer + p + (l + f + r) * 2.0)
            == PctOf(value, buffer) + PctOf(value, p) + PctOf(value, l) * 2.0 + PctOf(value, f) * 2.0 + PctOf(value, r) * 2.0
    ensures PctOf(value, buffer + p * 1.0) == PctOf(value, buffer) + PctOf(value, p)
    ensures PctOf(value, buffer + p * 2.0) == PctOf(value, buffer) + PctOf(value, p) * 2.0
    ensures PctOf(value, buffer + 0.0) == PctOf(value, buffer) && PctOf(value, 0.0) == 0.0
  {
  }

  lemma GasIs(inp: Inputs)
    ensures ExpectedGas(inp) == GasUsd(inp, false) && WorstGas(inp) == GasUsd(inp, true) && PriorityFee(inp) == PriorityUsd(inp)
    ensures OnChain(inp) == TouchesChain(inp)
  {
  }

  lemma OtherCosts(inp: Inputs)
    ensures Known(inp.bridgeFeeUsd) + Known(inp.withdrawalFeeUsd) + Known(inp.depositFeeUsd) == TransferFees(inp)
    ensures WorstFunding(inp) == FundingUsd(inp, true) && Trips(inp) == Rounds(inp)
  {
  }

  function Executed(c: Costs): real { c.buyTradingFee + c.sellTradingFee + c.dexSwapFee + c.priceImpact + c.slippage }

  /** Everything a sheet subtracts, in the groups of the formula. */
  lemma TotalGroups(c: Costs)
    requires c.lpFee == 0.0
    ensures c.Total() == Executed(c) + c.makerTakerAdjustment + (c.gas + c.priorityFee)
                         + (c.bridgeFee + c.withdrawalFee + c.depositFee) + c.funding + HeldBack(c)
  {
  }

  lemma ExecutionIs(inp: Inputs, x: real)
    requires IsSize(inp, x)
    ensures Executed(Expected(inp)) == Execution(inp, x, false)
    ensures Executed(Worst(inp)) == Execution(inp, x, true) + Tolerance(inp)
  {
    hide LegsOf, Parts, BuyLeg, SellLeg, Stressed, BuyRef, Scaled, IsSize, PctOf, Rounds, Trips, Tolerance, WorstGas, ExpectedGas,
      PriorityFee, WorstFunding;
    OtherCosts(inp);
    LegsCost(inp, x);
    RepeatedSum(BuyLeg(inp), SellLeg(inp), Trips(inp));
    RepeatedSum(Stressed(BuyLeg(inp), inp.trading), Stressed(SellLeg(inp), inp.trading), Trips(inp));
  }

  lemma Unscaled(l: LegCosts)
    ensures Scaled(l.swapFee, 1.0) == l.swapFee && Scaled(l.impact, 1.0) == l.impact && Scaled(l.slip, 1.0) == l.slip
    ensures Scaled(l.tradingFee, 1.0) == l.tradingFee
  {
  }

  // --- the sheets, component by component ----------------------------------------------------------------

  /** What a pool reports as its price impact, as far as the shortfall left by its fee goes. */
  function ImpactShare(leg: ExecutionQuote, reference: real, left: real): real {
    if !leg.kind.Dex? || leg.priceImpactPct <= 0.0 then 0.0
    else if PctOf(reference, leg.priceImpactPct) <= left then PctOf(reference, leg.priceImpactPct)
    else left
  }

  function SwapShare(leg: ExecutionQuote, reference: real, shortfall: real): real {
    if leg.kind.Dex? then PoolFee(leg, reference, shortfall) else 0.0
  }

  function FeeShare(inp: Inputs, leg: ExecutionQuote, reference: real, executed: real, isBuy: bool): real {
    if leg.kind.Dex? then 0.0 else BookFee(leg, reference, executed, inp.trading.unknownFeeFallbackPct, isBuy)
  }

  lemma LegShares(inp: Inputs, leg: ExecutionQuote, reference: real, executed: real, isBuy: bool)
    ensures var shortfall := Shortfall(reference, executed, isBuy);
            var l, swap := LegAttribution(leg, reference, shortfall, inp.trading, isBuy), SwapShare(leg, reference, shortfall);
            && l.swapFee == swap && l.impact == ImpactShare(leg, reference, shortfall - swap)
            && l.slip == shortfall - swap - l.impact && l.tradingFee == FeeShare(inp, leg, reference, executed, isBuy)
            && l.makerTaker == LostDiscount(leg, reference)
  {
    LegParts(leg, reference, executed, inp.trading, isBuy);
    hide BookFee, LostDiscount;
  }

  /** What the legs cost on the expected sheet: the parts of each leg's shortfall and its fees, once per round. */
  lemma LegsOnSheet(inp: Inputs, x: real)
    requires IsSize(inp, x)
    ensures var e, n := Expected(inp), Rounds(inp);
            var bought, paid := Usd(inp, x, inp.buy.referencePrice), Usd(inp, x, inp.buy.avgPrice);
            var sold, got := Usd(inp, x, inp.sell.referencePrice), Usd(inp, x, inp.sell.avgPrice);
            var less, lost := Shortfall(bought, paid, true), Shortfall(sold, got, false);
            var b, s := SwapShare(inp.buy, bought, less), SwapShare(inp.sell, sold, lost);
            var i, j := ImpactShare(inp.buy, bought, less - b), ImpactShare(inp.sell, sold, lost - s);
            && e.buyTradingFee == Scaled(FeeShare(inp, inp.buy, bought, paid, true), n)
            && e.sellTradingFee == Scaled(FeeShare(inp, inp.sell, sold, got, false), n)
            && e.makerTakerAdjustment == LostDiscount(inp.buy, bought) + LostDiscount(inp.sell, sold)
            && e.dexSwapFee == Scaled(b + s, n) && e.priceImpact == Scaled(i + j, n)
            && e.slippage == Scaled((less - b - i) + (lost - s - j), n) && e.lpFee == 0.0
  {
    Values(inp, x);
    OtherCosts(inp);
    LegShares(inp, inp.buy, BuyRef(inp), BuyExec(inp), true);
    LegShares(inp, inp.sell, SellRef(inp), SellExec(inp), false);
    hide Usd, BuyRef, SellRef, BuyExec, SellExec, Shortfall, SwapShare, ImpactShare, FeeShare, LostDiscount, LegAttribution, IsSize,
      Scaled, PctOf, Rounds, WorstGas, ExpectedGas, PriorityFee, BufferPct, MevPct;
  }

  /** The rest of the expected sheet: gas, transfers and funding as they are, and each percentage of the purchase in its own line. */
  lemma RestOfSheet(inp: Inputs, x: real)
    requires IsSize(inp, x)
    ensures var e, t, bought := Expected(inp), inp.trading, Usd(inp, x, inp.buy.referencePrice);
            && e.gas == GasUsd(inp, false) && e.priorityFee == PriorityUsd(inp) && e.funding == inp.fundingCostUsd
            && (inp.bridgeFeeUsd == Some(e.bridgeFee) || (inp.bridgeFeeUsd.None? && e.bridgeFee == 0.0))
            && (inp.withdrawalFeeUsd == Some(e.withdrawalFee) || (inp.withdrawalFeeUsd.None? && e.withdrawalFee == 0.0))
            && (inp.depositFeeUsd == Some(e.depositFee) || (inp.depositFeeUsd.None? && e.depositFee == 0.0))
            && e.safetyBuffer == PctOf(bought, BufferOf(inp))
            && (if inp.flashLoan.Some? then
                  && e.rebalanceAllowance == e.latencyAllowance == e.partialFillAllowance == 0.0 && e.flashLoanFee == LoanFee(inp)
                  && e.failureReserve == GasUsd(inp, true) / 2.0
                  && e.mevReserve == PctOf(bought, if inp.flashSettings.mevAware then inp.flashSettings.mevReservePct else 0.0)
                else
                  && e.rebalanceAllowance == PctOf(bought, t.rebalanceAllowancePct) && e.latencyAllowance == PctOf(bought, t.latencyAllowancePct)
                  && e.partialFillAllowance == PctOf(bought, t.partialFillAllowancePct) && e.failureReserve == PctOf(bought, t.failureReservePct)
                  && e.flashLoanFee == e.mevReserve == 0.0)
  {
    Values(inp, x);
    GasIs(inp);
    LoanFeeIs(inp);
    hide Usd, BuyRef, BuyLeg, SellLeg, IsSize, Scaled, PctOf, LoanFee, GasUsd, PriorityUsd, WorstGas, ExpectedGas, PriorityFee, Trips;
  }

  lemma WorstLegLines(inp: Inputs)
    ensures var e, w, t := Expected(inp), Worst(inp), inp.trading;
            && w.buyTradingFee == Scaled(e.buyTradingFee, t.worstCaseFeeMultiplier)
            && w.sellTradingFee == Scaled(e.sellTradingFee, t.worstCaseFeeMultiplier)
            && w.dexSwapFee == Scaled(e.dexSwapFee, t.worstCaseFeeMultiplier)
            && w.priceImpact == Scaled(e.priceImpact, t.worstCaseSlippageMultiplier)
            && w.slippage == Scaled(e.slippage, t.worstCaseSlippageMultiplier) + Tolerance(inp)
            && w.makerTakerAdjustment == e.makerTakerAdjustment && w.lpFee == 0.0
  {
    var b, s, n, t := BuyLeg(inp), SellLeg(inp), Trips(inp), inp.trading;
    StressCommutes(b.tradingFee, 0.0, n, t.worstCaseFeeMultiplier);
    StressCommutes(s.tradingFee, 0.0, n, t.worstCaseFeeMultiplier);
    StressCommutes(b.swapFee, s.swapFee, n, t.worstCaseFeeMultiplier);
    StressCommutes(b.impact, s.impact, n, t.worstCaseSlippageMultiplier);
    StressCommutes(b.slip, s.slip, n, t.worstCaseSlippageMultiplier);
    hide BuyRef, BuyLeg, SellLeg, Scaled, PctOf, WorstGas, ExpectedGas, PriorityFee, Trips, OnChain, WorstFunding, BufferPct, MevPct, Tolerance;
  }

  lemma WorstRestLines(inp: Inputs)
    ensures var e, w := Expected(inp), Worst(inp);
            && w.gas == GasUsd(inp, true) && w.priorityFee == Scaled(e.priorityFee, inp.gasSettings.stressMultiplier)
            && w.funding == FundingUsd(inp, true)
            && w.latencyAllowance == 2.0 * e.latencyAllowance && w.partialFillAllowance == 2.0 * e.partialFillAllowance
            && w.mevReserve == 2.0 * e.mevReserve
            && w.failureReserve == 2.0 * e.failureReserve + (if inp.flashLoan.None? then GasUsd(inp, true) else 0.0)
            && w.rebalanceAllowance == e.rebalanceAllowance && w.safetyBuffer == e.safetyBuffer && w.flashLoanFee == e.flashLoanFee
            && w.bridgeFee == e.bridgeFee && w.withdrawalFee == e.withdrawalFee && w.depositFee == e.depositFee
  {
    GasIs(inp);
    OtherCosts(inp);
    NoGasOffChain(inp);
    hide BuyRef, BuyLeg, SellLeg, Stressed, Scaled, PctOf, GasUsd, WorstGas, ExpectedGas, PriorityFee, Trips, OnChain, FundingUsd,
      WorstFunding, BufferPct, MevPct, Tolerance;
  }

  lemma NoGasOffChain(inp: Inputs)
    ensures !OnChain(inp) ==> WorstGas(inp) == 0.0
  {
  }

  lemma ToleranceIs(inp: Inputs, x: real)
    requires IsSize(inp, x)
    ensures Tolerance(inp) == if inp.flashLoan.Some? then Leeway(inp, Usd(inp, x, inp.buy.referencePrice)) else 0.0
  {
    Values(inp, x);
    hide BuyRef, Usd, IsSize;
  }

  /** The worst case of each line: its own multiple of the expected one, with stressed gas, leeway and funding beside it. */
  lemma WorstOfSheet(inp: Inputs, x: real)
    requires IsSize(inp, x)
    ensures var e, w, t := Expected(inp), Worst(inp), inp.trading;
            && w.buyTradingFee == Scaled(e.buyTradingFee, t.worstCaseFeeMultiplier)
            && w.sellTradingFee == Scaled(e.sellTradingFee, t.worstCaseFeeMultiplier)
            && w.dexSwapFee == Scaled(e.dexSwapFee, t.worstCaseFeeMultiplier)
            && w.priceImpact == Scaled(e.priceImpact, t.worstCaseSlippageMultiplier)
            && w.slippage == Scaled(e.slippage, t.worstCaseSlippageMultiplier)
                             + (if inp.flashLoan.Some? then Leeway(inp, Usd(inp, x, inp.buy.referencePrice)) else 0.0)
            && w.gas == GasUsd(inp, true) && w.priorityFee == Scaled(e.priorityFee, inp.gasSettings.stressMultiplier)
            && w.funding == FundingUsd(inp, true)
            && w.latencyAllowance == 2.0 * e.latencyAllowance && w.partialFillAllowance == 2.0 * e.partialFillAllowance
            && w.mevReserve == 2.0 * e.mevReserve
            && w.failureReserve == 2.0 * e.failureReserve + (if inp.flashLoan.None? then GasUsd(inp, true) else 0.0)
            && w.makerTakerAdjustment == e.makerTakerAdjustment && w.lpFee == 0.0 && w.rebalanceAllowance == e.rebalanceAllowance
            && w.safetyBuffer == e.safetyBuffer && w.flashLoanFee == e.flashLoanFee
            && w.bridgeFee == e.bridgeFee && w.withdrawalFee == e.withdrawalFee && w.depositFee == e.depositFee
  {
    hide Expected, Worst, Scaled, GasUsd, FundingUsd, Tolerance, Leeway, Usd, IsSize;
    WorstLegLines(inp);
    WorstRestLines(inp);
    ToleranceIs(inp, x);
  }

  /** Stressing each part and repeating the sum, or repeating first. */
  lemma StressCommutes(a: real, b: real, n: real, m: real)
    ensures Scaled(Scaled(a, m) + Scaled(b, m), n) == Scaled(Scaled(a + b, n), m)
    ensures Scaled(Scaled(a, m), n) == Scaled(Scaled(a, n), m)
  {
  }

  // --- and the formula ---------------------------------------------------------------------------------

  /** Gas, transfers, funding and the lost discounts, in the groups of the formula. */
  lemma OtherGroups(inp: Inputs, x: real)
    requires IsSize(inp, x)
    ensures var e, w := Expected(inp), Worst(inp);
            && e.lpFee == w.lpFee == 0.0
            && e.makerTakerAdjustment == w.makerTakerAdjustment
               == LostDiscount(inp.buy, Usd(inp, x, inp.buy.referencePrice)) + LostDiscount(inp.sell, Usd(inp, x, inp.sell.referencePrice))
            && e.gas + e.priorityFee == ChainCosts(inp, false) && w.gas + w.priorityFee == ChainCosts(inp, true)
            && e.bridgeFee + e.withdrawalFee + e.depositFee == w.bridgeFee + w.withdrawalFee + w.depositFee == TransferFees(inp)
            && e.funding == FundingUsd(inp, false) && w.funding == FundingUsd(inp, true)
  {
    hide Expected, Worst, Usd, LostDiscount, GasUsd, PriorityUsd, IsSize, Scaled, PctOf, LoanFee, BufferOf, Shortfall, SwapShare, ImpactShare,
      FeeShare;
    LegsOnSheet(inp, x);
    RestOfSheet(inp, x);
    WorstOfSheet(inp, x);
  }

  /** And what is held back. */
  lemma ReserveIs(inp: Inputs, x: real)
    requires IsSize(inp, x)
    ensures var bought := Usd(inp, x, inp.buy.referencePrice);
            && HeldBack(Expected(inp)) == Reserve(inp, bought, false)
            && HeldBack(Worst(inp)) + Tolerance(inp) == Reserve(inp, bought, true)
  {
    hide Expected, Worst, Usd, GasUsd, PriorityUsd, IsSize, Scaled, PctOf, LoanFee, BufferOf, FundingUsd, Leeway, Tolerance;
    var bought, t := Usd(inp, x, inp.buy.referencePrice), inp.trading;
    RestOfSheet(inp, x);
    WorstRestLines(inp);
    ToleranceIs(inp, x);
    PercentsAdd(bought, BufferOf(inp), inp.flashSettings.mevReservePct, 0.0, 0.0, 0.0);
    PercentsAdd(bought, BufferOf(inp), t.rebalanceAllowancePct, t.latencyAllowancePct, t.partialFillAllowancePct, t.failureReservePct);
  }

  /** The expected net profit and the worst case of any trade are the formula. */
  lemma NetIs(inp: Inputs, x: real)
    requires IsSize(inp, x)
    ensures ExpectedNet(inp) == Net(inp, x, false) && WorstCase(inp) == Net(inp, x, true)
  {
    hide Execution, ChainCosts, TransferFees, FundingUsd, Reserve, LostDiscount, Expected, Worst, BuyRef, SellRef, BuyExec, SellExec,
      BuyDeviation, SellDeviation, Shortfall, IsSize, Usd, Costs.Total, Executed, HeldBack, Tolerance;
    Values(inp, x);
    OtherGroups(inp, x);
    ExecutionIs(inp, x);
    ReserveIs(inp, x);
    TotalGroups(Expected(inp));
    TotalGroups(Worst(inp));
  }

  // --- what it comes to in the common cases --------------------------------------------------------------

  /** An order-book leg that takes liquidity, at no better than its reference, for a percentage. */
  ghost predicate TakerLeg(leg: ExecutionQuote, isBuy: bool) {
    && !leg.kind.Dex? && !leg.isMaker && leg.feeInQuote.None? && leg.feePct.Some?
    && (if isBuy then leg.referencePrice <= leg.avgPrice else leg.avgPrice <= leg.referencePrice)
  }

  ghost predicate PoolLeg(leg: ExecutionQuote, isBuy: bool) {
    leg.kind.Dex? && (if isBuy then leg.referencePrice <= leg.avgPrice else leg.avgPrice <= leg.referencePrice)
  }

  lemma UsdOrder(inp: Inputs, x: real, p: real, q: real)
    requires x >= 0.0 && inp.rate >= 0.0 && p <= q
    ensures Usd(inp, x, p) <= Usd(inp, x, q)
  {
    MulMono(p, q, x);
    MulMono(x * p, x * q, inp.rate);
  }

  /** Percent of the purchase held back from a prefunded trade; what is doubtful counts twice in the worst case. */
  function HeldPct(inp: Inputs, times: real): real {
    inp.trading.safetyBufferPct + Max(0.0, inp.experienceExtraPct) + inp.stablecoinHaircutPct + inp.trading.rebalanceAllowancePct
    + (inp.trading.latencyAllowancePct + inp.trading.partialFillAllowancePct + inp.trading.failureReservePct) * times
  }

  /**
   * Two taker legs on order books, traded once: expected, the sale less its fee, less the purchase with its fee, less
   * every percentage held back from the purchase. In the worst case shortfalls and fees are stressed and three of the
   * percentages count twice.
   */
  lemma BookTradeNet(inp: Inputs, x: real)
    requires IsSize(inp, x) && x >= 0.0 && inp.rate >= 0.0 && TakerLeg(inp.buy, true) && TakerLeg(inp.sell, false)
    requires inp.flashLoan.None? && inp.roundTrips <= 1
    ensures var t, ref, sold := inp.trading, Usd(inp, x, inp.buy.referencePrice), Usd(inp, x, inp.sell.referencePrice);
            var paid, got := Usd(inp, x, inp.buy.avgPrice), Usd(inp, x, inp.sell.avgPrice);
            && ExpectedNet(inp) ==
               (got - PctOf(got, inp.sell.feePct.value)) - (paid + PctOf(paid, inp.buy.feePct.value))
               - PctOf(ref, HeldPct(inp, 1.0)) - TransferFees(inp) - inp.fundingCostUsd
            && WorstCase(inp) ==
               (sold - ref) - Scaled((paid - ref) + (sold - got), t.worstCaseSlippageMultiplier)
               - Scaled(PctOf(got, inp.sell.feePct.value) + PctOf(paid, inp.buy.feePct.value), t.worstCaseFeeMultiplier)
               - PctOf(ref, HeldPct(inp, 2.0)) - TransferFees(inp) - FundingUsd(inp, true)
  {
    var t, ref, sold := inp.trading, Usd(inp, x, inp.buy.referencePrice), Usd(inp, x, inp.sell.referencePrice);
    var paid, got := Usd(inp, x, inp.buy.avgPrice), Usd(inp, x, inp.sell.avgPrice);
    hide Net, ExpectedNet, WorstCase, Usd, TransferFees, IsSize, PctOf, Scaled, HeldPct;
    NetIs(inp, x);
    BookNet(inp, x, false);
    BookNet(inp, x, true);
    Unrepeated(PctOf(paid, inp.buy.feePct.value));
    Unrepeated(PctOf(got, inp.sell.feePct.value));
    Unrepeated(paid - ref);
    Unrepeated(sold - got);
    ScaledSum(paid - ref, sold - got, t.worstCaseSlippageMultiplier);
    ScaledSum(PctOf(got, inp.sell.feePct.value), PctOf(paid, inp.buy.feePct.value), t.worstCaseFeeMultiplier);
  }

  /** A fee on what was executed, and the shortfall. */
  function TakerCost(executed: real, pct: real, shortfall: real, fees: real, slips: real): real {
    Scaled(PctOf(executed, pct), fees) + Scaled(shortfall, slips)
  }

  lemma BookNet(inp: Inputs, x: real, worst: bool)
    requires IsSize(inp, x) && x >= 0.0 && inp.rate >= 0.0 && TakerLeg(inp.buy, true) && TakerLeg(inp.sell, false)
    requires inp.flashLoan.None? && inp.roundTrips <= 1
    ensures var t, ref, sold := inp.trading, Usd(inp, x, inp.buy.referencePrice), Usd(inp, x, inp.sell.referencePrice);
            var paid, got := Usd(inp, x, inp.buy.avgPrice), Usd(inp, x, inp.sell.avgPrice);
            var fees, slips := if worst then t.worstCaseFeeMultiplier else 1.0, if worst then t.worstCaseSlippageMultiplier else 1.0;
            Net(inp, x, worst) ==
              sold - ref - TakerCost(paid, inp.buy.feePct.value, paid - ref, fees, slips)
              - TakerCost(got, inp.sell.feePct.value, sold - got, fees, slips)
              - PctOf(ref, HeldPct(inp, if worst then 2.0 else 1.0)) - TransferFees(inp) - FundingUsd(inp, worst)
  {
    var t := inp.trading;
    var fees, slips := if worst then t.worstCaseFeeMultiplier else 1.0, if worst then t.worstCaseSlippageMultiplier else 1.0;
    UsdOrder(inp, x, inp.buy.referencePrice, inp.buy.avgPrice);
    UsdOrder(inp, x, inp.sell.avgPrice, inp.sell.referencePrice);
    Unrepeated(LegsOf(inp, x, fees, slips));
    PlainReserve(inp, Usd(inp, x, inp.buy.referencePrice), worst);
    PlainChain(inp, worst);
    TakerLegCost(inp.buy, Usd(inp, x, inp.buy.referencePrice), Usd(inp, x, inp.buy.avgPrice), t.unknownFeeFallbackPct, true, fees, slips);
    TakerLegCost(inp.sell, Usd(inp, x, inp.sell.referencePrice), Usd(inp, x, inp.sell.avgPrice), t.unknownFeeFallbackPct, false, fees, slips);
    hide Usd, TransferFees, FundingUsd, IsSize, Scaled, LegCost, Reserve, TakerCost, PctOf, HeldPct, ChainCosts;
  }

  lemma TakerLegCost(leg: ExecutionQuote, reference: real, executed: real, fallback: Option<real>, isBuy: bool, fees: real, slips: real)
    requires TakerLeg(leg, isBuy) && (if isBuy then reference <= executed else executed <= reference)
    ensures LegCost(leg, reference, executed, fallback, isBuy, fees, slips)
            == TakerCost(executed, leg.feePct.value, if isBuy then executed - reference else reference - executed, fees, slips)
    ensures LostDiscount(leg, reference) == 0.0
  {
  }

  lemma PlainChain(inp: Inputs, worst: bool)
    requires !TouchesChain(inp)
    ensures ChainCosts(inp, worst) == GasUsd(inp, worst) == 0.0
  {
  }

  lemma PlainReserve(inp: Inputs, value: real, worst: bool)
    requires inp.flashLoan.None? && !TouchesChain(inp)
    ensures Reserve(inp, value, worst) == PctOf(value, HeldPct(inp, if worst then 2.0 else 1.0))
  {
    PlainChain(inp, true);
    hide GasUsd;
  }

  lemma Unrepeated(x: real)
    ensures Scaled(x, 1.0) == x
  {
  }

  /**
   * A loan between two pools: the executed difference less gas, priority fee, loan fee, half the stressed gas for a
   * failure, and buffer and MEV reserve on the purchase.
   */
  lemma LoanTradeNet(inp: Inputs, x: real)
    requires IsSize(inp, x) && x >= 0.0 && inp.rate >= 0.0 && PoolLeg(inp.buy, true) && PoolLeg(inp.sell, false)
    requires inp.flashLoan.Some? && inp.gas.Some? && inp.roundTrips <= 1
    ensures var loan, gas, t := inp.flashLoan.value, inp.gas.value, inp.trading;
            var mev := if inp.flashSettings.mevAware then inp.flashSettings.mevReservePct else 0.0;
            ExpectedNet(inp) ==
              Usd(inp, x, inp.sell.avgPrice) - Usd(inp, x, inp.buy.avgPrice) - gas.expected - gas.priorityFee - gas.stress / 2.0
              - PctOf(loan.loanAmountUsd, loan.feePct)
              - PctOf(Usd(inp, x, inp.buy.referencePrice),
                      t.safetyBufferPct + Max(0.0, inp.experienceExtraPct) + inp.stablecoinHaircutPct + mev)
              - TransferFees(inp) - inp.fundingCostUsd
  {
    UsdOrder(inp, x, inp.buy.referencePrice, inp.buy.avgPrice);
    UsdOrder(inp, x, inp.sell.avgPrice, inp.sell.referencePrice);
    NetIs(inp, x);
    LoanReserved(inp, Usd(inp, x, inp.buy.referencePrice));
    LoanChain(inp);
    PoolLegCost(inp.buy, Usd(inp, x, inp.buy.referencePrice), Usd(inp, x, inp.buy.avgPrice), inp.trading.unknownFeeFallbackPct, true);
    PoolLegCost(inp.sell, Usd(inp, x, inp.sell.referencePrice), Usd(inp, x, inp.sell.avgPrice), inp.trading.unknownFeeFallbackPct, false);
    Unrepeated(LegsOf(inp, x, 1.0, 1.0));
    hide ExpectedNet, WorstCase, Usd, TransferFees, IsSize, Scaled, LegCost, Reserve, PctOf, ChainCosts, LostDiscount;
  }

  lemma LoanChain(inp: Inputs)
    requires inp.flashLoan.Some? && inp.gas.Some?
    ensures ChainCosts(inp, false) == inp.gas.value.expected + inp.gas.value.priorityFee
  {
  }

  lemma LoanReserved(inp: Inputs, value: real)
    requires inp.flashLoan.Some? && inp.gas.Some?
    ensures var mev := if inp.flashSettings.mevAware then inp.flashSettings.mevReservePct else 0.0;
            Reserve(inp, value, false) ==
              PctOf(value, inp.trading.safetyBufferPct + Max(0.0, inp.experienceExtraPct) + inp.stablecoinHaircutPct + mev)
              + PctOf(inp.flashLoan.value.loanAmountUsd, inp.flashLoan.value.feePct) + inp.gas.value.stress / 2.0
  {
    LoanFeeIs(inp);
    hide LoanFee;
  }

  lemma PoolLegCost(leg: ExecutionQuote, reference: real, executed: real, fallback: Option<real>, isBuy: bool)
    requires leg.kind.Dex? && (if isBuy then reference <= executed else executed <= reference)
    ensures LegCost(leg, reference, executed, fallback, isBuy, 1.0, 1.0) == if isBuy then executed - reference else reference - executed
    ensures LostDiscount(leg, reference) == 0.0
  {
    hide PoolFee;
  }

  // --- the rule ----------------------------------------------------------------------------------------

  /** Some fee of a leg is known; a pool whose quote shows a shortfall contains it. */
  predicate FeeKnown(inp: Inputs, leg: ExecutionQuote, shortfall: real) {
    || leg.feePct.Some? || leg.feeInQuote.Some?
    || (if leg.kind.Dex? then shortfall != 0.0 else inp.trading.unknownFeeFallbackPct.Some?)
  }

  /** The gas regime multiplies both profit floors. */
  function FloorFactor(inp: Inputs): real {
    match inp.gas
    case Some(gas) =>
      if gas.regime == Elevated then inp.gasSettings.elevatedProfitMultiplier
      else if gas.regime == High && TouchesChain(inp) then 2.0 else 1.0
    case None => 1.0
  }

  /** The money tied up: gas and loan fee of a loan, else the purchase with its fee and gas. */
  function Capital(inp: Inputs, x: real): real {
    GasUsd(inp, false) + PriorityUsd(inp)
    + (if inp.flashLoan.Some? then LoanFee(inp)
       else Usd(inp, x, inp.buy.avgPrice)
            + (if inp.buy.kind.Dex? then 0.0
               else Scaled(BookFee(inp.buy, Usd(inp, x, inp.buy.referencePrice), Usd(inp, x, inp.buy.avgPrice),
                                   inp.trading.unknownFeeFallbackPct, true), Rounds(inp))))
  }

  lemma CapitalIs(inp: Inputs, x: real)
    requires IsSize(inp, x)
    ensures CapitalRequired(inp) == Capital(inp, x) && GasAndPriority(inp) == GasUsd(inp, false) + PriorityUsd(inp)
    ensures AnyUnknown(inp) <==>
            || !FeeKnown(inp, inp.buy, Shortfall(Usd(inp, x, inp.buy.referencePrice), Usd(inp, x, inp.buy.avgPrice), true))
            || !FeeKnown(inp, inp.sell, Shortfall(Usd(inp, x, inp.sell.referencePrice), Usd(inp, x, inp.sell.avgPrice), false))
            || (TouchesChain(inp) && inp.gas.None? && !inp.gasSettings.conservativeFallback)
            || inp.bridgeFeeUsd.None? || inp.withdrawalFeeUsd.None? || inp.depositFeeUsd.None?
  {
    Values(inp, x);
    GasIs(inp);
    OtherCosts(inp);
    LoanFeeIs(inp);
    LegParts(inp.buy, BuyRef(inp), BuyExec(inp), inp.trading, true);
    LegParts(inp.sell, SellRef(inp), SellExec(inp), inp.trading, false);
    hide Usd, BuyRef, SellRef, BuyExec, SellExec, Shortfall, BookFee, GasUsd, PriorityUsd, ExpectedGas, PriorityFee, WorstGas,
      TouchesChain, OnChain, Scaled, Rounds, Trips, LoanFee, PctOf, IsSize, PoolFee, LostDiscount;
  }

  /** Quotes of one size that fill and are fresh for trading and for the risk settings alike. */
  predicate Tradable(inp: Inputs, x: real) {
    && x > 0.0 && inp.buy.baseAmount == x == inp.sell.baseAmount && inp.buy.fullyFillable && inp.sell.fullyFillable
    && inp.buy.ageMs <= inp.trading.maxQuoteAgeMs && inp.buy.ageMs <= inp.risk.maxQuoteAgeMs
    && inp.sell.ageMs <= inp.trading.maxQuoteAgeMs && inp.sell.ageMs <= inp.risk.maxQuoteAgeMs
  }

  /** A trade on a chain has its gas assessed, accepted and in no extreme regime. */
  predicate GasAccepted(inp: Inputs) {
    TouchesChain(inp) ==>
      inp.gas.Some? && (inp.gas.value.passed || inp.gas.value.reasons == []) && inp.gas.value.regime != Extreme
  }

  predicate LoanAccepted(inp: Inputs) {
    match inp.flashLoan
    case None => true
    case Some(loan) =>
      && (loan.simulationPassed == Some(true) || !inp.flashSettings.requireSimulation)
      && (loan.atomic || !inp.flashSettings.requireAtomic)
      && loan.loanAmountUsd <= inp.flashSettings.maxLoanUsd && loan.loanAmountUsd <= inp.risk.maxFlashLoanUsd
  }

  /** The return on what is tied up; where nothing is, only no floor is met. */
  predicate Returns(net: real, capital: real, floor: real) {
    if capital > 0.0 then net / capital * 100.0 >= floor else floor <= 0.0
  }

  predicate SmallShare(gas: real, gross: real, maxPct: real)
    requires gross > 0.0
  {
    gas / gross * 100.0 <= maxPct
  }

  predicate CoversGas(net: real, gas: real, ratio: real)
    requires gas > 0.0
  {
    net / gas >= ratio
  }

  /** Both profit floors, raised by the gas regime; those of a loan are the higher ones. */
  predicate ClearsFloors(inp: Inputs, net: real, worst: real) {
    var t := inp.trading;
    var floor := if inp.flashLoan.Some? && inp.flashSettings.minNetProfitUsd > t.minProfitUsd then inp.flashSettings.minNetProfitUsd
                 else t.minProfitUsd;
    net >= floor * FloorFactor(inp) && worst >= t.minWorstCaseProfitUsd * FloorFactor(inp)
  }

  /** Both profits, the return on capital, and what gas may take of them. */
  predicate Pays(inp: Inputs, x: real) {
    var net, gas := Net(inp, x, false), GasUsd(inp, false) + PriorityUsd(inp);
    var gross := Usd(inp, x, inp.sell.referencePrice) - Usd(inp, x, inp.buy.referencePrice);
    && ClearsFloors(inp, net, Net(inp, x, true)) && Returns(net, Capital(inp, x), inp.trading.minRoiPct)
    && (TouchesChain(inp) && inp.gas.Some? && gross > 0.0 ==>
         SmallShare(gas, gross, inp.gasSettings.maxGasPctOfGross) && net >= inp.gasSettings.minProfitAfterGasUsd)
    && (inp.flashLoan.Some? && gas > 0.0 ==> CoversGas(net, gas, inp.flashSettings.minProfitGasRatio))
  }

  lemma FloorsAre(inp: Inputs, net: real, worst: real)
    ensures MinProfit(inp) <= net && MinWorstCase(inp) <= worst <==> ClearsFloors(inp, net, worst)
  {
  }

  lemma RatiosAre(net: real, capital: real, floor: real, gas: real, gross: real, maxPct: real, ratio: real)
    ensures floor <= Roi(net, capital) <==> Returns(net, capital, floor)
    ensures gross > 0.0 ==> (Pct(gas, gross) <= maxPct <==> SmallShare(gas, gross, maxPct))
    ensures gas > 0.0 ==> (ratio <= GasRatio(net, gas) <==> CoversGas(net, gas, ratio))
  {
  }

  lemma GrossIs(inp: Inputs, x: real)
    requires IsSize(inp, x)
    ensures Gross(inp) == Usd(inp, x, inp.sell.referencePrice) - Usd(inp, x, inp.buy.referencePrice) && Size(inp) == x
  {
    Values(inp, x);
  }

  lemma PaysIs(inp: Inputs, x: real)
    requires IsSize(inp, x)
    ensures ClearsThresholds(inp, ExpectedNet(inp), WorstCase(inp), CapitalRequired(inp), GasAndPriority(inp)) <==> Pays(inp, x)
  {
    NetIs(inp, x);
    CapitalIs(inp, x);
    GasIs(inp);
    GrossIs(inp, x);
    var gas := GasUsd(inp, false) + PriorityUsd(inp);
    FloorsAre(inp, Net(inp, x, false), Net(inp, x, true));
    RatiosAre(Net(inp, x, false), Capital(inp, x), inp.trading.minRoiPct, gas, Gross(inp), inp.gasSettings.maxGasPctOfGross,
              inp.flashSettings.minProfitGasRatio);
    hide Net, Capital, ExpectedNet, WorstCase, CapitalRequired, GasAndPriority, AnyUnknown, Gross, Usd, Shortfall, FeeKnown, GasUsd,
      PriorityUsd, MinProfit, MinWorstCase, FloorFactor, OnChain, TouchesChain, ExpectedGas, WorstGas, PriorityFee, Scaled, Size, IsSize,
      Returns, SmallShare, CoversGas, ClearsFloors, Roi, Pct, GasRatio;
  }

  lemma UsableIs(inp: Inputs, x: real)
    requires IsSize(inp, x)
    ensures QuotesUsable(inp) && !(TouchesChain(inp) && inp.gas.None? && !inp.gasSettings.conservativeFallback) <==>
            Tradable(inp, x) && GasAccepted(inp) && LoanAccepted(inp)
  {
    GasIs(inp);
    GrossIs(inp, x);
    hide Gross, OnChain, TouchesChain, Usd, Size;
  }

  /** SAFE, spelled out: a trade the quotes allow, at known costs, with accepted gas and loan, that pays. */
  lemma SafeIff(inp: Inputs, x: real)
    requires IsSize(inp, x)
    ensures Acceptable(inp) <==>
            && Tradable(inp, x)
            && FeeKnown(inp, inp.buy, Shortfall(Usd(inp, x, inp.buy.referencePrice), Usd(inp, x, inp.buy.avgPrice), true))
            && FeeKnown(inp, inp.sell, Shortfall(Usd(inp, x, inp.sell.referencePrice), Usd(inp, x, inp.sell.avgPrice), false))
            && inp.bridgeFeeUsd.Some? && inp.withdrawalFeeUsd.Some? && inp.depositFeeUsd.Some?
            && GasAccepted(inp) && LoanAccepted(inp) && Pays(inp, x)
  {
    CapitalIs(inp, x);
    PaysIs(inp, x);
    UsableIs(inp, x);
    hide Pays, ClearsThresholds, QuotesUsable, Tradable, GasAccepted, LoanAccepted, ExpectedNet, WorstCase, CapitalRequired,
      GasAndPriority, AnyUnknown, Capital, Usd, Shortfall, FeeKnown, GasUsd, PriorityUsd, TouchesChain, IsSize;
  }
}
