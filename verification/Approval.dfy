/** What an approval says, from the context, the candidate and the market alone. */
module Approvals {
  import opened Wrappers
  import opened Money
  import opened Settings
  import opened Opportunities
  import Guard = ProfitGuards
  import NetProfits
  import Risk = RiskEngines
  import SlippageGuards

  /** The loan a candidate borrows, at the fee of its provider, as simulated. */
  function Borrowed(ctx: Context, cand: Candidate, m: Market): Option<Guard.FlashLoanTerms> {
    var provider := ctx.settings.flashLoan.provider;
    if cand.flashLoan then
      Some(Guard.FlashLoanTerms(
        m.buy.quoteAmount,
        if provider in {"balancer_v2", "morpho_blue"} then 0.0 else if provider in {"auto", "aave_v3"} then 0.05 else 0.09,
        if m.simulation.NotSimulated? then None else Some(m.simulation == Simulated(true)),
        m.buy.chain != None && m.buy.chain == m.sell.chain))
    else None
  }

  /** The question put to the profit guard: no transfer fees, no haircut, two rounds for carry trades. */
  function ProfitQuestion(ctx: Context, cand: Candidate, m: Market): Guard.Inputs {
    Guard.Inputs(
      buy := m.buy, sell := m.sell, trading := ctx.settings.trading, risk := ctx.settings.risk, gasSettings := ctx.settings.gas,
      flashSettings := ctx.settings.flashLoan, gas := m.gas,
      rate := match ctx.quotePrice { case Some(price) => price case None => 1.0 },
      experienceExtraPct := m.learnedExtraPct, flashLoan := Borrowed(ctx, cand, m), fundingCostUsd := m.fundingCostUsd,
      bridgeFeeUsd := Some(0.0), withdrawalFeeUsd := Some(0.0), depositFeeUsd := Some(0.0), stablecoinHaircutPct := 0.0,
      roundTrips := if cand.strategy in {SpotPerp, Funding, Basis} then 2 else 1)
  }

  /** The question put to the risk engine when no breaker objects. */
  function RiskQuestion(ctx: Context, cand: Candidate, m: Market, size: real, capital: real): Risk.RiskInputs
    requires ctx.basePrice.Some?
  {
    Risk.RiskInputs(
      settings := ctx.settings, strategy := cand.strategy, buy := m.buy, sell := m.sell, base := cand.base, quote := cand.quote,
      notionalUsd := size * ctx.basePrice.value, capitalRequiredUsd := capital, portfolio := ctx.portfolio.(activeBreakers := 0),
      gasUsd := match m.gas { case Some(gas) => gas.priorityFee + gas.expected case None => 0.0 },
      flashLoanUsd := if cand.flashLoan then Some(m.buy.quoteAmount) else None)
  }

  /** A leg within the slippage limit of the trade and fresh for trading and risk settings. */
  predicate LegUsable(ctx: Context, cand: Candidate, leg: ExecutionQuote, notional: real) {
    && leg.slippagePct + leg.priceImpactPct
       <= SlippageGuards.LimitOf(ctx.settings.slippage, cand.base, leg.venue, cand.buy.name + "->" + cand.sell.name, notional)
    && leg.ageMs <= ctx.settings.trading.maxQuoteAgeMs && leg.ageMs <= ctx.settings.risk.maxQuoteAgeMs
  }

  lemma QuestionsAre(ctx: Context, cand: Candidate, m: Market, size: real, x: real)
    requires ctx.Priced() && NetProfits.IsSize(ProfitQuestion(ctx, cand, m), x) && BlockingBreakers(ctx, cand, m) == []
    ensures var inp := ProfitQuestion(ctx, cand, m);
            && ProfitInputs(ctx, cand, m) == inp
            && RiskInputs(ctx, cand, m, size)
               == RiskQuestion(ctx, cand, m, size, if x > 0.0 then NetProfits.Capital(inp, x) else 0.0)
  {
    hide BlockingBreakers, Guard.CapitalRequired, NetProfits.Capital;
    assert ProfitInputs(ctx, cand, m) == ProfitQuestion(ctx, cand, m);
    NetProfits.GrossIs(ProfitQuestion(ctx, cand, m), x);
    NetProfits.CapitalIs(ProfitQuestion(ctx, cand, m), x);
  }

  /**
   * The whole approval: the profit rule, both legs, no breaker in scope, no stop and no pause, the risk limits, no extreme
   * gas, and no simulation that broke down.
   */
  lemma ApprovalIff(ctx: Context, cand: Candidate, m: Market, size: real, x: real)
    requires ctx.Priced() && NetProfits.IsSize(ProfitQuestion(ctx, cand, m), x)
    ensures var inp, notional := ProfitQuestion(ctx, cand, m), size * ctx.basePrice.value;
            Clear(ctx, cand, m, size) <==>
              && Guard.Acceptable(inp)
              && LegUsable(ctx, cand, m.buy, notional) && LegUsable(ctx, cand, m.sell, notional)
              && (forall b | b in ctx.breakers :: !InScope(b.scope, cand, m))
              && !ctx.stopped && ctx.settings.general.botEnabled
              && Risk.Passes(RiskQuestion(ctx, cand, m, size, if x > 0.0 then NetProfits.Capital(inp, x) else 0.0))
              && (m.gas.Some? && m.gas.value.regime == Extreme ==> m.buy.kind != Dex && m.sell.kind != Dex)
              && !(cand.flashLoan && m.simulation.SimulationRaised?)
  {
    hide Guard.Acceptable, Risk.Passes, RiskQuestion, ProfitQuestion, RiskInputs, ProfitInputs, BlockingBreakers, InScope,
      LegPasses, Fresh, LegUsable, NetProfits.Capital, NetProfits.IsSize;
    BlockingIff(ctx, cand, m);
    LegUsableIff(ctx, cand, m.buy, size, size * ctx.basePrice.value);
    LegUsableIff(ctx, cand, m.sell, size, size * ctx.basePrice.value);
    if BlockingBreakers(ctx, cand, m) == [] { QuestionsAre(ctx, cand, m, size, x); }
  }

  lemma LegUsableIff(ctx: Context, cand: Candidate, leg: ExecutionQuote, size: real, notional: real)
    requires ctx.Priced() && notional == Notional(ctx, size)
    ensures LegPasses(ctx, cand, leg, size) && Fresh(ctx.settings, leg) <==> LegUsable(ctx, cand, leg, notional)
  {
    hide SlippageGuards.LimitOf, Notional;
    assert RouteName(cand) == cand.buy.name + "->" + cand.sell.name;
  }

  /** The profits an opportunity shows are those of the formula; a trade of nothing shows none. */
  lemma ShownProfit(o: Opportunity, ctx: Context, cand: Candidate, m: Market, size: real, x: real)
    requires ctx.Priced() && Describes(o, ctx, cand, m, size) && NetProfits.IsSize(ProfitQuestion(ctx, cand, m), x)
    ensures var inp := ProfitQuestion(ctx, cand, m);
            && (x > 0.0 ==> o.profit.worstCase == NetProfits.Net(inp, x, true) && o.profit.expectedNet == NetProfits.Net(inp, x, false))
            && (x <= 0.0 ==> o.profit.worstCase == 0.0)
            && o.cand == cand && o.size == size && o.notionalUsd == size * ctx.basePrice.value && o.buy == m.buy && o.sell == m.sell && o.gas == m.gas
  {
    hide Guard.ExpectedNet, Guard.WorstCase, NetProfits.Net, RiskInputs, Risk.Score;
    var inp := ProfitQuestion(ctx, cand, m);
    assert ProfitInputs(ctx, cand, m) == inp;
    assert Guard.Size(inp) == x;
    NetProfits.NetIs(inp, x);
  }

  /**
   * What every approved trade between two order books earns when it executes as quoted: the sale less its fee, less the
   * purchase with its fee, still exceeds the minimum profit by everything held back for safety, doubt and learned misses.
   */
  lemma ApprovedBookTradeEarns(ctx: Context, cand: Candidate, m: Market, size: real, x: real)
    requires ctx.Priced() && Clear(ctx, cand, m, size) && NetProfits.IsSize(ProfitQuestion(ctx, cand, m), x)
    requires !cand.flashLoan && cand.strategy == CexCex && (ctx.quotePrice.Some? ==> ctx.quotePrice.value >= 0.0)
    requires NetProfits.TakerLeg(m.buy, true) && NetProfits.TakerLeg(m.sell, false) && (m.gas.Some? ==> m.gas.value.regime == Normal)
    ensures var t, rate := ctx.settings.trading, if ctx.quotePrice.Some? then ctx.quotePrice.value else 1.0;
            var paid, got := x * m.buy.avgPrice * rate, x * m.sell.avgPrice * rate;
            (got - PctOf(got, m.sell.feePct.value)) - (paid + PctOf(paid, m.buy.feePct.value))
            >= t.minProfitUsd + m.fundingCostUsd
               + PctOf(x * m.buy.referencePrice * rate,
                       t.safetyBufferPct + Max(0.0, m.learnedExtraPct) + t.rebalanceAllowancePct
                       + t.latencyAllowancePct + t.partialFillAllowancePct + t.failureReservePct)
  {
    var inp := ProfitQuestion(ctx, cand, m);
    CheckedInputs(ctx, cand, m, x);
    hide PctOf, Guard.Acceptable, Clear, Risk.Passes, Guard.ExpectedNet, Guard.WorstCase, NetProfits.Net, InScope, LegUsable, RiskQuestion,
      NetProfits.Usd, NetProfits.IsSize, NetProfits.HeldPct, NetProfits.Pays, ProfitQuestion, NetProfits.Tradable, NetProfits.TransferFees;
    ApprovedIsAcceptable(ctx, cand, m, size);
    SafeBookTradeEarns(inp, x);
  }

  lemma ApprovedIsAcceptable(ctx: Context, cand: Candidate, m: Market, size: real)
    requires ctx.Priced() && Clear(ctx, cand, m, size)
    ensures Guard.Acceptable(ProfitQuestion(ctx, cand, m))
  {
    hide Guard.Acceptable, Risk.Passes, BlockingBreakers, LegPasses, Fresh, RiskInputs;
    assert ProfitInputs(ctx, cand, m) == ProfitQuestion(ctx, cand, m);
  }

  lemma SafeBookTradeEarns(inp: Guard.Inputs, x: real)
    requires Guard.Acceptable(inp) && NetProfits.IsSize(inp, x) && inp.rate >= 0.0
    requires NetProfits.TakerLeg(inp.buy, true) && NetProfits.TakerLeg(inp.sell, false)
    requires inp.flashLoan.None? && inp.roundTrips <= 1 && (inp.gas.Some? ==> inp.gas.value.regime == Normal)
    ensures var paid, got := NetProfits.Usd(inp, x, inp.buy.avgPrice), NetProfits.Usd(inp, x, inp.sell.avgPrice);
            (got - PctOf(got, inp.sell.feePct.value)) - (paid + PctOf(paid, inp.buy.feePct.value))
            >= inp.trading.minProfitUsd + inp.fundingCostUsd + NetProfits.TransferFees(inp)
               + PctOf(NetProfits.Usd(inp, x, inp.buy.referencePrice), NetProfits.HeldPct(inp, 1.0))
  {
    hide PctOf, Guard.Acceptable, Guard.ExpectedNet, Guard.WorstCase, NetProfits.Net, NetProfits.Usd, NetProfits.IsSize, NetProfits.HeldPct,
      NetProfits.Pays, NetProfits.TransferFees, NetProfits.FeeKnown, NetProfits.Shortfall, NetProfits.GasAccepted, NetProfits.LoanAccepted;
    NetProfits.SafeIff(inp, x);
    NetProfits.BookTradeNet(inp, x);
    NetProfits.NetIs(inp, x);
    PlainFloor(inp, x);
  }

  lemma CheckedInputs(ctx: Context, cand: Candidate, m: Market, x: real)
    requires !cand.flashLoan && cand.strategy == CexCex && (ctx.quotePrice.Some? ==> ctx.quotePrice.value >= 0.0)
    ensures var inp, t, rate := ProfitQuestion(ctx, cand, m), ctx.settings.trading, if ctx.quotePrice.Some? then ctx.quotePrice.value else 1.0;
            && inp.rate == rate >= 0.0 && inp.roundTrips == 1 && inp.flashLoan.None? && inp.buy == m.buy && inp.sell == m.sell
            && inp.trading == t && inp.gas == m.gas && inp.fundingCostUsd == m.fundingCostUsd && NetProfits.TransferFees(inp) == 0.0
            && NetProfits.Usd(inp, x, m.buy.avgPrice) == x * m.buy.avgPrice * rate
            && NetProfits.Usd(inp, x, m.sell.avgPrice) == x * m.sell.avgPrice * rate
            && NetProfits.Usd(inp, x, m.buy.referencePrice) == x * m.buy.referencePrice * rate
            && NetProfits.HeldPct(inp, 1.0) == t.safetyBufferPct + Max(0.0, m.learnedExtraPct) + t.rebalanceAllowancePct
                                               + t.latencyAllowancePct + t.partialFillAllowancePct + t.failureReservePct
            && (NetProfits.Tradable(inp, x) ==> x > 0.0)
  {
  }

  lemma PlainFloor(inp: Guard.Inputs, x: real)
    requires NetProfits.Pays(inp, x) && inp.flashLoan.None? && (inp.gas.Some? ==> inp.gas.value.regime == Normal)
    ensures NetProfits.Net(inp, x, false) >= inp.trading.minProfitUsd
  {
    hide NetProfits.Net;
  }
}
