/** OPPORTUNITY ENGINE: one evaluation through the whole guard stack, loan size ladders, competing routes. */
module Opportunities {
  import opened Wrappers
  import opened Money
  import opened Settings
  import Breakers
  import EmergencyStops
  import Guard = ProfitGuards
  import Risk = RiskEngines
  import Sizing
  import Slippage
  import SlippageGuards
  import Walking

  datatype Candidate = Candidate(
    strategy: Strategy,
    pair: string,
    base: string,
    quote: string,
    buy: Sizing.SizingVenue,
    sell: Sizing.SizingVenue,
    flashLoan: bool)

  /** What an evaluation reads from the running engine. */
  datatype Context = Context(
    settings: AppSettings,
    portfolio: Risk.Portfolio,
    breakers: seq<Breakers.Breaker>,
    stopped: bool,
    basePrice: Option<real>,
    quotePrice: Option<real>,
    usableCapitalUsd: real,
    quoteAvailable: real,
    baseAvailable: real,
    collateralAvailable: real,
    amountStep: Option<real>)
  {
    predicate Priced() { basePrice.Some? && basePrice.value > 0.0 }
  }

  datatype Simulation = NotSimulated | Simulated(passed: bool) | SimulationRaised

  /** What quoting, gas, simulation, carry and learning answer at one size. */
  datatype Market = Market(
    buy: ExecutionQuote,
    sell: ExecutionQuote,
    gas: Option<Guard.GasAssessment>,
    simulation: Simulation,
    fundingCostUsd: real,
    learnedExtraPct: real)

  datatype BlockReason =
    | Sized(note: Sizing.Note) | BelowMinimum | SimulationFailed | Profit(reason: Guard.Reason) | Slippage(venue: string)
    | Latency(venue: string) | BreakerOn(breaker: Breakers.Breaker) | Stopped | Paused | Limit(limit: Risk.RiskReason)
    | GasExtreme | RoutePreferred(strategy: Strategy)

  datatype Opportunity = Opportunity(
    cand: Candidate,
    size: real,
    notionalUsd: real,
    buy: ExecutionQuote,
    sell: ExecutionQuote,
    gas: Option<Guard.GasAssessment>,
    profit: Guard.Assessment,
    risk: Risk.RiskAssessment,
    decision: Guard.Decision,
    reasons: seq<BlockReason>)
  {
    predicate Safe() { decision.SafeToExecute? }
    function RouteKey(): string { cand.pair + "|" + buy.venue + "->" + sell.venue }
  }

  function StrategyName(s: Strategy): string {
    match s
    case CexCex => "cex_cex"
    case CexDex => "cex_dex"
    case DexDex => "dex_dex"
    case SpotPerp => "spot_perp"
    case Funding => "funding"
    case Basis => "basis"
    case FlashLoan => "flash_loan"
  }

  function LoanFeePct(provider: string): real {
    if provider == "auto" || provider == "aave_v3" then 0.05
    else if provider == "balancer_v2" || provider == "morpho_blue" then 0.0
    else 0.09
  }

  // --- what the guards are asked -----------------------------------------------------------------

  function Terms(ctx: Context, cand: Candidate, m: Market): Option<Guard.FlashLoanTerms> {
    if !cand.flashLoan then None
    else Some(Guard.FlashLoanTerms(
      m.buy.quoteAmount, LoanFeePct(ctx.settings.flashLoan.provider),
      match m.simulation { case NotSimulated => None case Simulated(ok) => Some(ok) case SimulationRaised => Some(false) },
      m.buy.chain.Some? && m.buy.chain == m.sell.chain))
  }

  function ProfitInputs(ctx: Context, cand: Candidate, m: Market): Guard.Inputs {
    var s := ctx.settings;
    Guard.Inputs(m.buy, m.sell, s.trading, s.risk, s.gas, s.flashLoan, m.gas,
                 if ctx.quotePrice.Some? then ctx.quotePrice.value else 1.0,
                 m.learnedExtraPct, Terms(ctx, cand, m), m.fundingCostUsd,
                 Some(0.0), Some(0.0), Some(0.0), 0.0, if cand.strategy.IsCarry() then 2 else 1)
  }

  function RouteName(cand: Candidate): string { cand.buy.name + "->" + cand.sell.name }

  function Notional(ctx: Context, size: real): real
    requires ctx.Priced()
  {
    size * ctx.basePrice.value
  }

  predicate Fresh(s: AppSettings, leg: ExecutionQuote) {
    leg.ageMs <= s.trading.maxQuoteAgeMs && leg.ageMs <= s.risk.maxQuoteAgeMs
  }

  /** The active breakers that concern either leg. */
  function BlockingBreakers(ctx: Context, cand: Candidate, m: Market): seq<Breakers.Breaker> {
    Breakers.Blocks(ctx.breakers, Some(cand.buy.name), None, Some(StrategyName(cand.strategy)), Some(cand.pair))
    + Breakers.Blocks(ctx.breakers, Some(cand.sell.name), if m.buy.chain.Some? then m.buy.chain else m.sell.chain, None, None)
  }

  function CapitalOf(inp: Guard.Inputs): real { if Guard.Size(inp) > 0.0 then Guard.CapitalRequired(inp) else 0.0 }
  function WorstOf(inp: Guard.Inputs): real { if Guard.Size(inp) > 0.0 then Guard.WorstCase(inp) else 0.0 }

  /** The risk engine's question; of the active breakers only their presence matters to it. */
  function RiskInputs(ctx: Context, cand: Candidate, m: Market, size: real): Risk.RiskInputs
    requires ctx.Priced()
  {
    Risk.RiskInputs(ctx.settings, cand.strategy, m.buy, m.sell, cand.base, cand.quote, Notional(ctx, size),
                    CapitalOf(ProfitInputs(ctx, cand, m)),
                    ctx.portfolio.(activeBreakers := |BlockingBreakers(ctx, cand, m)|),
                    if m.gas.Some? then m.gas.value.expected + m.gas.value.priorityFee else 0.0,
                    if cand.flashLoan then Some(m.buy.quoteAmount) else None)
  }

  predicate GasPaused(m: Market) {
    m.gas.Some? && m.gas.value.regime == Extreme && (m.buy.kind.Dex? || m.sell.kind.Dex?)
  }

  predicate LegPasses(ctx: Context, cand: Candidate, leg: ExecutionQuote, size: real)
    requires ctx.Priced()
  {
    SlippageGuards.Passes(ctx.settings.slippage, leg, RouteName(cand), Notional(ctx, size), cand.base)
  }

  /** Every guard is satisfied. */
  predicate Clear(ctx: Context, cand: Candidate, m: Market, size: real)
    requires ctx.Priced()
  {
    && Guard.Acceptable(ProfitInputs(ctx, cand, m))
    && (cand.flashLoan ==> m.simulation != SimulationRaised)
    && LegPasses(ctx, cand, m.buy, size) && LegPasses(ctx, cand, m.sell, size)
    && Fresh(ctx.settings, m.buy) && Fresh(ctx.settings, m.sell)
    && BlockingBreakers(ctx, cand, m) == []
    && !ctx.stopped && ctx.settings.general.botEnabled
    && Risk.Passes(RiskInputs(ctx, cand, m, size))
    && !GasPaused(m)
  }

  // --- one evaluation ----------------------------------------------------------------------------

  function Profits(rs: seq<Guard.Reason>): (out: seq<BlockReason>)
    ensures |out| == |rs|
  {
    seq(|rs|, i requires 0 <= i < |rs| => Profit(rs[i]))
  }

  function Limits(rs: seq<Risk.RiskReason>): (out: seq<BlockReason>)
    ensures |out| == |rs|
  {
    seq(|rs|, i requires 0 <= i < |rs| => Limit(rs[i]))
  }

  function BreakersOn(bs: seq<Breakers.Breaker>): (out: seq<BlockReason>)
    ensures |out| == |bs|
  {
    seq(|bs|, i requires 0 <= i < |bs| => BreakerOn(bs[i]))
  }

  method CheckSlippageAndAge(ctx: Context, cand: Candidate, m: Market, size: real) returns (reasons: seq<BlockReason>)
    requires ctx.Priced()
    ensures reasons == [] <==>
            && LegPasses(ctx, cand, m.buy, size) && LegPasses(ctx, cand, m.sell, size)
            && Fresh(ctx.settings, m.buy) && Fresh(ctx.settings, m.sell)
  {
    hide SlippageGuards.LimitOf, Notional;
    reasons := [];
    var notional := Notional(ctx, size);
    var limit := SlippageGuards.LimitFor(ctx.settings.slippage, cand.base, m.buy.venue, RouteName(cand), notional);
    if m.buy.slippagePct + m.buy.priceImpactPct > limit { reasons := reasons + [Slippage(m.buy.venue)]; }
    limit := SlippageGuards.LimitFor(ctx.settings.slippage, cand.base, m.sell.venue, RouteName(cand), notional);
    if m.sell.slippagePct + m.sell.priceImpactPct > limit { reasons := reasons + [Slippage(m.sell.venue)]; }
    if !Fresh(ctx.settings, m.buy) { reasons := reasons + [Latency(m.buy.venue)]; }
    if !Fresh(ctx.settings, m.sell) { reasons := reasons + [Latency(m.sell.venue)]; }
  }

  /** What an opportunity says about its quotes and size, and how its decision and reasons agree. */
  predicate Describes(o: Opportunity, ctx: Context, cand: Candidate, m: Market, size: real)
    requires ctx.Priced()
  {
    && o.cand == cand && o.size == size && o.notionalUsd == Notional(ctx, size) && o.buy == m.buy && o.sell == m.sell && o.gas == m.gas
    && o.profit.worstCase == WorstOf(ProfitInputs(ctx, cand, m))
    && (Guard.Size(ProfitInputs(ctx, cand, m)) > 0.0 ==> o.profit.expectedNet == Guard.ExpectedNet(ProfitInputs(ctx, cand, m)))
    && o.risk.score == Risk.Score(RiskInputs(ctx, cand, m, size))
  }

  /** The guard stack: SAFE exactly when no earlier objection exists and every guard is clear. */
  method AssessCase(ctx: Context, cand: Candidate, m: Market, size: real, pre: seq<BlockReason>) returns (o: Opportunity)
    requires ctx.Priced()
    ensures Describes(o, ctx, cand, m, size)
    ensures o.Safe() <==> pre == [] && Clear(ctx, cand, m, size)
    ensures o.reasons == [] <==> o.Safe()
  {
    hide Guard.Acceptable, Guard.Size, Guard.WorstCase, Guard.ExpectedNet, Guard.CapitalRequired, Risk.Passes, Risk.Score,
      LegPasses, Fresh, Terms, BlockingBreakers, GasPaused, Notional;
    var inputs := ProfitInputs(ctx, cand, m);
    var profit := Guard.Assess(inputs);
    var reasons := pre;
    if cand.flashLoan && m.simulation == SimulationRaised { reasons := reasons + [SimulationFailed]; }
    reasons := reasons + Profits(profit.reasons);
    var legReasons := CheckSlippageAndAge(ctx, cand, m, size);
    var blocking := BlockingBreakers(ctx, cand, m);
    reasons := reasons + legReasons + BreakersOn(blocking);
    if ctx.stopped { reasons := reasons + [Stopped]; }
    if !ctx.settings.general.botEnabled { reasons := reasons + [Paused]; }
    assert profit.capitalRequired == CapitalOf(inputs);
    var risk := Risk.Assess(RiskInputs(ctx, cand, m, size));
    reasons := reasons + Limits(risk.reasons);
    if GasPaused(m) { reasons := reasons + [GasExtreme]; }
    o := Opportunity(cand, size, Notional(ctx, size), m.buy, m.sell, m.gas, profit, risk,
                     if reasons == [] then Guard.SafeToExecute else Guard.Decision.Blocked, reasons);
  }

  predicate BelowMin(ctx: Context, size: real)
    requires ctx.Priced()
  {
    size <= 0.0 || Notional(ctx, size) < ctx.settings.trading.minTradeSizeUsd
  }

  /** A size below the minimum is still priced, at the minimum, but never approved. */
  function PricedSize(ctx: Context, size: real): real
    requires ctx.Priced()
  {
    if BelowMin(ctx, size) then Max(size, FloorToStep(ctx.settings.trading.minTradeSizeUsd / ctx.basePrice.value, 0.000001))
    else size
  }

  method EvaluateSize(ctx: Context, cand: Candidate, size: real, pre: seq<BlockReason>, market: real -> Option<Market>)
    returns (o: Option<Opportunity>)
    requires ctx.Priced()
    ensures o.None? <==> market(PricedSize(ctx, size)).None?
    ensures o.Some? ==>
              && Describes(o.value, ctx, cand, market(PricedSize(ctx, size)).value, PricedSize(ctx, size))
              && (o.value.reasons == [] <==> o.value.Safe())
    ensures o.Some? ==> (o.value.Safe() <==>
              pre == [] && !BelowMin(ctx, size) && Clear(ctx, cand, market(size).value, size))
  {
    hide Clear, Describes, Notional, FloorToStep;
    var reasons, priced := pre, size;
    if BelowMin(ctx, size) {
      reasons := reasons + [BelowMinimum];
      priced := Max(size, FloorToStep(ctx.settings.trading.minTradeSizeUsd / ctx.basePrice.value, 0.000001));
    }
    var m := market(priced);
    if m.None? { return None; }
    var assessed := AssessCase(ctx, cand, m.value, priced, reasons);
    o := Some(assessed);
  }

  function SizingOf(ctx: Context, cand: Candidate): Sizing.SizingInputs
    requires ctx.Priced()
  {
    Sizing.SizingInputs(cand.base, cand.flashLoan, ctx.settings.trading, ctx.settings.risk, ctx.settings.flashLoan,
                        ctx.settings.slippage, ctx.usableCapitalUsd, ctx.basePrice.value, cand.buy, cand.sell,
                        ctx.quoteAvailable, ctx.baseAvailable, ctx.collateralAvailable, ctx.amountStep)
  }

  function SizeNotes(notes: seq<Sizing.Note>): (out: seq<BlockReason>)
    ensures |out| == |notes|
  {
    seq(|notes|, i requires 0 <= i < |notes| => Sized(notes[i]))
  }

  /**
   * A scanned, prefunded route is SAFE exactly when nothing capped its size, the size reaches the minimum, and
   * every guard is clear at it. A cap on the size is itself a reason to block.
   */
  method EvaluateScanned(ctx: Context, cand: Candidate, market: real -> Option<Market>) returns (o: Option<Opportunity>)
    requires ctx.Priced() && !cand.flashLoan && Sizing.CanCap(SizingOf(ctx, cand))
    ensures var size := Sizing.Picked(SizingOf(ctx, cand));
            && (o.None? <==> market(PricedSize(ctx, size)).None?)
            && (o.Some? ==> (o.value.Safe() <==>
                 Sizing.Uncapped(SizingOf(ctx, cand)) && !BelowMin(ctx, size) && Clear(ctx, cand, market(size).value, size)))
            && (o.Some? ==> Describes(o.value, ctx, cand, market(PricedSize(ctx, size)).value, PricedSize(ctx, size)))
            && (o.Some? ==> (o.value.reasons == [] <==> o.value.Safe()))
  {
    hide Clear, BelowMin, Sizing.Picked, Sizing.Uncapped;
    var size, notes := Sizing.PickSize(SizingOf(ctx, cand));
    o := EvaluateSize(ctx, cand, size, SizeNotes(notes), market);
  }

  // --- the loan size ladder ------------------------------------------------------------------------

  const LADDER := [1.0, 0.5, 0.25, 0.1, 0.04]

  function RungSize(largest: real, fraction: real): real { FloorToStep(largest * fraction * 0.98, 0.000001) }

  /** The sizes of the first `n` rungs that reach the minimum and can be quoted. */
  function Rungs(ctx: Context, largest: real, market: real -> Option<Market>, n: nat): seq<real>
    requires ctx.Priced() && n <= |LADDER|
  {
    if n == 0 then [] else
    var size := RungSize(largest, LADDER[n-1]);
    Rungs(ctx, largest, market, n - 1) + (if BelowMin(ctx, size) || market(size).None? then [] else [size])
  }

  /** Approved before blocked, then the higher worst-case profit. */
  predicate Ahead(safe: bool, worst: real, safe': bool, worst': real) {
    (safe && !safe') || (safe == safe' && worst > worst')
  }

  /** The loan size `a` is stronger than `b`. */
  predicate Stronger(ctx: Context, cand: Candidate, market: real -> Option<Market>, a: real, b: real)
    requires ctx.Priced() && market(a).Some? && market(b).Some?
  {
    Ahead(Clear(ctx, cand, market(a).value, a), WorstOf(ProfitInputs(ctx, cand, market(a).value)),
          Clear(ctx, cand, market(b).value, b), WorstOf(ProfitInputs(ctx, cand, market(b).value)))
  }

  /** Rung `k` is the earliest one no other rung is stronger than. */
  ghost predicate StrongestRung(ctx: Context, cand: Candidate, market: real -> Option<Market>, rungs: seq<real>, k: nat)
    requires ctx.Priced() && forall j | 0 <= j < |rungs| :: market(rungs[j]).Some?
  {
    && k < |rungs|
    && (forall j | 0 <= j < |rungs| :: !Stronger(ctx, cand, market, rungs[j], rungs[k]))
    && (forall j | 0 <= j < k :: Stronger(ctx, cand, market, rungs[k], rungs[j]))
  }

  lemma StrongestExtends(ctx: Context, cand: Candidate, market: real -> Option<Market>, rungs: seq<real>, k: nat, size: real)
    requires ctx.Priced() && market(size).Some? && forall j | 0 <= j < |rungs| :: market(rungs[j]).Some?
    requires rungs != [] ==> StrongestRung(ctx, cand, market, rungs, k)
    ensures rungs != [] ==> k < |rungs| && (rungs + [size])[k] == rungs[k]
    ensures forall j | 0 <= j < |rungs + [size]| :: market((rungs + [size])[j]).Some?
    ensures rungs == [] || Stronger(ctx, cand, market, size, rungs[k])
            ==> StrongestRung(ctx, cand, market, rungs + [size], |rungs|)
    ensures rungs != [] && !Stronger(ctx, cand, market, size, rungs[k])
            ==> StrongestRung(ctx, cand, market, rungs + [size], k)
  {
    hide Clear, WorstOf, ProfitInputs;
  }

  /** The best rung found so far. */
  ghost predicate BestSoFar(best: Option<Opportunity>, ctx: Context, cand: Candidate, market: real -> Option<Market>,
                            rungs: seq<real>, k: nat)
    requires ctx.Priced() && forall j | 0 <= j < |rungs| :: market(rungs[j]).Some?
  {
    && (best.None? <==> rungs == [])
    && (best.Some? ==>
         && StrongestRung(ctx, cand, market, rungs, k)
         && Describes(best.value, ctx, cand, market(rungs[k]).value, rungs[k])
         && (best.value.Safe() <==> Clear(ctx, cand, market(rungs[k]).value, rungs[k])))
  }

  method TryRung(ctx: Context, cand: Candidate, size: real, market: real -> Option<Market>, best: Option<Opportunity>,
                 ghost rungs: seq<real>, ghost k: nat)
    returns (best': Option<Opportunity>, ghost rungs': seq<real>, ghost k': nat)
    requires ctx.Priced() && forall j | 0 <= j < |rungs| :: market(rungs[j]).Some?
    requires BestSoFar(best, ctx, cand, market, rungs, k)
    requires best.Some? ==> (best.value.reasons == [] <==> best.value.Safe())
    ensures rungs' == rungs + (if BelowMin(ctx, size) || market(size).None? then [] else [size])
    ensures forall j | 0 <= j < |rungs'| :: market(rungs'[j]).Some?
    ensures BestSoFar(best', ctx, cand, market, rungs', k')
    ensures best'.Some? ==> (best'.value.reasons == [] <==> best'.value.Safe())
  {
    hide Clear, BelowMin, WorstOf, ProfitInputs, StrongestRung;
    best', rungs', k' := best, rungs, k;
    if BelowMin(ctx, size) { return; }
    var rung := EvaluateSize(ctx, cand, size, [], market);
    if rung.None? { return; }
    StrongestExtends(ctx, cand, market, rungs, k, size);
    rungs' := rungs + [size];
    assert rungs'[|rungs|] == size;
    if best.None? || Ahead(rung.value.Safe(), rung.value.profit.worstCase, best.value.Safe(), best.value.profit.worstCase) {
      best', k' := rung, |rungs|;
    }
  }

  /**
   * The borrowed size is free: the strongest rung wins. The caps that shaped the ladder are appended to its reasons
   * and leave its decision alone, so a laddered opportunity can be SAFE with reasons listed.
   */
  method EvaluateLadder(ctx: Context, cand: Candidate, market: real -> Option<Market>)
    returns (o: Option<Opportunity>, ghost k: nat)
    requires ctx.Priced() && cand.flashLoan && Sizing.CanCap(SizingOf(ctx, cand))
    ensures var rungs := Rungs(ctx, Sizing.Picked(SizingOf(ctx, cand)), market, |LADDER|);
            && (forall j | 0 <= j < |rungs| :: market(rungs[j]).Some?)
            && BestSoFar(o, ctx, cand, market, rungs, k)
    ensures o.Some? && Sizing.Uncapped(SizingOf(ctx, cand)) ==> (o.value.reasons == [] <==> o.value.Safe())
    ensures o.Some? && !Sizing.Uncapped(SizingOf(ctx, cand)) ==> o.value.reasons != []
  {
    hide Clear, BelowMin, WorstOf, ProfitInputs, StrongestRung, Sizing.Picked, Sizing.Uncapped, RungSize, BestSoFar;
    var largest, notes := Sizing.PickSize(SizingOf(ctx, cand));
    o, k := None, 0;
    ghost var rungs: seq<real> := [];
    NothingYet(ctx, cand, market);
    var i := 0;
    while i < |LADDER|
      invariant 0 <= i <= |LADDER|
      invariant rungs == Rungs(ctx, largest, market, i)
      invariant forall j | 0 <= j < |rungs| :: market(rungs[j]).Some?
      invariant BestSoFar(o, ctx, cand, market, rungs, k)
      invariant o.Some? ==> (o.value.reasons == [] <==> o.value.Safe())
    {
      o, rungs, k := TryRung(ctx, cand, RungSize(largest, LADDER[i]), market, o, rungs, k);
      i := i + 1;
    }
    if o.Some? {
      AddedReasons(o.value, SizeNotes(notes), ctx, cand, market, rungs, k);
      o := Some(o.value.(reasons := o.value.reasons + SizeNotes(notes)));
    }
  }

  lemma NothingYet(ctx: Context, cand: Candidate, market: real -> Option<Market>)
    requires ctx.Priced()
    ensures BestSoFar(None, ctx, cand, market, [], 0)
  {
  }

  lemma AddedReasons(o: Opportunity, more: seq<BlockReason>, ctx: Context, cand: Candidate,
                     market: real -> Option<Market>, rungs: seq<real>, k: nat)
    requires ctx.Priced() && forall j | 0 <= j < |rungs| :: market(rungs[j]).Some?
    requires BestSoFar(Some(o), ctx, cand, market, rungs, k)
    ensures BestSoFar(Some(o.(reasons := o.reasons + more)), ctx, cand, market, rungs, k)
  {
    hide Clear, WorstOf, ProfitInputs, StrongestRung;
  }

  /**
   * Any evaluation, scanned, laddered or at a given size: nothing is returned without a price, and whatever is SAFE
   * passes every guard at the size it carries.
   */
  method Evaluate(ctx: Context, cand: Candidate, size: Option<real>, market: real -> Option<Market>)
    returns (o: Option<Opportunity>)
    requires ctx.Priced() ==> Sizing.CanCap(SizingOf(ctx, cand))
    ensures ctx.basePrice.None? || ctx.basePrice.value <= 0.0 ==> o.None?
    ensures size.Some? && ctx.basePrice.Some? && ctx.basePrice.value > 0.0 ==>
              (o.None? <==> market(PricedSize(ctx, size.value)).None?)
    ensures o.Some? && o.value.Safe() ==> SafeAt(o.value, ctx, cand, market)
    ensures ctx.Priced() && size.Some? ==>
              && (o.None? <==> market(PricedSize(ctx, size.value)).None?)
              && (o.Some? ==> (o.value.Safe() <==>
                   !BelowMin(ctx, size.value) && Clear(ctx, cand, market(size.value).value, size.value)))
    ensures ctx.Priced() && size.None? && !cand.flashLoan && o.Some? && o.value.Safe() ==> Sizing.Uncapped(SizingOf(ctx, cand))
  {
    hide Clear, BelowMin, Sizing.Picked, Sizing.Uncapped, Sizing.CanCap, StrongestRung;
    if ctx.basePrice.None? || ctx.basePrice.value <= 0.0 { return None; }
    if size.Some? {
      o := EvaluateSize(ctx, cand, size.value, [], market);
    } else if cand.flashLoan {
      ghost var k;
      o, k := EvaluateLadder(ctx, cand, market);
      if o.Some? {
        ghost var rungs := Rungs(ctx, Sizing.Picked(SizingOf(ctx, cand)), market, |LADDER|);
        StrongestIsRung(ctx, cand, market, rungs, k);
      }
    } else {
      o := EvaluateScanned(ctx, cand, market);
    }
  }

  predicate SafeAt(o: Opportunity, ctx: Context, cand: Candidate, market: real -> Option<Market>) {
    && ctx.Priced() && market(o.size).Some?
    && Describes(o, ctx, cand, market(o.size).value, o.size)
    && Clear(ctx, cand, market(o.size).value, o.size)
  }

  lemma StrongestIsRung(ctx: Context, cand: Candidate, market: real -> Option<Market>, rungs: seq<real>, k: nat)
    requires ctx.Priced() && forall j | 0 <= j < |rungs| :: market(rungs[j]).Some?
    requires StrongestRung(ctx, cand, market, rungs, k)
    ensures k < |rungs|
  {
  }

  /** A part of the largest loan, 2% below and rounded down to a millionth. */
  predicate IsRung(largest: real, part: real, size: real) { size == FloorToStep(largest * part * 0.98, 0.000001) }

  /**
   * The ladder has a rung at all, a half, a quarter, a tenth and a twenty-fifth of the largest size wherever that reaches
   * the minimum and can be quoted.
   */
  lemma RungsAre(ctx: Context, largest: real, market: real -> Option<Market>, size: real)
    requires ctx.Priced()
    ensures size in Rungs(ctx, largest, market, |LADDER|) <==>
              && size > 0.0 && ctx.settings.trading.minTradeSizeUsd <= size * ctx.basePrice.value && market(size).Some?
              && (|| IsRung(largest, 1.0, size) || IsRung(largest, 0.5, size) || IsRung(largest, 0.25, size)
                  || IsRung(largest, 0.1, size) || IsRung(largest, 0.04, size))
  {
    hide IsRung, RungSize, BelowMin;
    RungsUpTo(ctx, largest, market, |LADDER|, size);
    BelowMinIff(ctx, size);
    forall part: real
      ensures size == RungSize(largest, part) <==> IsRung(largest, part, size)
    {
      IsRungIff(largest, part, size);
    }
    assert LADDER[0] == 1.0 && LADDER[1] == 0.5 && LADDER[2] == 0.25 && LADDER[3] == 0.1 && LADDER[4] == 0.04 && |LADDER| == 5;
  }

  lemma IsRungIff(largest: real, part: real, size: real)
    ensures IsRung(largest, part, size) <==> size == RungSize(largest, part)
  {
    hide FloorToStep;
  }

  lemma BelowMinIff(ctx: Context, size: real)
    requires ctx.Priced()
    ensures !BelowMin(ctx, size) <==> size > 0.0 && ctx.settings.trading.minTradeSizeUsd <= size * ctx.basePrice.value
  {
  }

  lemma {:induction false} RungsUpTo(ctx: Context, largest: real, market: real -> Option<Market>, n: nat, size: real)
    requires ctx.Priced() && n <= |LADDER|
    ensures size in Rungs(ctx, largest, market, n) <==>
              !BelowMin(ctx, size) && market(size).Some? && exists k | 0 <= k < n :: size == RungSize(largest, LADDER[k])
  {
    hide RungSize, BelowMin;
    if n > 0 { RungsUpTo(ctx, largest, market, n - 1, size); }
  }

  /** The winning rung: SAFE where any rung is, the best worst case among its like, and the largest size of equal ones. */
  lemma LadderWinner(ctx: Context, cand: Candidate, market: real -> Option<Market>, rungs: seq<real>, k: nat, j: nat)
    requires ctx.Priced() && forall i | 0 <= i < |rungs| :: market(rungs[i]).Some?
    requires StrongestRung(ctx, cand, market, rungs, k) && j < |rungs|
    ensures var a, b := market(rungs[k]).value, market(rungs[j]).value;
            var safe, other := Clear(ctx, cand, a, rungs[k]), Clear(ctx, cand, b, rungs[j]);
            && (other ==> safe)
            && (safe == other ==> WorstOf(ProfitInputs(ctx, cand, b)) <= WorstOf(ProfitInputs(ctx, cand, a)))
            && (safe == other && WorstOf(ProfitInputs(ctx, cand, b)) == WorstOf(ProfitInputs(ctx, cand, a)) ==> k <= j)
  {
    hide Clear, WorstOf, ProfitInputs;
    assert !Stronger(ctx, cand, market, rungs[j], rungs[k]);
    if j < k { assert Stronger(ctx, cand, market, rungs[k], rungs[j]); }
  }

  /** Below the minimum a trade is priced at the minimum rounded down to a millionth, or at its own size if that is more. */
  lemma PricedSizeIs(ctx: Context, size: real) returns (k: nat)
    requires ctx.Priced() && ctx.settings.trading.minTradeSizeUsd >= 0.0
    ensures var least, price, priced := ctx.settings.trading.minTradeSizeUsd, ctx.basePrice.value, PricedSize(ctx, size);
            if size > 0.0 && least <= size * price then priced == size
            else
              && priced == Max(size, k as real * 0.000001)
              && k as real * 0.000001 * price <= least < (k + 1) as real * 0.000001 * price
  {
    k := LeastSteps(ctx.settings.trading.minTradeSizeUsd, ctx.basePrice.value);
    BelowMinIff(ctx, size);
    hide FloorToStep, BelowMin;
  }

  /** The steps of a millionth that a minimum value comes to at a price. */
  lemma LeastSteps(least: real, price: real) returns (k: nat)
    requires least >= 0.0 && price > 0.0
    ensures FloorToStep(least / price, 0.000001) == k as real * 0.000001
    ensures k as real * 0.000001 * price <= least < (k + 1) as real * 0.000001 * price
  {
    var ratio := least / price;
    DivMono(0.0, least, price);
    k := FloorToStepGrid(ratio, 0.000001);
    Between(k as real * 0.000001, ratio, (k + 1) as real * 0.000001, price, least);
    hide FloorToStep;
  }

  lemma Between(low: real, ratio: real, high: real, price: real, least: real)
    requires price > 0.0 && low <= ratio < high && ratio == least / price
    ensures low * price <= least < high * price
  {
    assert ratio * price == least;
    ScaledCompare(low, ratio, price);
    ScaledCompare(high, ratio, price);
  }

  // --- what SAFE means -----------------------------------------------------------------------------

  /** While the emergency stop or any global breaker is on, no evaluation is SAFE. */
  lemma HaltedIsNeverClear(stop: EmergencyStops.EmergencyStop, ctx: Context, cand: Candidate, m: Market, size: real)
    requires ctx.Priced() && stop.Halted()
    requires ctx.stopped == stop.stopped && ctx.breakers == stop.breakers.active
    ensures !Clear(ctx, cand, m, size)
  {
    if !stop.stopped {
      var b :| b in stop.breakers.active && b.scope == "global";
      assert Breakers.Concerns(b, Some(cand.buy.name), None, Some(StrategyName(cand.strategy)), Some(cand.pair));
    }
  }

  /** The chain whose breakers are looked up: that of the purchase, else that of the sale. */
  function LookedUp(m: Market): Option<string> { if m.buy.chain.Some? then m.buy.chain else m.sell.chain }

  /** The scopes of an evaluation: everything, either venue, the strategy, the pair, and one chain. */
  predicate InScope(scope: string, cand: Candidate, m: Market) {
    || scope == "global"
    || scope == "venue:" + cand.buy.name || scope == "venue:" + cand.sell.name
    || scope == "strategy:" + StrategyName(cand.strategy) || scope == "symbol:" + cand.pair
    || (LookedUp(m).Some? && scope == "chain:" + LookedUp(m).value)
  }

  /** What is SAFE is so without any breaker, and no breaker has one of its scopes; and those alone could object. */
  lemma ClearOfBreakersIff(ctx: Context, cand: Candidate, m: Market, size: real)
    requires ctx.Priced()
    ensures Clear(ctx, cand, m, size) <==>
            Clear(ctx.(breakers := []), cand, m, size) && forall b | b in ctx.breakers :: !InScope(b.scope, cand, m)
  {
    hide Guard.Acceptable, Risk.Passes, SlippageGuards.Passes, Notional, CapitalOf;
    var ctx' := ctx.(breakers := []);
    BlockingIff(ctx, cand, m);
    assert BlockingBreakers(ctx', cand, m) == [];
    assert ProfitInputs(ctx', cand, m) == ProfitInputs(ctx, cand, m);
    assert Notional(ctx', size) == Notional(ctx, size) by { SamePrice(ctx, ctx', size); }
    hide BlockingBreakers, ProfitInputs, InScope;
  }

  lemma BlockingIff(ctx: Context, cand: Candidate, m: Market)
    ensures BlockingBreakers(ctx, cand, m) == [] <==> forall b | b in ctx.breakers :: !InScope(b.scope, cand, m)
  {
    hide Breakers.Blocks;
    var first := Breakers.Blocks(ctx.breakers, Some(cand.buy.name), None, Some(StrategyName(cand.strategy)), Some(cand.pair));
    var second := Breakers.Blocks(ctx.breakers, Some(cand.sell.name), LookedUp(m), None, None);
    assert BlockingBreakers(ctx, cand, m) == first + second;
    assert first + second == [] <==> first == [] && second == [];
  }

  lemma SamePrice(c: Context, d: Context, size: real)
    requires c.Priced() && c.basePrice == d.basePrice
    ensures Notional(c, size) == Notional(d, size)
  {
  }

  /**
   * A breaker on the selling chain stops a trade that is SAFE otherwise if and only if that chain is looked up: not
   * where the purchase is on another chain.
   */
  lemma SellingChainIgnoredIff(ctx: Context, b: Breakers.Breaker, cand: Candidate, m: Market, size: real)
    requires ctx.Priced() && m.sell.chain.Some? && b.scope == "chain:" + m.sell.chain.value && Clear(ctx, cand, m, size)
    ensures Clear(ctx.(breakers := ctx.breakers + [b]), cand, m, size) <==> m.buy.chain.Some? && m.buy.chain != m.sell.chain
  {
    hide Clear;
    var with_ := ctx.(breakers := ctx.breakers + [b]);
    ClearOfBreakersIff(ctx, cand, m, size);
    ClearOfBreakersIff(with_, cand, m, size);
    assert with_.(breakers := []) == ctx.(breakers := []);
    ChainScopeIff(b.scope, m.sell.chain.value, cand, m);
    assert forall x :: x in with_.breakers <==> x in ctx.breakers || x == b;
  }

  lemma ChainScopeIff(scope: string, chain: string, cand: Candidate, m: Market)
    requires scope == "chain:" + chain
    ensures InScope(scope, cand, m) <==> LookedUp(m) == Some(chain)
  {
    assert scope[0] == 'c' && scope[6..] == chain;
    assert ("venue:" + cand.buy.name)[0] == 'v' && ("venue:" + cand.sell.name)[0] == 'v';
    assert ("strategy:" + StrategyName(cand.strategy))[0] == 's' && ("symbol:" + cand.pair)[0] == 's';
    if LookedUp(m).Some? { assert ("chain:" + LookedUp(m).value)[6..] == LookedUp(m).value; }
  }

  /** During the small live test SAFE means at most $25, the chosen strategy and route, and no borrowed money. */
  lemma SmallTestBounds(ctx: Context, cand: Candidate, m: Market, size: real)
    requires ctx.Priced() && Risk.InSmallTest(ctx.settings)
    ensures Clear(ctx, cand, m, size) ==>
              && Notional(ctx, size) <= 25.0
              && cand.strategy == ctx.settings.live.smallTestStrategy && !cand.flashLoan && cand.strategy != FlashLoan
              && ctx.settings.live.smallTestRoute == Some(m.buy.venue + "->" + m.sell.venue)
  {
    hide Guard.Acceptable, Risk.WithinLimits, Risk.ExposureOk, Risk.BalancesOk, Risk.HealthOk, Risk.Score, LegPasses, BlockingBreakers;
    if Clear(ctx, cand, m, size) { assert Risk.SmallTestAllows(RiskInputs(ctx, cand, m, size)); }
  }

  /** SAFE means both profit thresholds are met and the trade stays inside its size limits. */
  lemma ClearIsProfitable(ctx: Context, cand: Candidate, m: Market, size: real)
    requires ctx.Priced()
    ensures Clear(ctx, cand, m, size) ==>
              var inp := ProfitInputs(ctx, cand, m);
              && Guard.MinProfit(inp) <= Guard.ExpectedNet(inp) && Guard.MinWorstCase(inp) <= Guard.WorstCase(inp)
              && Guard.Size(inp) > 0.0
              && ctx.settings.trading.minTradeSizeUsd <= Notional(ctx, size)
              && (!cand.flashLoan ==> Notional(ctx, size) <= ctx.settings.trading.maxTradeSizeUsd)
  {
    hide Guard.MinProfit, Guard.MinWorstCase, Guard.ExpectedNet, Guard.WorstCase, Guard.CapitalRequired, Guard.GasAndPriority,
      Risk.ExposureOk, Risk.BalancesOk, Risk.HealthOk, Risk.Score, LegPasses, BlockingBreakers, Guard.AnyUnknown;
    if Clear(ctx, cand, m, size) {
      var inp := ProfitInputs(ctx, cand, m);
      assert Risk.WithinLimits(RiskInputs(ctx, cand, m, size));
      assert Guard.ClearsThresholds(inp, Guard.ExpectedNet(inp), Guard.WorstCase(inp), Guard.CapitalRequired(inp), Guard.GasAndPriority(inp));
      assert Guard.QuotesUsable(inp);
    }
  }

  /**
   * Sizing agrees with the guards that check it later. A prefunded trade between two order-book venues, quoted from the
   * cached books at the picked size, fills on both legs, passes the slippage guard on both, stays within the maximum
   * trade size, and finds its base and its quote, as long as average price and fee stay within the 2% margin.
   */
  lemma SizedTradePassesItsChecks(ctx: Context, cand: Candidate, m: Market, buyFee: real, sellFee: Option<real>)
    requires ctx.Priced() && !cand.flashLoan && Sizing.CanCap(SizingOf(ctx, cand)) && Sizing.BooksValid(SizingOf(ctx, cand))
    requires Sizing.HasBook(cand.buy) && Sizing.HasBook(cand.sell) && cand.buy.kind.Cex? && cand.sell.kind.Cex?
    requires SlippageGuards.NonIncreasing(SlippageGuards.SortedTiers(ctx.settings.slippage.sizeTiers))
    requires var size := Sizing.Picked(SizingOf(ctx, cand));
             && size > 0.0
             && m.buy == Sizing.BookQuote(cand.buy, Walking.Buy, size, Some(buyFee))
             && m.sell == Sizing.BookQuote(cand.sell, Walking.Sell, size, sellFee)
    requires Balance(ctx, cand.buy.name, cand.quote) == Some(ctx.quoteAvailable)
    requires Balance(ctx, cand.sell.name, cand.base) == Some(ctx.baseAvailable)
    requires buyFee >= 0.0 && m.buy.avgPrice >= 0.0 && m.buy.avgPrice * (1.0 + buyFee / 100.0) * 0.98 <= ctx.basePrice.value
    ensures var size := Sizing.Picked(SizingOf(ctx, cand));
            && m.buy.fullyFillable && m.sell.fullyFillable
            && LegPasses(ctx, cand, m.buy, size) && LegPasses(ctx, cand, m.sell, size)
            && Notional(ctx, size) <= ctx.settings.trading.maxTradeSizeUsd
            && Risk.BalancesOk(RiskInputs(ctx, cand, m, size))
  {
    hide Sizing.Picked, Sizing.BooksValid, SlippageGuards.NonIncreasing, SlippageGuards.Passes, Slippage.WalkOf,
      Sizing.Affordable, CapitalOf, ProfitInputs, BlockingBreakers, Sizing.QuoteNeeded, Risk.NeedQuote;
    var inp, size := SizingOf(ctx, cand), Sizing.Picked(SizingOf(ctx, cand));
    assert Sizing.Leg(inp, Walking.Buy) == cand.buy && Sizing.Leg(inp, Walking.Sell) == cand.sell;
    var notional := Sizing.Picked(inp) * inp.price;
    assert Sizing.Route(inp) == RouteName(cand) && notional == Notional(ctx, size);
    Sizing.SizePassesSlippageGuard(inp, Walking.Buy, Some(buyFee));
    Sizing.SizePassesSlippageGuard(inp, Walking.Sell, sellFee);
    Sizing.SizeFitsCapitalAndBase(inp);
    Sizing.QuoteBalanceSuffices(inp, m.buy.avgPrice, buyFee);
    BookQuoteAmount(RiskInputs(ctx, cand, m, size), cand.buy, size, buyFee);
  }

  function Balance(ctx: Context, venue: string, asset: string): Option<real> {
    var b := ctx.portfolio.availableBalances;
    if (venue, asset) in b then Some(b[(venue, asset)]) else None
  }

  /** The quote the risk engine asks for a book purchase that fills: size times average price, fee included. */
  lemma BookQuoteAmount(inp: Risk.RiskInputs, v: Sizing.SizingVenue, size: real, feePct: real)
    requires v.book.Some? && size > 0.0 && Slippage.WalkOf(Walking.Buy, v.book.value, size).fullyFilled
    requires Walking.PositiveAmounts(v.book.value)
    requires inp.buy == Sizing.BookQuote(v, Walking.Buy, size, Some(feePct))
    ensures Risk.NeedQuote(inp) == Sizing.QuoteNeeded(size, inp.buy.avgPrice, feePct)
  {
    Walking.TakenFills(v.book.value, size);
  }

  // --- a breaker that stops nothing --------------------------------------------------------------

  lemma NoStrategyIsCarry(s: Strategy)
    ensures StrategyName(s) != "carry"
  {
    var n := StrategyName(s);
    assert n[0] != 'c' || n[1] != 'a';
  }

  /** A breaker scoped "strategy:carry" concerns no evaluation: no strategy bears that name. */
  lemma CarryScopeConcernsNothing(b: Breakers.Breaker, venue: Option<string>, chain: Option<string>,
                                  strategy: Option<Strategy>, symbol: Option<string>)
    requires b.scope == "strategy:carry"
    ensures !Breakers.Concerns(b, venue, chain, if strategy.Some? then Some(StrategyName(strategy.value)) else None, symbol)
  {
    assert b.scope[0] == 's' && b.scope[1] == 't';
    if venue.Some? { assert ("venue:" + venue.value)[0] == 'v'; }
    if chain.Some? { assert ("chain:" + chain.value)[0] == 'c'; }
    if symbol.Some? { assert ("symbol:" + symbol.value)[1] == 'y'; }
    if strategy.Some? {
      var name := StrategyName(strategy.value);
      NoStrategyIsCarry(strategy.value);
      assert ("strategy:" + name)[9..] == name;
      assert "strategy:carry"[9..] == "carry";
    }
  }

  lemma {:induction false} BlocksAppend(bs: seq<Breakers.Breaker>, b: Breakers.Breaker, venue: Option<string>,
                                        chain: Option<string>, strategy: Option<string>, symbol: Option<string>)
    requires !Breakers.Concerns(b, venue, chain, strategy, symbol)
    ensures Breakers.Blocks(bs + [b], venue, chain, strategy, symbol) == Breakers.Blocks(bs, venue, chain, strategy, symbol)
  {
    hide Breakers.Concerns;
    if bs == [] {
      assert bs + [b] == [b] && [b][1..] == [];
    } else {
      assert (bs + [b])[1..] == bs[1..] + [b];
      BlocksAppend(bs[1..], b, venue, chain, strategy, symbol);
    }
  }

  /** So the breaker tripped by a funding anomaly or a failed close changes no decision, carry strategies included. */
  lemma CarryBreakerChangesNothing(ctx: Context, b: Breakers.Breaker, cand: Candidate, m: Market, size: real)
    requires ctx.Priced() && b.scope == "strategy:carry"
    ensures Clear(ctx.(breakers := ctx.breakers + [b]), cand, m, size) <==> Clear(ctx, cand, m, size)
  {
    hide Guard.Acceptable, Risk.Passes, SlippageGuards.Passes, Breakers.Concerns, Breakers.Blocks;
    var chain := if m.buy.chain.Some? then m.buy.chain else m.sell.chain;
    CarryScopeConcernsNothing(b, Some(cand.buy.name), None, Some(cand.strategy), Some(cand.pair));
    CarryScopeConcernsNothing(b, Some(cand.sell.name), chain, None, None);
    BlocksAppend(ctx.breakers, b, Some(cand.buy.name), None, Some(StrategyName(cand.strategy)), Some(cand.pair));
    BlocksAppend(ctx.breakers, b, Some(cand.sell.name), chain, None, None);
    var ctx' := ctx.(breakers := ctx.breakers + [b]);
    assert ProfitInputs(ctx', cand, m) == ProfitInputs(ctx, cand, m);
    assert RiskInputs(ctx', cand, m, size) == RiskInputs(ctx, cand, m, size);
    assert LegPasses(ctx', cand, m.buy, size) == LegPasses(ctx, cand, m.buy, size);
    assert LegPasses(ctx', cand, m.sell, size) == LegPasses(ctx, cand, m.sell, size);
  }

  // --- competing strategies on one route ----------------------------------------------------------

  predicate Beats(a: Opportunity, b: Opportunity) {
    || (a.Safe() && !b.Safe())
    || (a.Safe() == b.Safe() && a.profit.worstCase > b.profit.worstCase)
    || (a.Safe() == b.Safe() && a.profit.worstCase == b.profit.worstCase && a.profit.expectedNet > b.profit.expectedNet)
  }

  /** The first unbeaten opportunity of a route among the first `n`. */
  function BestOn(opps: seq<Opportunity>, key: string, n: nat): (best: Option<nat>)
    requires n <= |opps|
    ensures best.None? <==> forall j | 0 <= j < n :: opps[j].RouteKey() != key
    ensures best.Some? ==> best.value < n && opps[best.value].RouteKey() == key
    ensures best.Some? ==> forall j | 0 <= j < n && opps[j].RouteKey() == key :: !Beats(opps[j], opps[best.value])
    ensures best.Some? ==> forall j | 0 <= j < best.value && opps[j].RouteKey() == key :: Beats(opps[best.value], opps[j])
  {
    if n == 0 then None else
    var prev := BestOn(opps, key, n - 1);
    if opps[n-1].RouteKey() != key then prev
    else if prev.None? || Beats(opps[n-1], opps[prev.value]) then Some(n - 1)
    else prev
  }

  function Winner(opps: seq<Opportunity>, i: nat): nat
    requires i < |opps|
    ensures Winner(opps, i) < |opps|
  {
    BestOn(opps, opps[i].RouteKey(), |opps|).value
  }

  /** What annotation leaves of one opportunity: all but the winner of a route are blocked. */
  function Outcome(opps: seq<Opportunity>, i: nat): Opportunity
    requires i < |opps|
  {
    var w := Winner(opps, i);
    if w == i then opps[i]
    else opps[i].(decision := Guard.Decision.Blocked, reasons := opps[i].reasons + [RoutePreferred(opps[w].cand.strategy)])
  }

  method AnnotateAlternatives(opps: array<Opportunity>)
    modifies opps
    ensures forall i | 0 <= i < opps.Length :: opps[i] == Outcome(old(opps[..]), i)
  {
    hide BestOn, Beats, Opportunity.RouteKey;
    var before := opps[..];
    var i := 0;
    while i < opps.Length
      invariant 0 <= i <= opps.Length
      invariant forall k | 0 <= k < i :: opps[k] == Outcome(before, k)
      invariant forall k | i <= k < opps.Length :: opps[k] == before[k]
    {
      var best := BestOn(before, before[i].RouteKey(), |before|);
      if best.value != i {
        opps[i] := opps[i].(decision := Guard.Decision.Blocked,
                            reasons := opps[i].reasons + [RoutePreferred(before[best.value].cand.strategy)]);
      }
      i := i + 1;
    }
  }

  /** Two opportunities compete exactly when pair and both quoted venues agree, unless names contain the separators. */
  lemma SameRouteIff(a: Opportunity, b: Opportunity)
    requires '|' !in a.cand.pair && '|' !in b.cand.pair && '>' !in a.buy.venue && '>' !in b.buy.venue
    ensures a.RouteKey() == b.RouteKey() <==> a.cand.pair == b.cand.pair && a.buy.venue == b.buy.venue && a.sell.venue == b.sell.venue
  {
    if a.RouteKey() == b.RouteKey() {
      var p, q := a.cand.pair, b.cand.pair;
      SplitAt(p, a.buy.venue + "->" + a.sell.venue, q, b.buy.venue + "->" + b.sell.venue, '|', a.RouteKey());
      var v, w := a.buy.venue + "-", b.buy.venue + "-";
      assert a.buy.venue + "->" + a.sell.venue == v + ['>'] + a.sell.venue;
      assert b.buy.venue + "->" + b.sell.venue == w + ['>'] + b.sell.venue;
      SplitAt(v, a.sell.venue, w, b.sell.venue, '>', v + ['>'] + a.sell.venue);
      assert v[..|v|-1] == a.buy.venue && w[..|w|-1] == b.buy.venue;
    }
  }

  /** The first separator splits a text in one way. */
  lemma SplitAt(p: string, x: string, q: string, y: string, c: char, text: string)
    requires c !in p && c !in q && text == p + [c] + x == q + [c] + y
    ensures p == q && x == y
  {
    assert text[|p|] == c && text[|q|] == c;
    assert forall k | 0 <= k < |p| :: text[k] == p[k] != c;
    assert forall k | 0 <= k < |q| :: text[k] == q[k] != c;
    assert |p| == |q|;
    assert text[..|p|] == p && text[..|q|] == q && text[|p|+1..] == x && text[|q|+1..] == y;
  }

  /** The winner of a route: SAFE first, then the better worst case, then the better expected profit, then the earlier one. */
  lemma RouteWinner(opps: seq<Opportunity>, i: nat)
    requires i < |opps|
    ensures var w := opps[Winner(opps, i)];
            && w.RouteKey() == opps[i].RouteKey() && (opps[i].Safe() ==> w.Safe())
            && (opps[i].Safe() == w.Safe() ==> opps[i].profit.worstCase <= w.profit.worstCase)
            && (opps[i].Safe() == w.Safe() && opps[i].profit.worstCase == w.profit.worstCase ==>
                  opps[i].profit.expectedNet <= w.profit.expectedNet
                  && (opps[i].profit.expectedNet == w.profit.expectedNet ==> Winner(opps, i) <= i))
  {
    hide Opportunity.RouteKey, BestOn;
    var best := BestOn(opps, opps[i].RouteKey(), |opps|);
    assert !Beats(opps[i], opps[best.value]);
    if i < best.value { assert Beats(opps[best.value], opps[i]); }
  }

  /** At most one opportunity per pair and route stays SAFE, and a route with a SAFE one keeps its strongest. */
  lemma OneSafePerRoute(opps: seq<Opportunity>, i: nat, j: nat)
    requires i < |opps| && j < |opps| && opps[i].RouteKey() == opps[j].RouteKey()
    ensures Outcome(opps, i).Safe() && Outcome(opps, j).Safe() ==> i == j
    ensures opps[i].Safe() ==> Outcome(opps, Winner(opps, i)) == opps[Winner(opps, i)] && opps[Winner(opps, i)].Safe()
    ensures Outcome(opps, i).Safe() && opps[j].Safe() ==> opps[j].profit.worstCase <= opps[i].profit.worstCase
  {
    hide Opportunity.RouteKey;
    var key := opps[i].RouteKey();
    var best := BestOn(opps, key, |opps|);
    assert opps[best.value].RouteKey() == key;
    assert Winner(opps, Winner(opps, i)) == Winner(opps, i);
  }
}
