/** RISK ENGINE: hard limits, balances, exposures and the small live test. */
module RiskEngines {
  import opened Wrappers
  import opened Money
  import opened Settings

  /** Hard-coded ceiling of the small live test, deliberately not a setting. */
  const SMALL_LIVE_TEST_MAX_NOTIONAL_USD := 25.0

  datatype Portfolio = Portfolio(
    totalCapitalUsd: real,
    exposureByVenueUsd: map<string, real>,
    exposureByChainUsd: map<string, real>,
    exposureByAssetUsd: map<string, real>,
    openTrades: int,
    dailyRealizedPnlUsd: real,
    failedTradesLastHour: int,
    venueHealth: map<string, VenueHealth>,
    availableBalances: map<(string, string), real>,
    unhedgedSeconds: int,
    activeBreakers: nat,
    gasReserveOk: map<string, bool>)

  datatype RiskInputs = RiskInputs(
    settings: AppSettings,
    strategy: Strategy,
    buy: ExecutionQuote,
    sell: ExecutionQuote,
    base: string,
    quote: string,
    notionalUsd: real,
    capitalRequiredUsd: real,
    portfolio: Portfolio,
    gasUsd: real,
    flashLoanUsd: Option<real>)

  datatype RiskReason =
    | NoLoansInSmallTest | WrongStrategy | RouteNotSelected | WrongRoute | OverSmallTestCap
    | OverMaxTradeSize | UnderMinTradeSize | BreakersActive | TooManyTrades | DailyLossLimit | TooManyFailures
    | UnhedgedExposure | GasOverRiskMax | AssetNotAllowed | LoanOverRiskMax | LoanGasOverMax
    | CapitalUsage | VenueExposure | ChainExposure | AssetExposure | NoCapital
    | QuoteBalanceUnknown | QuoteBalanceShort | CollateralUnknown | CollateralShort | BaseBalanceUnknown | BaseBalanceShort
    | GasReserveLow | VenueUnhealthy | SlippageOverMax | RiskScoreTooHigh

  datatype RiskAssessment = RiskAssessment(score: int, passed: bool, reasons: seq<RiskReason>)

  function RouteOf(inp: RiskInputs): string { inp.buy.venue + "->" + inp.sell.venue }

  // --- the rules -------------------------------------------------------------------------

  predicate InSmallTest(s: AppSettings) { s.general.mode == Live && s.live.stage != Full }

  /** What the small live test lets through: one strategy, one selected route, at most $25, no loan. */
  predicate SmallTestAllows(inp: RiskInputs) {
    && inp.flashLoanUsd.None? && inp.strategy != FlashLoan
    && inp.strategy == inp.settings.live.smallTestStrategy
    && inp.settings.live.smallTestRoute == Some(RouteOf(inp))
    && inp.notionalUsd <= SMALL_LIVE_TEST_MAX_NOTIONAL_USD
  }

  /** Trade size, breakers, and how the day has gone so far. */
  predicate WithinTradeLimits(inp: RiskInputs) {
    var r, t, p := inp.settings.risk, inp.settings.trading, inp.portfolio;
    && (inp.flashLoanUsd.None? ==> inp.notionalUsd <= t.maxTradeSizeUsd)
    && t.minTradeSizeUsd <= inp.notionalUsd
    && p.activeBreakers == 0
    && p.openTrades < r.maxConcurrentTrades
    && -r.maxDailyLossUsd < p.dailyRealizedPnlUsd
    && p.failedTradesLastHour < r.maxFailedTradesPerHour
  }

  /** Unhedged time, gas, listed assets and loans. */
  predicate WithinAssetLimits(inp: RiskInputs) {
    var r := inp.settings.risk;
    && inp.portfolio.unhedgedSeconds <= r.maxUnhedgedSeconds
    && inp.gasUsd <= r.maxGasUsd
    && inp.base in r.assetAllowlist && inp.quote in r.assetAllowlist
    && (inp.flashLoanUsd.Some? ==> inp.flashLoanUsd.value <= r.maxFlashLoanUsd && inp.gasUsd <= r.maxFlashLoanGasUsd)
  }

  predicate WithinLimits(inp: RiskInputs) { WithinTradeLimits(inp) && WithinAssetLimits(inp) }

  function Held(m: map<string, real>, key: string): real { if key in m then m[key] else 0.0 }

  /** Exposure of one leg's venue and chain after the trade. */
  predicate LegExposureOk(inp: RiskInputs, leg: ExecutionQuote) {
    var r, p, total := inp.settings.risk, inp.portfolio, inp.portfolio.totalCapitalUsd;
    && Pct(Held(p.exposureByVenueUsd, leg.venue) + inp.notionalUsd, total) <= r.maxExchangeExposurePct
    && (leg.chain.Some? ==> Pct(Held(p.exposureByChainUsd, leg.chain.value) + inp.notionalUsd, total) <= r.maxChainExposurePct)
  }

  predicate ExposureOk(inp: RiskInputs) {
    var r, p, total := inp.settings.risk, inp.portfolio, inp.portfolio.totalCapitalUsd;
    if total > 0.0 then
      && Pct(inp.capitalRequiredUsd, total) <= r.maxCapitalUsagePct
      && LegExposureOk(inp, inp.buy) && LegExposureOk(inp, inp.sell)
      && Pct(Held(p.exposureByAssetUsd, inp.base) + (if inp.strategy.IsCarry() then inp.notionalUsd else 0.0), total)
           <= r.maxAssetExposurePct
    else inp.capitalRequiredUsd <= 0.0 || inp.flashLoanUsd.Some?
  }

  function NeedQuote(inp: RiskInputs): real {
    inp.buy.quoteAmount * (1.0 + (if inp.buy.feePct.Some? then inp.buy.feePct.value else 0.0) / 100.0)
  }

  function Margin(inp: RiskInputs): real {
    if inp.settings.risk.leverageAllowed then inp.sell.quoteAmount / 2.0 else inp.sell.quoteAmount
  }

  predicate Covers(p: Portfolio, venue: string, asset: string, need: real) {
    (venue, asset) in p.availableBalances && need <= p.availableBalances[(venue, asset)]
  }

  /** Prefunded trades: the quote to pay, and the base to sell or the collateral to post, are there. */
  predicate BalancesOk(inp: RiskInputs) {
    inp.flashLoanUsd.None? ==>
      && Covers(inp.portfolio, inp.buy.venue, inp.quote, NeedQuote(inp))
      && (if inp.sell.kind.Perp? then Covers(inp.portfolio, inp.sell.venue, inp.quote, Margin(inp))
          else Covers(inp.portfolio, inp.sell.venue, inp.base, inp.sell.baseAmount))
  }

  predicate GasReserveOk(p: Portfolio, leg: ExecutionQuote) {
    leg.kind.Dex? && leg.chain.Some? && leg.chain.value in p.gasReserveOk ==> p.gasReserveOk[leg.chain.value]
  }

  function HealthOf(p: Portfolio, venue: string): VenueHealth {
    if venue in p.venueHealth then p.venueHealth[venue] else Unknown
  }

  predicate HealthOk(inp: RiskInputs, venue: string) {
    var h := HealthOf(inp.portfolio, venue);
    h == Healthy || (h == Degraded && inp.settings.risk.allowDegradedVenues)
  }

  function CombinedSlippage(inp: RiskInputs): real {
    inp.buy.slippagePct + inp.sell.slippagePct + inp.buy.priceImpactPct + inp.sell.priceImpactPct
  }

  /** All limits together; the soft score comes on top. */
  predicate AllLimits(inp: RiskInputs) {
    && (InSmallTest(inp.settings) ==> SmallTestAllows(inp))
    && WithinLimits(inp) && ExposureOk(inp) && BalancesOk(inp)
    && GasReserveOk(inp.portfolio, inp.buy) && GasReserveOk(inp.portfolio, inp.sell)
    && HealthOk(inp, inp.buy.venue) && HealthOk(inp, inp.sell.venue)
    && CombinedSlippage(inp) <= inp.settings.risk.maxSlippagePct
  }

  // --- the soft score ------------------------------------------------------------------------

  /** Up to `cap` points for the share of a limit that is used. */
  function Points(used: real, limit: real, cap: real): int
    requires limit > 0.0
  {
    Truncate(Min(cap, Scaled(used / limit, cap)))
  }

  function UsagePoints(usage: real, limit: real): int { if limit > 0.0 then Points(usage, limit, 30.0) else 0 }

  function UsageScore(inp: RiskInputs): int {
    var total := inp.portfolio.totalCapitalUsd;
    if total > 0.0 then UsagePoints(Pct(inp.capitalRequiredUsd, total), inp.settings.risk.maxCapitalUsagePct) else 0
  }

  /** 15 points for a degraded venue that is allowed. */
  function HealthPoints(inp: RiskInputs, venue: string): int {
    if HealthOf(inp.portfolio, venue) == Degraded && inp.settings.risk.allowDegradedVenues then 15 else 0
  }

  /** The venues of a trade, each once. */
  function Venues(inp: RiskInputs): seq<string> {
    if inp.buy.venue == inp.sell.venue then [inp.buy.venue] else [inp.buy.venue, inp.sell.venue]
  }

  function HealthScore(inp: RiskInputs): int {
    if inp.buy.venue == inp.sell.venue then HealthPoints(inp, inp.buy.venue)
    else HealthPoints(inp, inp.buy.venue) + HealthPoints(inp, inp.sell.venue)
  }

  function AtLeastOne(n: int): int { if n >= 1 then n else 1 }

  /** Points for slippage, quote age, strategy and depth. */
  function SoftScore(inp: RiskInputs): int {
    var age := if inp.buy.ageMs >= inp.sell.ageMs then inp.buy.ageMs else inp.sell.ageMs;
    Points(CombinedSlippage(inp), Max(inp.settings.risk.maxSlippagePct, 0.01), 25.0)
    + Points(age as real, AtLeastOne(inp.settings.risk.maxQuoteAgeMs) as real, 15.0)
    + (match inp.strategy
       case DexDex => 15 case FlashLoan => 15
       case CexDex => 8 case SpotPerp => 8 case Funding => 8 case Basis => 8
       case CexCex => 0)
    + (if !inp.buy.fullyFillable || !inp.sell.fullyFillable then 15 else 0)
  }

  function Bounded(score: int): int { if score < 0 then 0 else if score > 100 then 100 else score }

  function Score(inp: RiskInputs): int { Bounded(UsageScore(inp) + HealthScore(inp) + SoftScore(inp)) }

  /** The verdict as a condition: every limit holds and the score is acceptable. */
  predicate Passes(inp: RiskInputs) { AllLimits(inp) && Score(inp) <= inp.settings.trading.maxRiskScore }

  // --- the engine --------------------------------------------------------------------------

  method CheckSmallTest(inp: RiskInputs) returns (reasons: seq<RiskReason>)
    ensures reasons == [] <==> (InSmallTest(inp.settings) ==> SmallTestAllows(inp))
  {
    reasons := [];
    var live := inp.settings.live;
    if inp.settings.general.mode == Live && live.stage != Full {
      if inp.flashLoanUsd.Some? || inp.strategy == FlashLoan { reasons := reasons + [NoLoansInSmallTest]; }
      if inp.strategy != live.smallTestStrategy { reasons := reasons + [WrongStrategy]; }
      if live.smallTestRoute.None? { reasons := reasons + [RouteNotSelected]; }
      else if RouteOf(inp) != live.smallTestRoute.value { reasons := reasons + [WrongRoute]; }
      if inp.notionalUsd > SMALL_LIVE_TEST_MAX_NOTIONAL_USD { reasons := reasons + [OverSmallTestCap]; }
    }
  }

  method CheckTradeLimits(inp: RiskInputs) returns (reasons: seq<RiskReason>)
    ensures reasons == [] <==> WithinTradeLimits(inp)
  {
    reasons := [];
    var r, t, p := inp.settings.risk, inp.settings.trading, inp.portfolio;
    if inp.flashLoanUsd.None? && inp.notionalUsd > t.maxTradeSizeUsd { reasons := reasons + [OverMaxTradeSize]; }
    if inp.notionalUsd < t.minTradeSizeUsd { reasons := reasons + [UnderMinTradeSize]; }
    if p.activeBreakers > 0 { reasons := reasons + [BreakersActive]; }
    if p.openTrades >= r.maxConcurrentTrades { reasons := reasons + [TooManyTrades]; }
    if p.dailyRealizedPnlUsd <= -r.maxDailyLossUsd { reasons := reasons + [DailyLossLimit]; }
    if p.failedTradesLastHour >= r.maxFailedTradesPerHour { reasons := reasons + [TooManyFailures]; }
  }

  method CheckAssetLimits(inp: RiskInputs) returns (reasons: seq<RiskReason>)
    ensures reasons == [] <==> WithinAssetLimits(inp)
  {
    reasons := [];
    var r := inp.settings.risk;
    if inp.portfolio.unhedgedSeconds > r.maxUnhedgedSeconds { reasons := reasons + [UnhedgedExposure]; }
    if inp.gasUsd > r.maxGasUsd { reasons := reasons + [GasOverRiskMax]; }
    if inp.base !in r.assetAllowlist || inp.quote !in r.assetAllowlist { reasons := reasons + [AssetNotAllowed]; }
    if inp.flashLoanUsd.Some? {
      if inp.flashLoanUsd.value > r.maxFlashLoanUsd { reasons := reasons + [LoanOverRiskMax]; }
      if inp.gasUsd > r.maxFlashLoanGasUsd { reasons := reasons + [LoanGasOverMax]; }
    }
  }

  method CheckLegExposure(inp: RiskInputs, leg: ExecutionQuote) returns (reasons: seq<RiskReason>)
    ensures reasons == [] <==> LegExposureOk(inp, leg)
  {
    hide Pct;
    reasons := [];
    var r, p, total := inp.settings.risk, inp.portfolio, inp.portfolio.totalCapitalUsd;
    if Pct(Held(p.exposureByVenueUsd, leg.venue) + inp.notionalUsd, total) > r.maxExchangeExposurePct {
      reasons := reasons + [VenueExposure];
    }
    if leg.chain.Some? && Pct(Held(p.exposureByChainUsd, leg.chain.value) + inp.notionalUsd, total) > r.maxChainExposurePct {
      reasons := reasons + [ChainExposure];
    }
  }

  method CheckExposure(inp: RiskInputs) returns (reasons: seq<RiskReason>, score: int)
    ensures reasons == [] <==> ExposureOk(inp)
    ensures score == UsageScore(inp)
  {
    hide Pct, UsagePoints, LegExposureOk;
    reasons, score := [], 0;
    var r, p, total := inp.settings.risk, inp.portfolio, inp.portfolio.totalCapitalUsd;
    if total > 0.0 {
      var usage := Pct(inp.capitalRequiredUsd, total);
      if usage > r.maxCapitalUsagePct { reasons := reasons + [CapitalUsage]; }
      score := UsagePoints(usage, r.maxCapitalUsagePct);
      var legs := [inp.buy, inp.sell];
      var i := 0;
      while i < 2
        invariant 0 <= i <= 2
        invariant reasons == [] <==> usage <= r.maxCapitalUsagePct && forall k | 0 <= k < i :: LegExposureOk(inp, legs[k])
      {
        var legReasons := CheckLegExposure(inp, legs[i]);
        reasons := reasons + legReasons;
        i := i + 1;
      }
      assert legs[0] == inp.buy && legs[1] == inp.sell;
      var added := if inp.strategy.IsCarry() then inp.notionalUsd else 0.0;
      if Pct(Held(p.exposureByAssetUsd, inp.base) + added, total) > r.maxAssetExposurePct { reasons := reasons + [AssetExposure]; }
    } else if inp.capitalRequiredUsd > 0.0 && inp.flashLoanUsd.None? {
      reasons := reasons + [NoCapital];
    }
  }

  method CheckBalances(inp: RiskInputs) returns (reasons: seq<RiskReason>)
    ensures reasons == [] <==>
            BalancesOk(inp) && GasReserveOk(inp.portfolio, inp.buy) && GasReserveOk(inp.portfolio, inp.sell)
  {
    hide NeedQuote;
    reasons := [];
    var have := inp.portfolio.availableBalances;
    if inp.flashLoanUsd.None? {
      var key := (inp.buy.venue, inp.quote);
      if key !in have { reasons := reasons + [QuoteBalanceUnknown]; }
      else if have[key] < NeedQuote(inp) { reasons := reasons + [QuoteBalanceShort]; }
      if inp.sell.kind.Perp? {
        key := (inp.sell.venue, inp.quote);
        if key !in have { reasons := reasons + [CollateralUnknown]; }
        else if have[key] < Margin(inp) { reasons := reasons + [CollateralShort]; }
      } else {
        key := (inp.sell.venue, inp.base);
        if key !in have { reasons := reasons + [BaseBalanceUnknown]; }
        else if have[key] < inp.sell.baseAmount { reasons := reasons + [BaseBalanceShort]; }
      }
    }
    if !GasReserveOk(inp.portfolio, inp.buy) { reasons := reasons + [GasReserveLow]; }
    if !GasReserveOk(inp.portfolio, inp.sell) { reasons := reasons + [GasReserveLow]; }
  }

  method CheckHealth(inp: RiskInputs) returns (reasons: seq<RiskReason>, score: int)
    ensures reasons == [] <==> HealthOk(inp, inp.buy.venue) && HealthOk(inp, inp.sell.venue)
    ensures score == HealthScore(inp)
  {
    reasons, score := [], 0;
    var venues := Venues(inp);
    var i := 0;
    while i < |venues|
      invariant 0 <= i <= |venues|
      invariant score == (if i > 0 then HealthPoints(inp, venues[0]) else 0) + (if i > 1 then HealthPoints(inp, venues[1]) else 0)
      invariant reasons == [] <==> forall k | 0 <= k < i :: HealthOk(inp, venues[k])
    {
      var h := HealthOf(inp.portfolio, venues[i]);
      if h == Healthy {
      } else if h == Degraded && inp.settings.risk.allowDegradedVenues {
        score := score + 15;
      } else {
        reasons := reasons + [VenueUnhealthy];
      }
      i := i + 1;
    }
    assert venues[0] == inp.buy.venue && venues[|venues|-1] == inp.sell.venue;
  }

  /** Passes exactly when every limit holds and the bounded score is acceptable; otherwise says why not. */
  method Assess(inp: RiskInputs) returns (r: RiskAssessment)
    ensures r.score == Score(inp) && 0 <= r.score <= 100
    ensures r.passed <==> r.reasons == []
    ensures r.passed <==> Passes(inp)
  {
    hide UsageScore, HealthScore, WithinTradeLimits, WithinAssetLimits, ExposureOk, BalancesOk, SmallTestAllows, HealthOk, GasReserveOk, SoftScore, CombinedSlippage;
    var testReasons := CheckSmallTest(inp);
    var tradeReasons := CheckTradeLimits(inp);
    var assetReasons := CheckAssetLimits(inp);
    var exposureReasons, usageScore := CheckExposure(inp);
    var balanceReasons := CheckBalances(inp);
    var healthReasons, healthScore := CheckHealth(inp);
    var reasons := testReasons + tradeReasons + assetReasons + exposureReasons + balanceReasons + healthReasons;
    if CombinedSlippage(inp) > inp.settings.risk.maxSlippagePct { reasons := reasons + [SlippageOverMax]; }
    var score := Bounded(usageScore + healthScore + SoftScore(inp));
    if score > inp.settings.trading.maxRiskScore { reasons := reasons + [RiskScoreTooHigh]; }
    r := RiskAssessment(score, reasons == [], reasons);
  }

  // --- the rule on the numbers it is about ------------------------------------------------------------------

  lemma PctIff(part: real, whole: real, limit: real)
    requires whole > 0.0
    ensures Pct(part, whole) <= limit <==> part * 100.0 <= limit * whole
  {
    assert part / whole * whole == part;
    ScaledCompare(part / whole * 100.0, limit, whole);
    assert part / whole * 100.0 * whole == part * 100.0;
  }

  /** The exposure of one leg after the trade, in percent of the capital, on its venue and its chain. */
  predicate LegFits(inp: RiskInputs, leg: ExecutionQuote) {
    var p, r, total := inp.portfolio, inp.settings.risk, inp.portfolio.totalCapitalUsd;
    var onVenue := if leg.venue in p.exposureByVenueUsd then p.exposureByVenueUsd[leg.venue] else 0.0;
    && (onVenue + inp.notionalUsd) * 100.0 <= r.maxExchangeExposurePct * total
    && (leg.chain.Some? ==>
         var onChain := if leg.chain.value in p.exposureByChainUsd then p.exposureByChainUsd[leg.chain.value] else 0.0;
         (onChain + inp.notionalUsd) * 100.0 <= r.maxChainExposurePct * total)
  }

  lemma LegFitsIff(inp: RiskInputs, leg: ExecutionQuote)
    requires inp.portfolio.totalCapitalUsd > 0.0
    ensures LegExposureOk(inp, leg) <==> LegFits(inp, leg)
  {
    var p, r, total := inp.portfolio, inp.settings.risk, inp.portfolio.totalCapitalUsd;
    PctIff(Held(p.exposureByVenueUsd, leg.venue) + inp.notionalUsd, total, r.maxExchangeExposurePct);
    if leg.chain.Some? { PctIff(Held(p.exposureByChainUsd, leg.chain.value) + inp.notionalUsd, total, r.maxChainExposurePct); }
    hide Pct;
  }

  /** Capital, venues, chains and the asset; without any capital only a loan or a trade that needs none passes. */
  lemma ExposureIff(inp: RiskInputs)
    ensures ExposureOk(inp) <==>
            var p, r, total := inp.portfolio, inp.settings.risk, inp.portfolio.totalCapitalUsd;
            var held := if inp.base in p.exposureByAssetUsd then p.exposureByAssetUsd[inp.base] else 0.0;
            if total <= 0.0 then inp.capitalRequiredUsd <= 0.0 || inp.flashLoanUsd.Some?
            else
              && inp.capitalRequiredUsd * 100.0 <= r.maxCapitalUsagePct * total && LegFits(inp, inp.buy) && LegFits(inp, inp.sell)
              && (if inp.strategy in {SpotPerp, Funding, Basis} then held + inp.notionalUsd else held) * 100.0 <= r.maxAssetExposurePct * total
  {
    var p, r, total := inp.portfolio, inp.settings.risk, inp.portfolio.totalCapitalUsd;
    if total > 0.0 {
      LegFitsIff(inp, inp.buy);
      LegFitsIff(inp, inp.sell);
      PctIff(inp.capitalRequiredUsd, total, r.maxCapitalUsagePct);
      PctIff(Held(p.exposureByAssetUsd, inp.base) + (if inp.strategy.IsCarry() then inp.notionalUsd else 0.0), total, r.maxAssetExposurePct);
      hide Pct, LegFits, LegExposureOk;
    }
  }

  /** Size, breakers, the day so far, unhedged time, gas, listed assets, and the loan. */
  lemma LimitsIff(inp: RiskInputs)
    ensures WithinLimits(inp) <==>
            var p, r, t := inp.portfolio, inp.settings.risk, inp.settings.trading;
            && inp.notionalUsd >= t.minTradeSizeUsd && (inp.flashLoanUsd.None? ==> inp.notionalUsd <= t.maxTradeSizeUsd)
            && p.activeBreakers == 0 && p.openTrades < r.maxConcurrentTrades && p.failedTradesLastHour < r.maxFailedTradesPerHour
            && p.dailyRealizedPnlUsd + r.maxDailyLossUsd > 0.0 && p.unhedgedSeconds <= r.maxUnhedgedSeconds
            && inp.gasUsd <= r.maxGasUsd && {inp.base, inp.quote} <= r.assetAllowlist
            && (inp.flashLoanUsd.Some? ==> inp.flashLoanUsd.value <= r.maxFlashLoanUsd && inp.gasUsd <= r.maxFlashLoanGasUsd)
  {
  }

  predicate Enough(p: Portfolio, venue: string, asset: string, need: real) {
    (venue, asset) in p.availableBalances && p.availableBalances[(venue, asset)] >= need
  }

  /** A prefunded trade finds the quote to pay with its fee, and the base to sell or the collateral, halved where leverage is allowed. */
  lemma BalancesIff(inp: RiskInputs)
    ensures BalancesOk(inp) <==>
            inp.flashLoanUsd.Some? ||
            (var fee := if inp.buy.feePct.Some? then inp.buy.quoteAmount * inp.buy.feePct.value / 100.0 else 0.0;
             var half := if inp.settings.risk.leverageAllowed then 2.0 else 1.0;
             && Enough(inp.portfolio, inp.buy.venue, inp.quote, inp.buy.quoteAmount + fee)
             && (if inp.sell.kind == Perp then Enough(inp.portfolio, inp.sell.venue, inp.quote, inp.sell.quoteAmount / half)
                 else Enough(inp.portfolio, inp.sell.venue, inp.base, inp.sell.baseAmount)))
  {
    NeedQuoteIs(inp);
    hide NeedQuote;
  }

  lemma NeedQuoteIs(inp: RiskInputs)
    ensures NeedQuote(inp) == inp.buy.quoteAmount + (if inp.buy.feePct.Some? then inp.buy.quoteAmount * inp.buy.feePct.value / 100.0 else 0.0)
  {
  }

  /** Gas for every pool leg on a chain that reports its reserve, and two venues that are up. */
  lemma VenuesIff(inp: RiskInputs, leg: ExecutionQuote)
    ensures GasReserveOk(inp.portfolio, leg) <==>
            !(leg.kind == Dex && leg.chain.Some? && leg.chain.value in inp.portfolio.gasReserveOk && !inp.portfolio.gasReserveOk[leg.chain.value])
    ensures HealthOk(inp, leg.venue) <==>
            && leg.venue in inp.portfolio.venueHealth
            && (inp.portfolio.venueHealth[leg.venue] == Healthy
                || (inp.portfolio.venueHealth[leg.venue] == Degraded && inp.settings.risk.allowDegradedVenues))
  {
  }

  /** The score: up to 30 for capital, 25 for slippage, 15 for age, 15 per degraded venue, and for strategy and missing depth. */
  lemma ScoreIs(inp: RiskInputs)
    ensures var p, r, total := inp.portfolio, inp.settings.risk, inp.portfolio.totalCapitalUsd;
            var usage := if total > 0.0 && r.maxCapitalUsagePct > 0.0
                         then Truncate(Min(30.0, inp.capitalRequiredUsd / total * 100.0 / r.maxCapitalUsagePct * 30.0)) else 0;
            var slip := inp.buy.slippagePct + inp.sell.slippagePct + inp.buy.priceImpactPct + inp.sell.priceImpactPct;
            var slipLimit := if r.maxSlippagePct >= 0.01 then r.maxSlippagePct else 0.01;
            var age := if inp.buy.ageMs >= inp.sell.ageMs then inp.buy.ageMs else inp.sell.ageMs;
            var ageLimit := if r.maxQuoteAgeMs >= 1 then r.maxQuoteAgeMs else 1;
            var degraded := set v | v in {inp.buy.venue, inp.sell.venue} && v in p.venueHealth && p.venueHealth[v] == Degraded;
            var strategy := if inp.strategy in {DexDex, FlashLoan} then 15 else if inp.strategy == CexCex then 0 else 8;
            var sum := usage + (if r.allowDegradedVenues then 15 * |degraded| else 0)
                       + Truncate(Min(25.0, slip / slipLimit * 25.0)) + Truncate(Min(15.0, age as real / ageLimit as real * 15.0))
                       + strategy + (if inp.buy.fullyFillable && inp.sell.fullyFillable then 0 else 15);
            Score(inp) == (if sum < 0 then 0 else if sum > 100 then 100 else sum)
  {
    hide Truncate, Min;
    DegradedPoints(inp);
    hide HealthScore;
  }

  lemma DegradedPoints(inp: RiskInputs)
    ensures var degraded := set v | v in {inp.buy.venue, inp.sell.venue} && v in inp.portfolio.venueHealth && inp.portfolio.venueHealth[v] == Degraded;
            HealthScore(inp) == if inp.settings.risk.allowDegradedVenues then 15 * |degraded| else 0
  {
    var degraded := set v | v in {inp.buy.venue, inp.sell.venue} && v in inp.portfolio.venueHealth && inp.portfolio.venueHealth[v] == Degraded;
    var b, s := inp.buy.venue, inp.sell.venue;
    var db, ds := HealthOf(inp.portfolio, b) == Degraded, HealthOf(inp.portfolio, s) == Degraded;
    assert degraded == (if db then {b} else {}) + (if ds then {s} else {});
  }

  /** Every refusal has one of these causes. */
  lemma PassesIff(inp: RiskInputs)
    ensures Passes(inp) <==>
            && (inp.settings.general.mode == Live && inp.settings.live.stage != Full ==>
                 && inp.flashLoanUsd.None? && inp.strategy != FlashLoan && inp.strategy == inp.settings.live.smallTestStrategy
                 && inp.settings.live.smallTestRoute == Some(inp.buy.venue + "->" + inp.sell.venue) && inp.notionalUsd <= 25.0)
            && WithinLimits(inp) && ExposureOk(inp) && BalancesOk(inp)
            && GasReserveOk(inp.portfolio, inp.buy) && GasReserveOk(inp.portfolio, inp.sell)
            && HealthOk(inp, inp.buy.venue) && HealthOk(inp, inp.sell.venue)
            && inp.buy.slippagePct + inp.sell.slippagePct + inp.buy.priceImpactPct + inp.sell.priceImpactPct <= inp.settings.risk.maxSlippagePct
            && Score(inp) <= inp.settings.trading.maxRiskScore
  {
    hide WithinLimits, ExposureOk, BalancesOk, GasReserveOk, HealthOk, Score;
  }

  // --- what raising a risk does -----------------------------------------------------------------

  ghost predicate NoneLower(a: map<string, real>, b: map<string, real>) { forall k :: Held(a, k) <= Held(b, k) }

  predicate SameLeg(a: ExecutionQuote, b: ExecutionQuote) { a.venue == b.venue && a.kind == b.kind && a.chain == b.chain }

  /** The same leg with more slippage or impact, an older quote, or less depth. */
  predicate RiskierLeg(a: ExecutionQuote, b: ExecutionQuote) {
    && SameLeg(a, b) && a.slippagePct <= b.slippagePct && a.priceImpactPct <= b.priceImpactPct
    && a.ageMs <= b.ageMs && (b.fullyFillable ==> a.fullyFillable)
  }

  /** The trade asks for at least as much of everything. */
  predicate AsksMore(a: RiskInputs, b: RiskInputs) {
    && a.notionalUsd <= b.notionalUsd && a.capitalRequiredUsd <= b.capitalRequiredUsd && a.gasUsd <= b.gasUsd
    && NeedQuote(a) <= NeedQuote(b) && Margin(a) <= Margin(b) && a.sell.baseAmount <= b.sell.baseAmount
    && a.flashLoanUsd.Some? == b.flashLoanUsd.Some?
    && (a.flashLoanUsd.Some? ==> a.flashLoanUsd.value <= b.flashLoanUsd.value)
  }

  /** Higher exposures, more open and failed trades, a worse day, smaller balances, the same capital. */
  ghost predicate WorseBooks(a: Portfolio, b: Portfolio) {
    && a.totalCapitalUsd == b.totalCapitalUsd
    && NoneLower(a.exposureByVenueUsd, b.exposureByVenueUsd) && NoneLower(a.exposureByChainUsd, b.exposureByChainUsd)
    && NoneLower(a.exposureByAssetUsd, b.exposureByAssetUsd)
    && a.openTrades <= b.openTrades && a.failedTradesLastHour <= b.failedTradesLastHour
    && a.unhedgedSeconds <= b.unhedgedSeconds && a.activeBreakers <= b.activeBreakers
    && b.dailyRealizedPnlUsd <= a.dailyRealizedPnlUsd
    && (forall k | k in b.availableBalances ::
          k in a.availableBalances && b.availableBalances[k] <= a.availableBalances[k])
  }

  predicate WorseHealth(h: VenueHealth, k: VenueHealth) { h == k || h == Healthy || (h == Degraded && k != Healthy) }

  /** Worse venues and smaller gas reserves. */
  ghost predicate WorseVenues(a: Portfolio, b: Portfolio) {
    && (forall v :: WorseHealth(HealthOf(a, v), HealthOf(b, v)))
    && (forall c | c in a.gasReserveOk && !a.gasReserveOk[c] :: c in b.gasReserveOk && !b.gasReserveOk[c])
  }

  /** The same kind of trade under the same settings, with any of its risks raised. */
  ghost predicate Riskier(a: RiskInputs, b: RiskInputs) {
    && a.settings == b.settings && a.strategy == b.strategy && a.base == b.base && a.quote == b.quote
    && RiskierLeg(a.buy, b.buy) && RiskierLeg(a.sell, b.sell)
    && AsksMore(a, b) && WorseBooks(a.portfolio, b.portfolio) && WorseVenues(a.portfolio, b.portfolio)
  }

  lemma TruncateMono(x: real, y: real)
    requires x <= y
    ensures Truncate(x) <= Truncate(y)
  {
  }

  lemma PointsMono(x: real, y: real, limit: real, cap: real)
    requires x <= y && limit > 0.0 && cap > 0.0
    ensures Points(x, limit, cap) <= Points(y, limit, cap)
  {
    hide Scaled, Truncate;
    DivMono(x, y, limit);
    ScaledOrder(x / limit, y / limit, cap);
    TruncateMono(Min(cap, Scaled(x / limit, cap)), Min(cap, Scaled(y / limit, cap)));
  }

  lemma LegExposureLower(a: RiskInputs, b: RiskInputs, x: ExecutionQuote, y: ExecutionQuote)
    requires Riskier(a, b) && SameLeg(x, y) && a.portfolio.totalCapitalUsd > 0.0 && LegExposureOk(b, y)
    ensures LegExposureOk(a, x)
  {
    hide Pct;
    var p, q, total := a.portfolio, b.portfolio, a.portfolio.totalCapitalUsd;
    PctMono(Held(p.exposureByVenueUsd, x.venue) + a.notionalUsd, Held(q.exposureByVenueUsd, x.venue) + b.notionalUsd, total);
    if x.chain.Some? {
      PctMono(Held(p.exposureByChainUsd, x.chain.value) + a.notionalUsd, Held(q.exposureByChainUsd, x.chain.value) + b.notionalUsd, total);
    }
  }

  lemma ExposureLower(a: RiskInputs, b: RiskInputs)
    requires Riskier(a, b) && ExposureOk(b)
    ensures ExposureOk(a)
  {
    hide Pct, LegExposureOk, WorseVenues;
    var total := a.portfolio.totalCapitalUsd;
    if total > 0.0 {
      var added := (inp: RiskInputs) => if inp.strategy.IsCarry() then inp.notionalUsd else 0.0;
      PctMono(a.capitalRequiredUsd, b.capitalRequiredUsd, total);
      LegExposureLower(a, b, a.buy, b.buy);
      LegExposureLower(a, b, a.sell, b.sell);
      PctMono(Held(a.portfolio.exposureByAssetUsd, a.base) + added(a), Held(b.portfolio.exposureByAssetUsd, b.base) + added(b), total);
    }
  }

  lemma BalancesLower(a: RiskInputs, b: RiskInputs)
    requires Riskier(a, b) && BalancesOk(b)
    ensures BalancesOk(a)
  {
    hide NeedQuote, Margin, WorseVenues, NoneLower;
  }

  lemma VenuesLower(a: RiskInputs, b: RiskInputs, x: ExecutionQuote, y: ExecutionQuote)
    requires Riskier(a, b) && SameLeg(x, y)
    ensures GasReserveOk(b.portfolio, y) ==> GasReserveOk(a.portfolio, x)
    ensures HealthOk(b, y.venue) ==> HealthOk(a, x.venue) && !GoesDown(a, b, x.venue)
  {
    hide WorseBooks, AsksMore, RiskierLeg;
    assert WorseHealth(HealthOf(a.portfolio, x.venue), HealthOf(b.portfolio, x.venue));
  }

  /** A degraded venue that may be used gets worse still. */
  predicate GoesDown(a: RiskInputs, b: RiskInputs, venue: string) {
    && a.settings.risk.allowDegradedVenues
    && HealthOf(a.portfolio, venue) == Degraded && HealthOf(b.portfolio, venue) != Degraded
  }

  /** A worse venue costs points in one case only: a degraded one gives 15, one that is down none. */
  lemma WorseVenueScoresLessIff(a: RiskInputs, b: RiskInputs, venue: string)
    requires a.settings == b.settings && WorseVenues(a.portfolio, b.portfolio)
    ensures HealthPoints(b, venue) < HealthPoints(a, venue) <==> GoesDown(a, b, venue)
  {
    assert WorseHealth(HealthOf(a.portfolio, venue), HealthOf(b.portfolio, venue));
  }

  /** The score never falls, unless a degraded venue of the trade goes down altogether. */
  lemma RiskierScoresHigher(a: RiskInputs, b: RiskInputs)
    requires Riskier(a, b) && !GoesDown(a, b, a.buy.venue) && !GoesDown(a, b, a.sell.venue)
    ensures Score(a) <= Score(b)
  {
    hide UsageScore, SoftScore, HealthPoints, GasReserveOk, WorseBooks, WorseVenues, AsksMore, GoesDown;
    WorseVenueScoresLessIff(a, b, a.buy.venue);
    WorseVenueScoresLessIff(a, b, a.sell.venue);
    UsageLower(a, b);
    SoftLower(a, b);
  }

  lemma UsageLower(a: RiskInputs, b: RiskInputs)
    requires Riskier(a, b)
    ensures UsageScore(a) <= UsageScore(b)
  {
    hide Pct, Points, RiskierLeg, WorseVenues, NoneLower;
    var total, limit := a.portfolio.totalCapitalUsd, a.settings.risk.maxCapitalUsagePct;
    if total > 0.0 {
      PctMono(a.capitalRequiredUsd, b.capitalRequiredUsd, total);
      if limit > 0.0 { PointsMono(Pct(a.capitalRequiredUsd, total), Pct(b.capitalRequiredUsd, total), limit, 30.0); }
    }
  }

  lemma SoftLower(a: RiskInputs, b: RiskInputs)
    requires Riskier(a, b)
    ensures SoftScore(a) <= SoftScore(b)
  {
    hide Points, CombinedSlippage, AsksMore, WorseBooks, WorseVenues;
    var age := (inp: RiskInputs) => if inp.buy.ageMs >= inp.sell.ageMs then inp.buy.ageMs else inp.sell.ageMs;
    SlippageLower(a, b);
    PointsMono(CombinedSlippage(a), CombinedSlippage(b), Max(a.settings.risk.maxSlippagePct, 0.01), 25.0);
    PointsMono(age(a) as real, age(b) as real, AtLeastOne(a.settings.risk.maxQuoteAgeMs) as real, 15.0);
  }

  lemma SlippageLower(a: RiskInputs, b: RiskInputs)
    requires RiskierLeg(a.buy, b.buy) && RiskierLeg(a.sell, b.sell)
    ensures CombinedSlippage(a) <= CombinedSlippage(b)
  {
  }

  lemma LimitsLower(a: RiskInputs, b: RiskInputs)
    requires Riskier(a, b) && WithinLimits(b) && a.settings.trading.minTradeSizeUsd <= a.notionalUsd
    ensures WithinLimits(a)
  {
    hide NoneLower, WorseVenues, NeedQuote, Margin;
  }

  /**
   * Raising risks never turns a refusal into a pass, with one exception: a trade below the minimum size is let through
   * by asking for more.
   */
  lemma RiskierPassesIff(a: RiskInputs, b: RiskInputs)
    requires Riskier(a, b) && Passes(b)
    ensures Passes(a) <==> a.settings.trading.minTradeSizeUsd <= a.notionalUsd
  {
    hide ExposureOk, BalancesOk, GasReserveOk, HealthOk, Score, CombinedSlippage, WorseBooks, WorseVenues, NeedQuote, Margin;
    ExposureLower(a, b);
    BalancesLower(a, b);
    VenuesLower(a, b, a.buy, b.buy);
    VenuesLower(a, b, a.sell, b.sell);
    SlippageLower(a, b);
    RiskierScoresHigher(a, b);
    if a.settings.trading.minTradeSizeUsd <= a.notionalUsd { LimitsLower(a, b); }
  }

  // --- capital -------------------------------------------------------------------------------

  datatype Capital = Capital(total: real, usable: real, reserved: real, emergency: real, inventory: real, gas: real)

  function CapitalBreakdown(r: RiskSettings, total: real, gas: real): Capital {
    var emergency := Min(total, r.emergencyReserveUsd);
    var inventory := PctOf(total - emergency, r.inventoryReservePct);
    Capital(total, Max(0.0, total - emergency - inventory - gas), emergency + inventory + gas, emergency, inventory, gas)
  }

  lemma SharePositive(x: real, pct: real)
    requires x >= 0.0 && pct >= 0.0
    ensures PctOf(x, pct) >= 0.0
  {
    MulNonNeg(x, pct);
    DivMono(0.0, x * pct, 100.0);
  }

  /** Usable plus reserved capital accounts for the total exactly when the reserves do not exceed it. */
  lemma CapitalConserved(r: RiskSettings, total: real, gas: real)
    ensures var c := CapitalBreakdown(r, total, gas);
            && c.usable + c.reserved >= total
            && (c.usable + c.reserved == total <==> c.reserved <= total)
            && (0.0 <= r.inventoryReservePct <= 100.0 && gas >= 0.0 && r.emergencyReserveUsd >= 0.0 && total >= 0.0
                ==> c.usable <= total)
            && c.emergency <= total && (c.emergency < total ==> c.emergency == r.emergencyReserveUsd) && c.emergency <= r.emergencyReserveUsd
            && c.inventory == PctOf(total - c.emergency, r.inventoryReservePct) && c.gas == gas && c.total == total
            && c.reserved == c.emergency + c.inventory + c.gas && (c.usable > 0.0 ==> c.usable == total - c.reserved) && c.usable >= 0.0
  {
    var left := total - Min(total, r.emergencyReserveUsd);
    if r.inventoryReservePct >= 0.0 && left >= 0.0 { SharePositive(left, r.inventoryReservePct); }
    hide PctOf;
  }
}
