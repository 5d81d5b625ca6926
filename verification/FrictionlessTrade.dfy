/** A trade without costs: both sheets are empty and the profit rule is about gross profit alone. */
module FrictionlessTrade {
  import opened Wrappers
  import opened Money
  import opened Settings
  import opened ProfitGuards
  import Opportunities
  import Risk = RiskEngines
  import Sizing

  /** An order-book leg quoted at its reference price, without a fee. */
  ghost predicate FreeLeg(leg: ExecutionQuote) {
    && !leg.kind.Dex? && !leg.isMaker && leg.feeInQuote == None && leg.feePct == Some(0.0) && leg.avgPrice == leg.referencePrice
  }

  /** No fees, no transfers, no funding, and no allowance configured. */
  ghost predicate Frictionless(inp: Inputs) {
    && FreeLeg(inp.buy) && FreeLeg(inp.sell)
    && inp.flashLoan.None? && inp.roundTrips <= 1 && inp.fundingCostUsd == 0.0
    && inp.bridgeFeeUsd == inp.withdrawalFeeUsd == inp.depositFeeUsd == Some(0.0)
    && inp.stablecoinHaircutPct == 0.0 && inp.experienceExtraPct <= 0.0
    && inp.trading.safetyBufferPct == inp.trading.latencyAllowancePct == inp.trading.partialFillAllowancePct == 0.0
    && inp.trading.failureReservePct == inp.trading.rebalanceAllowancePct == 0.0
  }

  lemma FreeLegCostsNothing(leg: ExecutionQuote, notional: real, t: TradingSettings, isBuy: bool)
    requires FreeLeg(leg)
    ensures LegAttribution(leg, notional, 0.0, t, isBuy) == LegCosts(0.0, 0.0, 0.0, 0.0, 0.0, false)
  {
    assert PctOf(notional, 0.0) == 0.0;
  }

  lemma FreeLegs(inp: Inputs)
    requires Frictionless(inp)
    ensures BuyLeg(inp) == SellLeg(inp) == LegCosts(0.0, 0.0, 0.0, 0.0, 0.0, false)
    ensures BuyExec(inp) == BuyRef(inp) && SellExec(inp) == SellRef(inp) && !OnChain(inp)
  {
    hide LegAttribution, ValueAt;
    FreeLegCostsNothing(inp.buy, BuyRef(inp), inp.trading, true);
    FreeLegCostsNothing(inp.sell, SellRef(inp), inp.trading, false);
  }

  lemma NoAllowances(inp: Inputs)
    requires Frictionless(inp)
    ensures Expected(inp).Total() == 0.0
    ensures Expected(inp).bridgeFee == Expected(inp).withdrawalFee == Expected(inp).depositFee == 0.0
    ensures Expected(inp).rebalanceAllowance == Expected(inp).latencyAllowance == Expected(inp).partialFillAllowance == 0.0
    ensures Expected(inp).failureReserve == Expected(inp).safetyBuffer == Expected(inp).flashLoanFee == Expected(inp).mevReserve == 0.0
    ensures Expected(inp).buyTradingFee == Expected(inp).gas == Expected(inp).priorityFee == 0.0
  {
    FreeLegs(inp);
    ZeroPct(BuyRef(inp));
    ScaledZero(Trips(inp));
    hide LegAttribution, ValueAt, BuyRef, BuyLeg, SellLeg, Scaled, PctOf, OnChain, Trips;
  }

  lemma ZeroPct(x: real)
    ensures PctOf(x, 0.0) == 0.0
  {
  }

  /** Then both cost sheets add up to nothing. */
  lemma FrictionlessSheets(inp: Inputs)
    requires Frictionless(inp)
    ensures Expected(inp).Total() == 0.0 && Worst(inp).Total() == 0.0 && !AnyUnknown(inp)
    ensures Expected(inp).buyTradingFee == Expected(inp).gas == Expected(inp).priorityFee == 0.0
  {
    NoAllowances(inp);
    FreeLegs(inp);
    ScaledZero(Trips(inp));
    ScaledZero(inp.trading.worstCaseFeeMultiplier);
    ScaledZero(inp.trading.worstCaseSlippageMultiplier);
    ScaledZero(inp.gasSettings.stressMultiplier);
    hide Expected, LegAttribution, ValueAt, BuyLeg, SellLeg, Scaled, OnChain, Trips;
  }

  lemma FrictionlessNet(inp: Inputs)
    requires Frictionless(inp)
    ensures ExpectedNet(inp) == WorstCase(inp) == Gross(inp) && CapitalRequired(inp) == BuyRef(inp)
    ensures !AnyUnknown(inp) && !OnChain(inp)
  {
    hide Expected, Worst, AnyUnknown, Gross, ValueAt, LegAttribution, BuyLeg, SellLeg, Costs.Total;
    FrictionlessSheets(inp);
    FreeLegs(inp);
  }

  /** And the profit rule is exactly that the gross profit of fresh, fillable quotes clears every floor. */
  lemma FrictionlessRule(inp: Inputs)
    requires Frictionless(inp)
    ensures Acceptable(inp) <==>
            && QuotesUsable(inp)
            && MinProfit(inp) <= Gross(inp) && MinWorstCase(inp) <= Gross(inp)
            && inp.trading.minRoiPct <= Roi(Gross(inp), BuyRef(inp))
  {
    hide Expected, Worst, AnyUnknown, QuotesUsable, MinProfit, MinWorstCase, Roi, Gross, ExpectedNet, WorstCase, CapitalRequired,
      OnChain, ValueAt, GasRatio, Pct;
    FrictionlessNet(inp);
  }

  // --- the small live test does approve trades once a route is selected --------------------------------

  function LegAt(venue: string, price: real): ExecutionQuote {
    ExecutionQuote(venue, Cex, None, 1.0, price, price, price, 0.0, 0.0, true, 0, Some(0.0), None, false, None)
  }

  function TradingOf(): TradingSettings {
    TradingSettings(false, 1000.0, 1.0, 1.0, 1.0, 0.0, 1000, 100, 0.0, 0.0, 0.0, 0.0, 0.0, 1.0, 1.0, None)
  }

  function RiskOf(): RiskSettings {
    RiskSettings(100.0, 100.0, 100.0, 100.0, 100.0, 1, 0, 1.0, 1.0, 1000, 1, 0.0, 0.0, false, 0.0, 0.0, false, {"BTC", "USDC"})
  }

  function SettingsOf(): AppSettings {
    AppSettings(
      GeneralSettings(Live, true, true), TradingOf(), RiskOf(),
      GasSettings(1.0, 100.0, 0.0, 1.0, 1.0, 1.0, 0, 2.0, 3.0, 4.0, 1.0, false, 0.0),
      SlippageSettings(1.0, map[], map[], map[], []),
      FlashLoanSettings(false, "auto", 0.0, 0.0, 0.0, 0, 0.0, true, true, false, 0.0, {}),
      LiveState(true, true, true, SmallTest, CexCex, Some("a->b")))
  }

  function MarketOf(): Opportunities.Market {
    Opportunities.Market(LegAt("a", 10.0), LegAt("b", 12.0), None, Opportunities.NotSimulated, 0.0, 0.0)
  }

  function CandidateOf(): Opportunities.Candidate {
    Opportunities.Candidate(CexCex, "BTC/USDC", "BTC", "USDC", Sizing.SizingVenue("a", Cex, None), Sizing.SizingVenue("b", Cex, None), false)
  }

  function PortfolioOf(): Risk.Portfolio {
    Risk.Portfolio(1000.0, map[], map[], map[], 0, 0.0, 0, map["a" := Healthy, "b" := Healthy],
                   map[("a", "USDC") := 100.0, ("b", "BTC") := 1.0], 0, 0, map[])
  }

  function ContextOf(): Opportunities.Context {
    Opportunities.Context(SettingsOf(), PortfolioOf(), [], false, Some(10.0), None, 1000.0, 100.0, 1.0, 0.0, None)
  }

  function ExampleInputs(): Inputs { Opportunities.ProfitInputs(ContextOf(), CandidateOf(), MarketOf()) }

  lemma ExampleFields()
    ensures var inp := ExampleInputs();
            && Frictionless(inp) && QuotesUsable(inp) && inp.gas == None && inp.flashLoan == None && inp.rate == 1.0
            && inp.trading.minProfitUsd == inp.trading.minWorstCaseProfitUsd == 1.0 && inp.trading.minRoiPct == 0.0
            && inp.buy == LegAt("a", 10.0) && inp.sell == LegAt("b", 12.0)
  {
    hide PortfolioOf;
  }

  lemma ExampleNumbers(inp: Inputs)
    requires inp.buy == LegAt("a", 10.0) && inp.sell == LegAt("b", 12.0) && inp.rate == 1.0
    ensures Gross(inp) == 2.0 && BuyRef(inp) == 10.0 && Size(inp) == 1.0
  {
  }

  lemma ExampleFloors(inp: Inputs)
    requires inp.gas == None && inp.flashLoan == None
    requires inp.trading.minProfitUsd == inp.trading.minWorstCaseProfitUsd == 1.0
    ensures MinProfit(inp) == 1.0 && MinWorstCase(inp) == 1.0
  {
    hide OnChain, Gross;
  }

  lemma ExampleRoi(gain: real, capital: real)
    requires gain == 2.0 && capital == 10.0
    ensures Roi(gain, capital) >= 0.0
  {
  }

  lemma ExampleIsProfitable()
    ensures Acceptable(ExampleInputs()) && Opportunities.CapitalOf(ExampleInputs()) == 10.0
  {
    hide Acceptable, CapitalRequired, Expected, Worst, ExampleInputs, QuotesUsable, Gross, ValueAt, Frictionless, Size, MinProfit,
      MinWorstCase, Roi, BuyRef, ExpectedNet, WorstCase, OnChain, AnyUnknown, LegAt;
    var inp := ExampleInputs();
    ExampleFields();
    ExampleNumbers(inp);
    ExampleFloors(inp);
    ExampleRoi(Gross(inp), BuyRef(inp));
    FrictionlessRule(inp);
    FrictionlessNet(inp);
  }

  function ExampleQuestion(): Risk.RiskInputs { Opportunities.RiskInputs(ContextOf(), CandidateOf(), MarketOf(), 1.0) }

  lemma ExampleAsked()
    ensures var r := ExampleQuestion();
            && r.settings == SettingsOf() && r.strategy == CexCex && r.buy == LegAt("a", 10.0) && r.sell == LegAt("b", 12.0)
            && r.base == "BTC" && r.quote == "USDC" && r.notionalUsd == 10.0 && r.capitalRequiredUsd == 10.0
            && r.portfolio == PortfolioOf() && r.gasUsd == 0.0 && r.flashLoanUsd == None
  {
    hide Acceptable, SettingsOf, LegAt, Opportunities.CapitalOf, Opportunities.ProfitInputs;
    ExampleIsProfitable();
  }

  lemma ExampleSmallAndWithin(r: Risk.RiskInputs)
    requires r.settings == SettingsOf() && r.strategy == CexCex && r.buy == LegAt("a", 10.0) && r.sell == LegAt("b", 12.0)
    requires r.base == "BTC" && r.quote == "USDC" && r.notionalUsd == 10.0 && r.portfolio == PortfolioOf() && r.gasUsd == 0.0
    requires r.flashLoanUsd == None
    ensures Risk.SmallTestAllows(r) && Risk.WithinLimits(r) && Risk.CombinedSlippage(r) <= r.settings.risk.maxSlippagePct
    ensures Risk.GasReserveOk(r.portfolio, r.buy) && Risk.GasReserveOk(r.portfolio, r.sell)
  {
    assert "a" + "->" + "b" == "a->b";
  }

  lemma ExampleExposure(r: Risk.RiskInputs)
    requires r.settings == SettingsOf() && r.strategy == CexCex && r.buy == LegAt("a", 10.0) && r.sell == LegAt("b", 12.0)
    requires r.notionalUsd == 10.0 && r.capitalRequiredUsd == 10.0 && r.portfolio == PortfolioOf()
    ensures Risk.ExposureOk(r)
  {
    assert Pct(10.0, 1000.0) == 1.0 && Pct(0.0, 1000.0) == 0.0;
  }

  lemma ExampleBalances(r: Risk.RiskInputs)
    requires r.settings == SettingsOf() && r.buy == LegAt("a", 10.0) && r.sell == LegAt("b", 12.0)
    requires r.base == "BTC" && r.quote == "USDC" && r.portfolio == PortfolioOf()
    ensures Risk.BalancesOk(r) && Risk.HealthOk(r, r.buy.venue) && Risk.HealthOk(r, r.sell.venue)
  {
    assert Risk.NeedQuote(r) == 10.0;
  }

  lemma ScoreWithinHundred(r: Risk.RiskInputs)
    ensures Risk.Score(r) <= 100
  {
    hide Risk.UsageScore, Risk.HealthScore, Risk.SoftScore;
  }

  lemma ExamplePasses(r: Risk.RiskInputs)
    requires r.settings == SettingsOf() && r.strategy == CexCex && r.buy == LegAt("a", 10.0) && r.sell == LegAt("b", 12.0)
    requires r.base == "BTC" && r.quote == "USDC" && r.notionalUsd == 10.0 && r.capitalRequiredUsd == 10.0
    requires r.portfolio == PortfolioOf() && r.gasUsd == 0.0 && r.flashLoanUsd == None
    ensures Risk.Passes(r)
  {
    assert r.settings.trading.maxRiskScore == 100;
    hide Risk.SmallTestAllows, Risk.WithinLimits, Risk.ExposureOk, Risk.BalancesOk, Risk.HealthOk, Risk.GasReserveOk, Risk.Score,
      Risk.CombinedSlippage, PortfolioOf, LegAt, SettingsOf;
    ExampleSmallAndWithin(r);
    ExampleExposure(r);
    ExampleBalances(r);
    ScoreWithinHundred(r);
  }

  lemma ExampleOtherGuards()
    ensures var ctx, cand, m := ContextOf(), CandidateOf(), MarketOf();
            && Opportunities.LegPasses(ctx, cand, m.buy, 1.0) && Opportunities.LegPasses(ctx, cand, m.sell, 1.0)
            && Opportunities.Fresh(ctx.settings, m.buy) && Opportunities.Fresh(ctx.settings, m.sell)
            && Opportunities.BlockingBreakers(ctx, cand, m) == [] && !Opportunities.GasPaused(m)
            && !ctx.stopped && ctx.settings.general.botEnabled && !cand.flashLoan && Risk.InSmallTest(ctx.settings)
  {
    hide PortfolioOf;
  }

  /** With the route selected, an ordinary profitable trade of $10 is clear in the small live test. */
  lemma SmallTestCanApprove()
    ensures Risk.InSmallTest(ContextOf().settings)
    ensures Opportunities.Clear(ContextOf(), CandidateOf(), MarketOf(), 1.0)
  {
    hide Acceptable, Risk.Passes, Opportunities.ProfitInputs, Opportunities.RiskInputs, Opportunities.LegPasses, PortfolioOf,
      SettingsOf, LegAt, Opportunities.Fresh, Opportunities.BlockingBreakers, Opportunities.GasPaused;
    ExampleIsProfitable();
    ExampleAsked();
    ExamplePasses(ExampleQuestion());
    ExampleOtherGuards();
  }
}
