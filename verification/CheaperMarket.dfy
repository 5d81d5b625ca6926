/** Two markets that differ in what trading costs, seen by the whole guard stack. */
module CheaperMarkets {
  import opened Money
  import opened Settings
  import opened Opportunities
  import opened CostMonotone
  import Laws = ProfitTheorems

  /** The same quotes at the same prices with higher fees, gas, funding cost or learned buffer. */
  ghost predicate DearerMarket(t: TradingSettings, a: Market, b: Market) {
    && b == a.(buy := b.buy, sell := b.sell, gas := b.gas, fundingCostUsd := b.fundingCostUsd, learnedExtraPct := b.learnedExtraPct)
    && LegDearer(a.buy, b.buy, t, true) && LegDearer(a.sell, b.sell, t, false) && GasDearer(a.gas, b.gas)
    && a.fundingCostUsd <= b.fundingCostUsd && a.learnedExtraPct <= b.learnedExtraPct
  }

  /** The same engine with worse books and worse venues. */
  ghost predicate WorseContext(c: Context, d: Context) {
    && d == c.(portfolio := d.portfolio)
    && Risk.WorseBooks(c.portfolio, d.portfolio) && Risk.WorseVenues(c.portfolio, d.portfolio)
  }

  /** Fees, multipliers and floors as the shipped settings have them. */
  ghost predicate SaneMarket(ctx: Context, cand: Candidate, m: Market) {
    && Laws.Sane(ProfitInputs(ctx, cand, m)) && m.buy.quoteAmount >= 0.0
    && ctx.settings.trading.minRoiPct >= 0.0 && ctx.settings.flashLoan.minProfitGasRatio >= 0.0
  }

  lemma InputsDearer(c: Context, d: Context, cand: Candidate, a: Market, b: Market)
    requires WorseContext(c, d) && DearerMarket(c.settings.trading, a, b)
    ensures Dearer(ProfitInputs(c, cand, a), ProfitInputs(d, cand, b))
  {
    hide LegDearer, GasDearer, Risk.WorseBooks, Risk.WorseVenues;
    LegsKept(c.settings.trading, a, b);
  }

  /** A dearer market quotes the same legs, fees aside. */
  lemma LegsKept(t: TradingSettings, a: Market, b: Market)
    requires DearerMarket(t, a, b)
    ensures b.buy == a.buy.(feePct := b.buy.feePct, feeInQuote := b.buy.feeInQuote)
    ensures b.sell == a.sell.(feePct := b.sell.feePct, feeInQuote := b.sell.feeInQuote)
    ensures GasPaused(a) == GasPaused(b)
  {
  }

  lemma NeedQuoteMono(amount: real, f: real, f': real)
    requires amount >= 0.0 && f <= f'
    ensures amount * (1.0 + f / 100.0) <= amount * (1.0 + f' / 100.0)
  {
    DivMono(f, f', 100.0);
    MulMono(1.0 + f / 100.0, 1.0 + f' / 100.0, amount);
  }

  lemma MoreIsAsked(a: Risk.RiskInputs, b: Risk.RiskInputs, t: TradingSettings)
    requires LegDearer(a.buy, b.buy, t, true) && LegDearer(a.sell, b.sell, t, false) && a.buy.quoteAmount >= 0.0
    requires a.settings == b.settings && a.notionalUsd == b.notionalUsd && a.flashLoanUsd == b.flashLoanUsd
    requires a.capitalRequiredUsd <= b.capitalRequiredUsd && a.gasUsd <= b.gasUsd
    ensures Risk.AsksMore(a, b) && Risk.RiskierLeg(a.buy, b.buy) && Risk.RiskierLeg(a.sell, b.sell)
  {
    if a.buy.feePct.Some? && b.buy.feePct.Some? { NeedQuoteMono(a.buy.quoteAmount, a.buy.feePct.value, b.buy.feePct.value); }
  }

  /** The risk engine is asked about a riskier trade. */
  lemma InputsRiskier(c: Context, d: Context, cand: Candidate, a: Market, b: Market, size: real)
    requires c.Priced() && WorseContext(c, d) && DearerMarket(c.settings.trading, a, b) && a.buy.quoteAmount >= 0.0
    requires CapitalOf(ProfitInputs(c, cand, a)) <= CapitalOf(ProfitInputs(d, cand, b))
    ensures Risk.Riskier(RiskInputs(c, cand, a, size), RiskInputs(d, cand, b, size))
  {
    hide LegDearer, CapitalOf, ProfitInputs, Notional, BlockingBreakers, Risk.AsksMore, Risk.RiskierLeg, Risk.WorseBooks, Risk.WorseVenues;
    LegsKept(c.settings.trading, a, b);
    SameBreakers(c, d, cand, a, b);
    assert GasDearer(a.gas, b.gas);
    assert Notional(c, size) == Notional(d, size) by { SameNotional(c, d, size); }
    MoreIsAsked(RiskInputs(c, cand, a, size), RiskInputs(d, cand, b, size), c.settings.trading);
    SameButBreakers(c.portfolio, d.portfolio, |BlockingBreakers(c, cand, a)|);
  }

  /** The number of breakers that concern the legs replaces that of all active ones. */
  lemma SameButBreakers(p: Risk.Portfolio, q: Risk.Portfolio, n: nat)
    requires Risk.WorseBooks(p, q) && Risk.WorseVenues(p, q)
    ensures Risk.WorseBooks(p.(activeBreakers := n), q.(activeBreakers := n))
    ensures Risk.WorseVenues(p.(activeBreakers := n), q.(activeBreakers := n))
  {
    forall v
      ensures Risk.WorseHealth(Risk.HealthOf(p.(activeBreakers := n), v), Risk.HealthOf(q.(activeBreakers := n), v))
    {
      assert Risk.HealthOf(p.(activeBreakers := n), v) == Risk.HealthOf(p, v);
      assert Risk.HealthOf(q.(activeBreakers := n), v) == Risk.HealthOf(q, v);
    }
  }

  lemma SameNotional(c: Context, d: Context, size: real)
    requires c.Priced() && d.Priced() && c.basePrice == d.basePrice
    ensures Notional(c, size) == Notional(d, size)
  {
  }

  lemma SameBreakers(c: Context, d: Context, cand: Candidate, a: Market, b: Market)
    requires c.breakers == d.breakers && a.buy.chain == b.buy.chain && a.sell.chain == b.sell.chain
    ensures BlockingBreakers(c, cand, a) == BlockingBreakers(d, cand, b)
  {
  }

  lemma SameSlippageAndAge(c: Context, d: Context, cand: Candidate, a: Market, b: Market, size: real)
    requires c.Priced() && WorseContext(c, d) && DearerMarket(c.settings.trading, a, b)
    ensures LegPasses(c, cand, a.buy, size) == LegPasses(d, cand, b.buy, size)
    ensures LegPasses(c, cand, a.sell, size) == LegPasses(d, cand, b.sell, size)
    ensures Fresh(c.settings, a.buy) == Fresh(d.settings, b.buy) && Fresh(c.settings, a.sell) == Fresh(d.settings, b.sell)
  {
    hide LegDearer, Notional, SlippageGuards.LimitOf, Risk.WorseBooks, Risk.WorseVenues;
    LegsKept(c.settings.trading, a, b);
    SameNotional(c, d, size);
  }

  lemma CapitalGrows(c: Context, d: Context, cand: Candidate, a: Market, b: Market)
    requires WorseContext(c, d) && DearerMarket(c.settings.trading, a, b) && SaneMarket(c, cand, a) && SaneMarket(d, cand, b)
    requires !Guard.AnyUnknown(ProfitInputs(d, cand, b))
    ensures CapitalOf(ProfitInputs(c, cand, a)) <= CapitalOf(ProfitInputs(d, cand, b))
  {
    hide ProfitInputs, Dearer, Guard.Expected, Guard.Worst, Guard.CapitalRequired, Guard.AnyUnknown, WorseContext, DearerMarket, Rises;
    var x, y := ProfitInputs(c, cand, a), ProfitInputs(d, cand, b);
    InputsDearer(c, d, cand, a, b);
    CostsMono(x, y);
    CapitalMono(x, y);
    SameSizes(x, y);
  }

  lemma SameSizes(x: Guard.Inputs, y: Guard.Inputs)
    requires Dearer(x, y)
    ensures Guard.Size(x) == Guard.Size(y)
  {
  }

  /**
   * The whole guard stack: whatever is approved in a dearer market, with worse books and worse venues, is approved in the
   * cheaper one if and only if it needs capital there or no return on capital is asked for.
   */
  lemma CheaperStaysClearIff(c: Context, d: Context, cand: Candidate, a: Market, b: Market, size: real)
    requires c.Priced() && WorseContext(c, d) && DearerMarket(c.settings.trading, a, b)
    requires SaneMarket(c, cand, a) && SaneMarket(d, cand, b)
    requires Clear(d, cand, b, size)
    ensures Clear(c, cand, a, size) <==>
            Guard.CapitalRequired(ProfitInputs(c, cand, a)) > 0.0 || c.settings.trading.minRoiPct == 0.0
  {
    hide ProfitInputs, RiskInputs, Dearer, Guard.Acceptable, Guard.CapitalRequired, Risk.Passes, Risk.Riskier, LegPasses, Fresh,
      BlockingBreakers, GasPaused, CapitalOf, LegDearer, GasDearer, Risk.WorseBooks, Risk.WorseVenues, Laws.Sane;
    var x, y := ProfitInputs(c, cand, a), ProfitInputs(d, cand, b);
    InputsDearer(c, d, cand, a, b);
    InputSettings(c, cand, a);
    CheaperStaysSafeIff(x, y);
    KnownCosts(y);
    CapitalGrows(c, d, cand, a, b);
    InputsRiskier(c, d, cand, a, b, size);
    LegsKept(c.settings.trading, a, b);
    SameBreakers(c, d, cand, a, b);
    SameSlippageAndAge(c, d, cand, a, b, size);
    BigEnough(RiskInputs(d, cand, b, size));
    Risk.RiskierPassesIff(RiskInputs(c, cand, a, size), RiskInputs(d, cand, b, size));
    SameQuestion(c, d, cand, a, b, size);
  }

  lemma InputSettings(ctx: Context, cand: Candidate, m: Market)
    ensures var x := ProfitInputs(ctx, cand, m); x.trading == ctx.settings.trading && x.flashSettings == ctx.settings.flashLoan
  {
  }

  lemma KnownCosts(inp: Guard.Inputs)
    requires Guard.Acceptable(inp)
    ensures !Guard.AnyUnknown(inp)
  {
    hide Guard.AnyUnknown, Guard.QuotesUsable, Guard.ClearsThresholds, Guard.Expected, Guard.Worst;
  }

  lemma BigEnough(r: Risk.RiskInputs)
    requires Risk.Passes(r)
    ensures r.settings.trading.minTradeSizeUsd <= r.notionalUsd
  {
    hide Risk.Score, Risk.ExposureOk, Risk.BalancesOk, Risk.SmallTestAllows;
  }

  lemma SameQuestion(c: Context, d: Context, cand: Candidate, a: Market, b: Market, size: real)
    requires c.Priced() && d.Priced() && c.basePrice == d.basePrice && c.settings == d.settings
    ensures RiskInputs(c, cand, a, size).settings == RiskInputs(d, cand, b, size).settings
    ensures RiskInputs(c, cand, a, size).notionalUsd == RiskInputs(d, cand, b, size).notionalUsd
  {
    hide CapitalOf, ProfitInputs, BlockingBreakers;
  }
}
