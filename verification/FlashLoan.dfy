/** Flash loans on paper: the simulation that gates them, and a settlement that conserves value. */
module FlashLoans {
  import opened Wrappers
  import opened Money
  import opened Settings
  import Accounting
  import Guard = ProfitGuards
  import Ledgers
  import Opportunities
  import Risk = RiskEngines
  import Sizing
  import Walking

  /** In simulation and paper mode a chain is available when loans are on and it is listed. */
  predicate Available(s: FlashLoanSettings, chain: string) { s.enabled && chain in s.chains }

  /** Simulation and settlement charge 0.05%, whatever provider the Profit Guard assumed. */
  function LoanFee(buy: ExecutionQuote): real { buy.quoteAmount * 0.0005 }

  /** Borrow the quote, buy on one side, sell on the other, repay with the fee. */
  function AtomicProfit(buy: ExecutionQuote, sell: ExecutionQuote): real {
    sell.quoteAmount - buy.quoteAmount - LoanFee(buy)
  }

  datatype SimulationResult = SimulationResult(ok: bool, expectedProfit: Option<real>)

  function SimulationOf(s: FlashLoanSettings, buy: ExecutionQuote, sell: ExecutionQuote): SimulationResult {
    if buy.chain.None? || !Available(s, buy.chain.value) then SimulationResult(false, None)
    else SimulationResult(s.minNetProfitUsd <= AtomicProfit(buy, sell), Some(AtomicProfit(buy, sell)))
  }

  /** The market's simulations are this engine's own. */
  ghost predicate SimulatedHere(s: FlashLoanSettings, market: real -> Option<Opportunities.Market>) {
    forall size | market(size).Some? ::
      var m := market(size).value;
      m.simulation == Opportunities.Simulated(SimulationOf(s, m.buy, m.sell).ok)
  }

  /** The quotes are for this size: what they pay and cost is size times average price. */
  predicate Consistent(o: Opportunities.Opportunity) {
    o.buy.quoteAmount == o.size * o.buy.avgPrice && o.sell.quoteAmount == o.size * o.sell.avgPrice
  }

  /** A price of zero is treated like a missing one. */
  predicate Usable(price: Option<real>) { price.Some? && price.value != 0.0 }

  function RateOf(price: Option<real>): real { if Usable(price) then price.value else 1.0 }

  function GasOf(o: Opportunities.Opportunity): real { if o.gas.Some? then o.gas.value.expected else 0.0 }

  /** USD value of a quote and a native balance, which may be one and the same account. */
  function Valued(same: bool, q: real, n: real, rate: real, nativePrice: Option<real>): real {
    if same then q * rate else q * rate + (if Usable(nativePrice) then n * nativePrice.value else 0.0)
  }

  /** USD value of the free quote and native balances of a chain wallet. */
  function Worth(accounts: map<Ledgers.Key, Ledgers.Account>, quote: Ledgers.Key, native: Ledgers.Key, rate: real,
                 nativePrice: Option<real>): real {
    Valued(quote == native, Ledgers.Lookup(accounts, quote).free, Ledgers.Lookup(accounts, native).free, rate, nativePrice)
  }

  /** What the settlement books as the purchase: quoted price, loan fee and gas. */
  function BoughtLeg(o: Opportunities.Opportunity): Accounting.OrderResult {
    Accounting.OrderResult(Walking.Buy, o.size, Some(o.buy.avgPrice), [Accounting.Fill(o.size, o.buy.avgPrice)],
                           LoanFee(o.buy), GasOf(o), Some(o.buy.avgPrice))
  }

  function SoldLeg(o: Opportunities.Opportunity): Accounting.OrderResult {
    Accounting.OrderResult(Walking.Sell, o.size, Some(o.sell.avgPrice), [Accounting.Fill(o.size, o.sell.avgPrice)],
                           0.0, 0.0, Some(o.sell.avgPrice))
  }

  // --- value --------------------------------------------------------------------------------------

  lemma SingleFill(amount: real, price: real)
    ensures Accounting.FillValue([Accounting.Fill(amount, price)]) == amount * price
  {
    assert [Accounting.Fill(amount, price)][1..] == [];
  }

  /** The booked net of a settlement: the atomic profit in USD less gas, however the estimate looked. */
  lemma BookedNet(o: Opportunities.Opportunity, estimatedNet: real, rate: real, est: Guard.Costs)
    requires Consistent(o)
    ensures var r := Accounting.OutcomeOf(Some(BoughtLeg(o)), Some(SoldLeg(o)), None, estimatedNet, rate, est);
            r.actualNet == Scaled(AtomicProfit(o.buy, o.sell), rate) - GasOf(o) && r.unmatchedBase == 0.0
  {
    SingleFill(o.size, o.buy.avgPrice);
    SingleFill(o.size, o.sell.avgPrice);
    SplitNet(o.sell.quoteAmount - o.buy.quoteAmount, LoanFee(o.buy), rate);
    hide LoanFee, GasOf, Accounting.Slipped;
  }

  /**
   * In USD: the sale less 1.0005 times the purchase, at the quote's price where one is known and not zero, less the expected gas
   * where it was estimated. Both legs are on record in full, at the quoted prices.
   */
  lemma SettledFigures(o: Opportunities.Opportunity, estimatedNet: real, quotePrice: Option<real>, est: Guard.Costs)
    requires Consistent(o)
    ensures var r := Accounting.OutcomeOf(Some(BoughtLeg(o)), Some(SoldLeg(o)), None, estimatedNet, RateOf(quotePrice), est);
            var rate := match quotePrice { case Some(price) => if price == 0.0 then 1.0 else price case None => 1.0 };
            && r.actualNet == (o.sell.quoteAmount - o.buy.quoteAmount * 1.0005) * rate
                              - (match o.gas { case Some(gas) => gas.expected case None => 0.0 })
            && r.slippageVariance == r.unmatchedBase == 0.0 && r.matchedBase == o.size
    ensures BoughtLeg(o).QuoteAmount() == o.buy.quoteAmount && SoldLeg(o).QuoteAmount() == o.sell.quoteAmount
  {
    BookedNet(o, estimatedNet, RateOf(quotePrice), est);
    SingleFill(o.size, o.buy.avgPrice);
    SingleFill(o.size, o.sell.avgPrice);
    LegsAsQuoted(o);
    AtomicIs(o.buy, o.sell);
    hide LoanFee, Accounting.FillValue, AtomicProfit, Accounting.Slipped;
  }

  lemma LegsAsQuoted(o: Opportunities.Opportunity)
    ensures Accounting.Slipped(Some(BoughtLeg(o)), true) == Accounting.Slipped(Some(SoldLeg(o)), false) == 0.0
  {
  }

  lemma AtomicIs(buy: ExecutionQuote, sell: ExecutionQuote)
    ensures AtomicProfit(buy, sell) == sell.quoteAmount - buy.quoteAmount * 1.0005
  {
  }

  lemma SplitNet(gross: real, fee: real, rate: real)
    ensures gross * rate - fee * rate == (gross - fee) * rate
    ensures (gross + 0.0) * rate == gross * rate && (fee + 0.0 + 0.0) * rate == fee * rate
  {
  }

  lemma GasInNative(gas: real, price: real)
    requires price != 0.0
    ensures gas / price * price == gas
  {
  }

  /** Crediting the profit and charging the gas changes the wallet's worth by exactly their USD values. */
  lemma WorthMoves(same: bool, q: real, n: real, q': real, n': real, profit: real, gas: real, rate: real, price: real)
    requires price != 0.0 && (same ==> rate == price)
    requires q' == if same then q + profit - gas / price else q + profit
    requires same || n' == n - gas / price
    ensures Valued(same, q', n', rate, Some(price)) == Valued(same, q, n, rate, Some(price)) + Scaled(profit, rate) - gas
  {
    GasInNative(gas, price);
    Distribute(q, profit, rate);
    if same { Distribute(q + profit, -(gas / price), rate); }
    else { Distribute(n, -(gas / price), price); }
  }

  /** Without a native price only the profit counts. */
  lemma ProfitMoves(same: bool, q: real, n: real, m: real, profit: real, rate: real, price: Option<real>)
    requires !Usable(price)
    ensures Valued(same, q + profit, m, rate, price) == Valued(same, q, n, rate, price) + Scaled(profit, rate)
  {
    Distribute(q, profit, rate);
  }

  // --- the engine -----------------------------------------------------------------------------------

  class FlashLoanEngine {
    const ledger: Ledgers.PaperLedger
    const hasLedger: bool
    var dailyPnlUsd: real
    var lastSimulation: map<string, SimulationResult>

    constructor (ledger: Ledgers.PaperLedger, hasLedger: bool)
      ensures this.ledger == ledger && this.hasLedger == hasLedger && dailyPnlUsd == 0.0 && lastSimulation == map[]
    {
      this.ledger, this.hasLedger, dailyPnlUsd, lastSimulation := ledger, hasLedger, 0.0, map[];
    }

    /** The paper simulation of one route; its result is remembered under the route. */
    method Simulate(s: FlashLoanSettings, route: string, buy: ExecutionQuote, sell: ExecutionQuote) returns (ok: bool)
      modifies this`lastSimulation
      ensures var there, left := s.enabled && buy.chain.Some? && buy.chain.value in s.chains, sell.quoteAmount - buy.quoteAmount * 1.0005;
              && (ok <==> there && s.minNetProfitUsd <= left)
              && SimulationOf(s, buy, sell) == SimulationResult(ok, if there then Some(left) else None)
      ensures lastSimulation == old(lastSimulation)[route := SimulationOf(s, buy, sell)]
    {
      var available := buy.chain.Some? && s.enabled && buy.chain.value in s.chains;
      if !available {
        lastSimulation := lastSimulation[route := SimulationResult(false, None)];
        return false;
      }
      var loan := buy.quoteAmount;
      var fee := loan * 0.0005;
      var profit := sell.quoteAmount - loan - fee;
      ok := profit >= s.minNetProfitUsd;
      lastSimulation := lastSimulation[route := SimulationResult(ok, Some(profit))];
    }

    /** Books both legs as filled and moves the chain wallet: profit in, gas out when the native price is known. */
    method SettlePaper(tr: Accounting.TradeRecord, o: Opportunities.Opportunity, nativeToken: string,
                       quotePrice: Option<real>, nativePrice: Option<real>)
      requires nativeToken == o.cand.quote ==> nativePrice == quotePrice
      modifies tr`buy, tr`sell, tr`status, tr`events, ledger
      ensures tr.buy == Some(BoughtLeg(o)) && tr.sell == Some(SoldLeg(o)) && tr.status == Accounting.Filled && tr.events > 0
      ensures !hasLedger || o.buy.chain.None? ==> ledger.accounts == old(ledger.accounts)
      ensures hasLedger && o.buy.chain.Some? ==>
                var quote, native := (o.buy.chain.value, o.cand.quote), (o.buy.chain.value, nativeToken);
                var rate := RateOf(quotePrice);
                && Ledgers.OnlyChanged(old(ledger.accounts), ledger.accounts, {quote, native})
                && Worth(ledger.accounts, quote, native, rate, nativePrice)
                   == Worth(old(ledger.accounts), quote, native, rate, nativePrice) + Scaled(AtomicProfit(o.buy, o.sell), rate)
                      - (if Usable(nativePrice) then GasOf(o) else 0.0)
      ensures hasLedger && o.buy.chain.Some? && nativeToken != o.cand.quote ==>
                var quote := (o.buy.chain.value, o.cand.quote);
                ledger.Get(quote).free == old(ledger.Get(quote)).free + AtomicProfit(o.buy, o.sell)
    {
      hide AtomicProfit, LoanFee, GasOf;
      var gasUsd := GasOf(o);
      var profit := AtomicProfit(o.buy, o.sell);
      tr.buy := Some(BoughtLeg(o));
      tr.sell := Some(SoldLeg(o));
      tr.status := Accounting.Filled;
      if hasLedger && o.buy.chain.Some? {
        var quote, native := (o.buy.chain.value, o.cand.quote), (o.buy.chain.value, nativeToken);
        Credit(quote, native, profit, gasUsd, RateOf(quotePrice), nativePrice);
      }
      tr.events := tr.events + 1;
    }

    method Credit(quote: Ledgers.Key, native: Ledgers.Key, profit: real, gasUsd: real, ghost rate: real, nativePrice: Option<real>)
      requires quote == native && Usable(nativePrice) ==> rate == nativePrice.value
      modifies ledger
      ensures Ledgers.OnlyChanged(old(ledger.accounts), ledger.accounts, {quote, native})
      ensures Worth(ledger.accounts, quote, native, rate, nativePrice)
              == Worth(old(ledger.accounts), quote, native, rate, nativePrice) + Scaled(profit, rate)
                 - (if Usable(nativePrice) then gasUsd else 0.0)
      ensures quote != native ==> ledger.Get(quote).free == old(ledger.Get(quote)).free + profit
    {
      hide Valued, Scaled;
      ghost var q, n, same := ledger.Get(quote).free, ledger.Get(native).free, quote == native;
      var _ := ledger.Adjust(quote, profit, true);
      if nativePrice.Some? && nativePrice.value != 0.0 {
        ledger.ChargeGas(native, gasUsd / nativePrice.value);
        WorthMoves(same, q, n, ledger.Get(quote).free, ledger.Get(native).free, profit, gasUsd, rate, nativePrice.value);
      } else {
        ProfitMoves(same, q, n, ledger.Get(native).free, profit, rate, nativePrice);
      }
    }

    /** Whether a requoted loan is booked in a way that matches what the wallet gained. */
    twostate predicate Booked(o: Opportunities.Opportunity, net: real, nativeToken: string, quotePrice: Option<real>,
                              nativePrice: Option<real>)
      reads this, ledger
    {
      && dailyPnlUsd == old(dailyPnlUsd) + net
      && (Consistent(o) ==>
           && net == Scaled(AtomicProfit(o.buy, o.sell), RateOf(quotePrice)) - GasOf(o)
           && (hasLedger && o.buy.chain.Some? ==>
                var gain := WalletGain(old(ledger.accounts), ledger.accounts, o, nativeToken, quotePrice, nativePrice);
                (gain == net <==> Usable(nativePrice) || GasOf(o) == 0.0)))
    }

    /**
     * Settles and books one trade: its realised net is added to the day, and that net is what the wallet gained in USD
     * exactly when the gas could be charged or was zero.
     */
    method SettleAndBook(tr: Accounting.TradeRecord, o: Opportunities.Opportunity, nativeToken: string,
                         quotePrice: Option<real>, nativePrice: Option<real>)
      requires nativeToken == o.cand.quote ==> nativePrice == quotePrice
      requires tr.hedge == None && tr.status == Accounting.Executing
      modifies this`dailyPnlUsd, tr, ledger
      ensures tr.status == Accounting.Filled && tr.actualNet.Some?
      ensures Booked(o, tr.actualNet.value, nativeToken, quotePrice, nativePrice)
    {
      hide AtomicProfit, LoanFee, GasOf, Accounting.OutcomeOf, Worth, BoughtLeg, SoldLeg, Usable, RateOf, Ledgers.OnlyChanged,
        Ledgers.Lookup, Consistent, Scaled;
      SettlePaper(tr, o, nativeToken, quotePrice, nativePrice);
      if Consistent(o) { BookedNet(o, tr.estimatedNet, RateOf(quotePrice), tr.estimatedCosts); }
      NothingUnmatched(o, tr.estimatedNet, RateOf(quotePrice), tr.estimatedCosts);
      var outcome := Accounting.ComputeOutcome(tr, RateOf(quotePrice), Some(tr.estimatedCosts));
      Accounting.ApplyOutcome(tr, outcome.value);
      dailyPnlUsd := dailyPnlUsd + outcome.value.actualNet;
    }

    /**
     * Re-quotes and re-simulates, then settles. A stop, disabled loans, a lost venue or any objection aborts with nothing
     * changed.
     */
    method Execute(ctx: Opportunities.Context, cand: Option<Opportunities.Candidate>, size: real, estimatedNet: real, estimated: Guard.Costs,
                   market: real -> Option<Opportunities.Market>, nativeToken: string, nativePrice: Option<real>)
      returns (tr: Accounting.TradeRecord, ghost requoted: Option<Opportunities.Opportunity>)
      requires cand.Some? ==> cand.value.flashLoan && (nativeToken == cand.value.quote ==> nativePrice == ctx.quotePrice)
      requires cand.Some? && ctx.Priced() ==> Sizing.CanCap(Opportunities.SizingOf(ctx, cand.value))
      modifies this`dailyPnlUsd, ledger
      ensures fresh(tr) && (tr.status == Accounting.Aborted || tr.status == Accounting.Filled)
      ensures ctx.stopped || !ctx.settings.flashLoan.enabled || cand.None? ==> tr.status == Accounting.Aborted
      ensures tr.status == Accounting.Aborted ==>
                dailyPnlUsd == old(dailyPnlUsd) && ledger.accounts == old(ledger.accounts) && tr.actualNet == None
      ensures tr.status == Accounting.Filled ==>
                && requoted.Some? && Opportunities.SafeAt(requoted.value, ctx, cand.value, market) && tr.actualNet.Some?
                && Booked(requoted.value, tr.actualNet.value, nativeToken, ctx.quotePrice, nativePrice)
    {
      hide Opportunities.Clear, Opportunities.Describes, Opportunities.SafeAt, AtomicProfit, GasOf, Worth, Sizing.CanCap, Usable, RateOf,
        Consistent, WalletGain, Opportunities.SizingOf, Opportunities.PricedSize, Opportunities.BelowMin;
      tr := new Accounting.TradeRecord(size, estimatedNet, estimated);
      requoted := None;
      if ctx.stopped || !ctx.settings.flashLoan.enabled || cand.None? {
        tr.status := Accounting.Aborted;
        return;
      }
      var again := Opportunities.Evaluate(ctx, cand.value, Some(size), market);
      requoted := again;
      if again.None? || !again.value.Safe() {
        tr.status := Accounting.Aborted;
        return;
      }
      DescribedCandidate(again.value, ctx, cand.value, market);
      tr.estimatedNet, tr.estimatedCosts := again.value.profit.expectedNet, again.value.profit.expectedCosts;
      tr.status := Accounting.Executing;
      SettleAndBook(tr, again.value, nativeToken, ctx.quotePrice, nativePrice);
    }
  }

  lemma DescribedCandidate(o: Opportunities.Opportunity, ctx: Opportunities.Context, cand: Opportunities.Candidate,
                           market: real -> Option<Opportunities.Market>)
    requires Opportunities.SafeAt(o, ctx, cand, market)
    ensures o.cand == cand
  {
  }

  lemma NothingUnmatched(o: Opportunities.Opportunity, estimatedNet: real, rate: real, est: Guard.Costs)
    ensures Accounting.OutcomeOf(Some(BoughtLeg(o)), Some(SoldLeg(o)), None, estimatedNet, rate, est).unmatchedBase == 0.0
  {
    hide Accounting.FillValue, LoanFee, GasOf, Accounting.Slipped;
  }

  /** How much the chain wallet gained between two states of the ledger, in USD. */
  function WalletGain(before: map<Ledgers.Key, Ledgers.Account>, after: map<Ledgers.Key, Ledgers.Account>,
                      o: Opportunities.Opportunity, nativeToken: string, quotePrice: Option<real>, nativePrice: Option<real>): real
    requires o.buy.chain.Some?
  {
    var quote, native := (o.buy.chain.value, o.cand.quote), (o.buy.chain.value, nativeToken);
    Worth(after, quote, native, RateOf(quotePrice), nativePrice) - Worth(before, quote, native, RateOf(quotePrice), nativePrice)
  }

  // --- what the simulation guarantees -------------------------------------------------------------

  /**
   * Where simulations are required and are this engine's own, every loan that is SAFE, and so every loan that settles,
   * credits at least the configured minimum before gas.
   */
  lemma SettledCreditsMinimum(o: Opportunities.Opportunity, ctx: Opportunities.Context, cand: Opportunities.Candidate,
                              market: real -> Option<Opportunities.Market>)
    requires cand.flashLoan && ctx.settings.flashLoan.requireSimulation && SimulatedHere(ctx.settings.flashLoan, market)
    ensures Opportunities.SafeAt(o, ctx, cand, market) ==>
              && o.buy.chain.Some? && ctx.settings.flashLoan.enabled && o.buy.chain.value in ctx.settings.flashLoan.chains
              && ctx.settings.flashLoan.minNetProfitUsd <= o.sell.quoteAmount - o.buy.quoteAmount * 1.0005
  {
    if Opportunities.SafeAt(o, ctx, cand, market) { SafeWasSimulated(ctx, cand, market(o.size).value, o.size); }
  }

  /** A SAFE loan has passed its simulation where simulations are required. */
  lemma SafeWasSimulated(ctx: Opportunities.Context, cand: Opportunities.Candidate, m: Opportunities.Market, size: real)
    requires ctx.Priced() && cand.flashLoan && ctx.settings.flashLoan.requireSimulation
    ensures Opportunities.Clear(ctx, cand, m, size) ==> m.simulation == Opportunities.Simulated(true)
  {
    hide Guard.ClearsThresholds, Guard.AnyUnknown, Guard.Size, Opportunities.LegPasses, Opportunities.RiskInputs, Risk.Passes,
      Opportunities.BlockingBreakers;
    var inp := Opportunities.ProfitInputs(ctx, cand, m);
    if Opportunities.Clear(ctx, cand, m, size) {
      assert Guard.QuotesUsable(inp) && Guard.LoanAllowed(inp);
      assert inp.flashLoan.value.simulationPassed == Some(true);
    }
  }

  /** The gas a settlement books is the expected gas the guard took off, without the priority fee. */
  lemma BookedGasIsExpected(o: Opportunities.Opportunity, ctx: Opportunities.Context, cand: Opportunities.Candidate,
                            market: real -> Option<Opportunities.Market>)
    requires cand.flashLoan && Opportunities.SafeAt(o, ctx, cand, market)
    ensures BoughtLeg(o).gasUsd == Guard.Expected(Opportunities.ProfitInputs(ctx, cand, market(o.size).value)).gas
    ensures SoldLeg(o).gasUsd == 0.0
  {
    hide Opportunities.Clear, Guard.LegAttribution, PctOf, Scaled, LoanFee, Guard.WorstGas;
    var m := market(o.size).value;
    SafeHasGas(ctx, cand, m, o.size);
  }

  lemma SafeHasGas(ctx: Opportunities.Context, cand: Opportunities.Candidate, m: Opportunities.Market, size: real)
    requires ctx.Priced() && cand.flashLoan && Opportunities.Clear(ctx, cand, m, size)
    ensures m.gas.Some?
  {
    hide Guard.ClearsThresholds, Guard.Size, Opportunities.LegPasses, Opportunities.RiskInputs, Risk.Passes, Opportunities.BlockingBreakers,
      Guard.BuyLeg, Guard.SellLeg;
    var inp := Opportunities.ProfitInputs(ctx, cand, m);
    assert Guard.QuotesUsable(inp) && !Guard.AnyUnknown(inp) && Guard.OnChain(inp);
  }

  lemma FeeRatesDiffer(amount: real, pct: real)
    ensures PctOf(amount, pct) == amount * 0.0005 <==> amount == 0.0 || pct == 0.05
  {
    assert amount * pct / 100.0 - amount * 0.0005 == amount * (pct - 0.05) / 100.0;
  }

  /** The guard and the settlement charge the same loan fee only for providers at 0.05% (or for an empty loan). */
  lemma LoanFeesAgreeIff(ctx: Opportunities.Context, cand: Opportunities.Candidate, m: Opportunities.Market)
    requires cand.flashLoan
    ensures Guard.Expected(Opportunities.ProfitInputs(ctx, cand, m)).flashLoanFee == LoanFee(m.buy) <==>
            m.buy.quoteAmount == 0.0 || ctx.settings.flashLoan.provider in {"auto", "aave_v3"}
  {
    var provider := ctx.settings.flashLoan.provider;
    var fee := Guard.Expected(Opportunities.ProfitInputs(ctx, cand, m)).flashLoanFee;
    assert fee == PctOf(m.buy.quoteAmount, Opportunities.LoanFeePct(provider)) by { hide PctOf, Scaled, Guard.LegAttribution; }
    FeeRatesDiffer(m.buy.quoteAmount, Opportunities.LoanFeePct(provider));
  }
}
