/** Realised profit of a trade, and how it decomposes against the Profit Guard's estimate. */
module Accounting {
  import opened Wrappers
  import opened Money
  import opened Walking
  import opened ProfitGuards
  import opened ProfitTheorems

  datatype Fill = Fill(amount: real, price: real)

  datatype OrderResult = OrderResult(
    side: Side,
    filled: real,
    avgPrice: Option<real>,
    fills: seq<Fill>,
    feeQuote: real,
    gasUsd: real,
    quotedPrice: Option<real>)
  {
    function QuoteAmount(): real { FillValue(fills) }
  }

  function FillValue(fills: seq<Fill>): real {
    if fills == [] then 0.0 else fills[0].amount * fills[0].price + FillValue(fills[1..])
  }

  datatype TradeStatus = Pending | Executing | Filled | Partial | Failed | Aborted | Recovering | Hedged

  datatype TradeOutcome = TradeOutcome(
    actualGross: real,
    tradingFees: real,
    gas: real,
    funding: real,
    actualNet: real,
    predictionError: real,
    slippageVariance: real,
    feeVariance: real,
    gasVariance: real,
    matchedBase: real,
    unmatchedBase: real)

  datatype OutcomeError = NoEvents

  class TradeRecord {
    var status: TradeStatus
    var sizeBase: real
    var estimatedNet: real
    var estimatedCosts: Costs
    var buy: Option<OrderResult>
    var sell: Option<OrderResult>
    var hedge: Option<OrderResult>
    var events: nat
    var actualGross: Option<real>
    var actualFees: Option<real>
    var actualGas: Option<real>
    var actualNet: Option<real>
    var predictionError: Option<real>

    constructor (size: real, net: real, costs: Costs)
      ensures status == Pending && sizeBase == size && estimatedNet == net && estimatedCosts == costs
      ensures buy == sell == hedge == None && events == 1
      ensures actualNet == None
    {
      status, sizeBase, estimatedNet, estimatedCosts := Pending, size, net, costs;
      buy, sell, hedge, events := None, None, None, 1;
      actualGross, actualFees, actualGas, actualNet, predictionError := None, None, None, None, None;
    }
  }

  // --- specification ------------------------------------------------------------------------

  /** Signed cash flow of a leg in quote: sales bring in, purchases pay out. */
  function CashFlow(o: Option<OrderResult>): real {
    if o.None? then 0.0 else if o.value.side.Sell? then o.value.QuoteAmount() else -o.value.QuoteAmount()
  }

  function FilledOf(o: Option<OrderResult>): real { if o.None? then 0.0 else o.value.filled }
  function QuoteOf(o: Option<OrderResult>): real { if o.None? then 0.0 else o.value.QuoteAmount() }
  function FeeOf(o: Option<OrderResult>): real { if o.None? then 0.0 else o.value.feeQuote }
  function GasOf(o: Option<OrderResult>): real { if o.None? then 0.0 else o.value.gasUsd }

  /** Signed base position of a leg: purchases add, sales remove. */
  function BaseFlow(o: Option<OrderResult>): real {
    if o.None? then 0.0 else if o.value.side.Buy? then o.value.filled else -o.value.filled
  }

  /** How much worse a leg executed than it was quoted, when both prices are known. */
  function Slipped(o: Option<OrderResult>, isBuy: bool): real {
    if o.Some? && o.value.avgPrice.Some? && o.value.avgPrice.value != 0.0 && o.value.quotedPrice.Some? then
      var avg, quoted := o.value.avgPrice.value, o.value.quotedPrice.value;
      (if isBuy then avg - quoted else quoted - avg) * o.value.filled
    else 0.0
  }

  function OutcomeOf(buy: Option<OrderResult>, sell: Option<OrderResult>, hedge: Option<OrderResult>,
                     estimatedNet: real, rate: real, est: Costs): TradeOutcome {
    var gross := (QuoteOf(sell) - QuoteOf(buy) + CashFlow(hedge)) * rate;
    var fees := (FeeOf(buy) + FeeOf(sell) + FeeOf(hedge)) * rate;
    var gas := GasOf(buy) + GasOf(sell) + GasOf(hedge);
    var net := gross - fees - gas;
    TradeOutcome(
      gross, fees, gas, 0.0, net, estimatedNet - net,
      (Slipped(buy, true) + Slipped(sell, false)) * rate,
      fees - (est.buyTradingFee + est.sellTradingFee + est.dexSwapFee),
      gas - (est.gas + est.priorityFee),
      Min(FilledOf(buy), FilledOf(sell) + (if hedge.Some? && hedge.value.side.Sell? then hedge.value.filled else 0.0)),
      Abs(FilledOf(buy) - FilledOf(sell) + BaseFlow(hedge)))
  }

  // --- the two operations ------------------------------------------------------------------------

  method ComputeOutcome(tr: TradeRecord, rate: real, estimated: Option<Costs>) returns (r: Result<TradeOutcome, OutcomeError>)
    ensures tr.events == 0 ==> r == Err(NoEvents)
    ensures tr.events > 0 ==>
              r == Ok(OutcomeOf(tr.buy, tr.sell, tr.hedge, tr.estimatedNet, rate,
                                if estimated.Some? then estimated.value else NO_COSTS))
  {
    hide FillValue, OrderResult.QuoteAmount, Min, Abs, Slipped;
    var bf, bq, bfee, bgas := LegValue(tr.buy);
    var sf, sq, sfee, sgas := LegValue(tr.sell);
    var hf, hq, hfee, hgas := LegValue(tr.hedge);
    var gross := (sq - bq) * rate;
    if tr.hedge.Some? { gross := gross + (if tr.hedge.value.side.Sell? then hq else -hq) * rate; }
    var fees := (bfee + sfee + hfee) * rate;
    var gas := bgas + sgas + hgas;
    if tr.events == 0 { return Err(NoEvents); }
    var funding := 0.0;
    var net := gross - fees - gas - funding;
    var est := if estimated.Some? then estimated.value else NO_COSTS;
    var estFees := est.buyTradingFee + est.sellTradingFee + est.dexSwapFee;
    var estGas := est.gas + est.priorityFee;
    var buySlip := LegSlip(tr.buy, true);
    var sellSlip := LegSlip(tr.sell, false);
    var slipVar := buySlip + sellSlip;
    var hedgedSale := if tr.hedge.Some? && tr.hedge.value.side.Sell? then hf else 0.0;
    var matched := Min(bf, sf + hedgedSale);
    var unmatched := Abs(bf - sf - (if tr.hedge.Some? && tr.hedge.value.side.Sell? then hf
                                     else if tr.hedge.Some? then -hf else 0.0));
    HedgeAdds(sq - bq, CashFlow(tr.hedge), rate);
    ghost var o := OutcomeOf(tr.buy, tr.sell, tr.hedge, tr.estimatedNet, rate, est);
    assert gross == o.actualGross;
    assert fees == o.tradingFees;
    assert slipVar * rate == o.slippageVariance;
    assert matched == o.matchedBase;
    assert unmatched == o.unmatchedBase;
    return Ok(TradeOutcome(gross, fees, gas, funding, net, tr.estimatedNet - net, slipVar * rate, fees - estFees,
                           gas - estGas, matched, unmatched));
  }

  lemma HedgeAdds(a: real, b: real, rate: real)
    ensures (a + b) * rate == a * rate + b * rate
  {
  }

  method LegValue(leg: Option<OrderResult>) returns (filled: real, quote: real, fee: real, gas: real)
    ensures filled == FilledOf(leg) && quote == QuoteOf(leg) && fee == FeeOf(leg) && gas == GasOf(leg)
  {
    if leg.None? { return 0.0, 0.0, 0.0, 0.0; }
    return leg.value.filled, leg.value.QuoteAmount(), leg.value.feeQuote, leg.value.gasUsd;
  }

  /** Realised against quoted price, when both are on record. */
  method LegSlip(leg: Option<OrderResult>, isBuy: bool) returns (slip: real)
    ensures slip == Slipped(leg, isBuy)
  {
    slip := 0.0;
    if leg.Some? && leg.value.avgPrice.Some? && leg.value.avgPrice.value != 0.0 && leg.value.quotedPrice.Some? {
      var worse := if isBuy then leg.value.avgPrice.value - leg.value.quotedPrice.value
                   else leg.value.quotedPrice.value - leg.value.avgPrice.value;
      slip := worse * leg.value.filled;
    }
  }

  method ApplyOutcome(tr: TradeRecord, o: TradeOutcome)
    modifies tr
    ensures tr.actualGross == Some(o.actualGross) && tr.actualFees == Some(o.tradingFees)
    ensures tr.actualGas == Some(o.gas) && tr.actualNet == Some(o.actualNet)
    ensures tr.predictionError == Some(o.predictionError)
    ensures tr.status == if old(tr.status) in {Failed, Aborted, Recovering, Hedged} then old(tr.status)
                         else if o.unmatchedBase == 0.0 then Filled else Partial
    ensures unchanged(tr`sizeBase, tr`estimatedNet, tr`estimatedCosts, tr`buy, tr`sell, tr`hedge, tr`events)
  {
    tr.actualGross := Some(o.actualGross);
    tr.actualFees := Some(o.tradingFees);
    tr.actualGas := Some(o.gas);
    tr.actualNet := Some(o.actualNet);
    tr.predictionError := Some(o.predictionError);
    if tr.status !in {Failed, Aborted, Recovering, Hedged} {
      tr.status := if o.unmatchedBase == 0.0 then Filled else Partial;
    }
  }

  // --- prediction error -------------------------------------------------------------------------

  /** A leg filled for the assessed size, with the quoted price on record and fills that add up to the average. */
  ghost predicate FilledAsAssessed(o: OrderResult, side: Side, size: real, quoted: real) {
    && o.side == side && o.filled == size && o.quotedPrice == Some(quoted)
    && o.avgPrice.Some? && o.avgPrice.value != 0.0
    && o.QuoteAmount() == o.filled * o.avgPrice.value
  }

  /** What better-than-reference quotes and repeated trips make the guard leave out of its estimate. */
  function Improvement(inp: Inputs): real {
    ExecutableNet(inp) - (Gross(inp) - Expected(inp).ExecutionCosts())
  }

  /**
   * The prediction error of any fully filled two-leg trade: the three variances, minus everything the
   * estimate held in reserve, plus the swap fee that fee variance counts a second time, minus the price
   * improvement the estimate ignored.
   */
  lemma PredictionErrorDecomposes(inp: Inputs, buy: OrderResult, sell: OrderResult)
    requires FilledAsAssessed(buy, Buy, Size(inp), inp.buy.avgPrice)
    requires FilledAsAssessed(sell, Sell, Size(inp), inp.sell.avgPrice)
    ensures var e := Expected(inp);
            var o := OutcomeOf(Some(buy), Some(sell), None, ExpectedNet(inp), inp.rate, e);
            o.predictionError == o.slippageVariance + o.feeVariance + o.gasVariance
                                 - e.Reserves() + e.dexSwapFee - Improvement(inp)
  {
    hide Expected;
    var size := Size(inp);
    var e := Expected(inp);
    var o := OutcomeOf(Some(buy), Some(sell), None, ExpectedNet(inp), inp.rate, e);
    ExecutedAgainstQuoted(size, inp.rate, inp.buy.avgPrice, buy.avgPrice.value, inp.sell.avgPrice, sell.avgPrice.value);
    hide FillValue;
    assert o.slippageVariance == ExecutableNet(inp) - o.actualGross;
  }

  lemma ExecutedAgainstQuoted(size: real, rate: real, quotedBuy: real, paid: real, quotedSell: real, got: real)
    ensures ((paid - quotedBuy) * size + (quotedSell - got) * size) * rate
            == size * quotedSell * rate - size * quotedBuy * rate - (size * got - size * paid + 0.0) * rate
  {
    assert (paid - quotedBuy) * size + (quotedSell - got) * size
           == size * quotedSell - size * quotedBuy - (size * got - size * paid);
  }

  /** The plain decomposition holds exactly when the double-counted swap fee and the ignored improvement cancel. */
  lemma PlainDecompositionIff(inp: Inputs, buy: OrderResult, sell: OrderResult)
    requires FilledAsAssessed(buy, Buy, Size(inp), inp.buy.avgPrice)
    requires FilledAsAssessed(sell, Sell, Size(inp), inp.sell.avgPrice)
    ensures var o := OutcomeOf(Some(buy), Some(sell), None, ExpectedNet(inp), inp.rate, Expected(inp));
            o.predictionError == o.slippageVariance + o.feeVariance + o.gasVariance - Expected(inp).Reserves()
            <==> Expected(inp).dexSwapFee == Improvement(inp)
  {
    hide Expected, OutcomeOf, Improvement;
    PredictionErrorDecomposes(inp, buy, sell);
  }

  /**
   * Two order-book legs, adverse quotes, one round trip, nothing transferred or borrowed: the error is the
   * variances minus the four allowances, the maker adjustment and the safety buffer.
   */
  lemma BookTradeDecomposes(inp: Inputs, buy: OrderResult, sell: OrderResult)
    requires FilledAsAssessed(buy, Buy, Size(inp), inp.buy.avgPrice)
    requires FilledAsAssessed(sell, Sell, Size(inp), inp.sell.avgPrice)
    requires !inp.buy.kind.Dex? && !inp.sell.kind.Dex? && inp.flashLoan.None? && inp.roundTrips <= 1
    requires BuyRef(inp) <= BuyExec(inp) && SellExec(inp) <= SellRef(inp)
    requires Known(inp.bridgeFeeUsd) == Known(inp.withdrawalFeeUsd) == Known(inp.depositFeeUsd) == 0.0
    requires inp.fundingCostUsd == 0.0
    ensures var e := Expected(inp);
            var o := OutcomeOf(Some(buy), Some(sell), None, ExpectedNet(inp), inp.rate, e);
            o.predictionError == o.slippageVariance + o.feeVariance + o.gasVariance
              - (e.makerTakerAdjustment + e.rebalanceAllowance + e.latencyAllowance + e.partialFillAllowance
                 + e.failureReserve + e.safetyBuffer)
  {
    hide OutcomeOf, ValueAt, PctOf, Scaled, TradingFee, MakerTaker;
    ExecutionIdentity(inp);
    PredictionErrorDecomposes(inp, buy, sell);
    ScaledZero(Trips(inp));
  }

  /** A SAFE trade whose variances stay within what was held back realises at least the required minimum. */
  lemma SafeTradeRealisesMinimum(inp: Inputs, buy: OrderResult, sell: OrderResult)
    requires FilledAsAssessed(buy, Buy, Size(inp), inp.buy.avgPrice)
    requires FilledAsAssessed(sell, Sell, Size(inp), inp.sell.avgPrice)
    requires Acceptable(inp)
    ensures var e := Expected(inp);
            var o := OutcomeOf(Some(buy), Some(sell), None, ExpectedNet(inp), inp.rate, e);
            o.slippageVariance + o.feeVariance + o.gasVariance + e.dexSwapFee <= e.Reserves() ==>
            o.actualNet >= MinProfit(inp)
  {
    ExecutionIdentity(inp);
    PredictionErrorDecomposes(inp, buy, sell);
    hide Expected, Slipped, ValueAt, AnyUnknown;
  }

  /** A hedge that sells or buys back exactly the imbalance leaves nothing unmatched, and only such a hedge does. */
  lemma HedgeNeutralisesIff(buy: OrderResult, sell: OrderResult, hedge: OrderResult, net: real, rate: real, est: Costs)
    ensures OutcomeOf(Some(buy), Some(sell), Some(hedge), net, rate, est).unmatchedBase == 0.0 <==>
            BaseFlow(Some(hedge)) == sell.filled - buy.filled
  {
  }

  // --- where the money of an outcome comes from ----------------------------------------------------------

  /** The value of fills is the sum of amount times price, in any split. */
  lemma {:induction false} FillValueSplits(a: seq<Fill>, b: seq<Fill>, f: Fill)
    ensures FillValue(a + b) == FillValue(a) + FillValue(b) && FillValue([f]) == f.amount * f.price && FillValue([]) == 0.0
  {
    assert [f][1..] == [];
    if a == [] {
      assert a + b == b;
    } else {
      FillValueSplits(a[1..], b, f);
      assert (a + b)[1..] == a[1..] + b && (a + b)[0] == a[0];
    }
  }

  /** Quote received by a leg that is there, negative where it was paid, fees taken off. */
  function Received(o: Option<OrderResult>, sale: bool): real {
    match o
    case None => 0.0
    case Some(leg) => (if sale then FillValue(leg.fills) else -FillValue(leg.fills)) - leg.feeQuote
  }

  /** The fees of the legs that are there. */
  function FeesPaid(legs: seq<Option<OrderResult>>): real {
    if legs == [] then 0.0
    else (match legs[0] { case Some(leg) => leg.feeQuote case None => 0.0 }) + FeesPaid(legs[1..])
  }

  lemma FeesPaidIs(buy: Option<OrderResult>, sell: Option<OrderResult>, hedge: Option<OrderResult>)
    ensures FeesPaid([buy, sell, hedge]) == FeeOf(buy) + FeeOf(sell) + FeeOf(hedge)
  {
    assert [buy, sell, hedge][1..] == [sell, hedge] && [sell, hedge][1..] == [hedge] && [hedge][1..] == [];
    assert FeesPaid([hedge]) == FeeOf(hedge);
    assert FeesPaid([sell, hedge]) == FeeOf(sell) + FeeOf(hedge);
  }

  /** Fees are those of all legs, at the rate of the trade; no funding is booked here. */
  lemma FeesAddUp(buy: Option<OrderResult>, sell: Option<OrderResult>, hedge: Option<OrderResult>, net: real, rate: real, est: Costs)
    ensures var o := OutcomeOf(buy, sell, hedge, net, rate, est);
            o.tradingFees == Scaled(FeesPaid([buy, sell, hedge]), rate) && o.funding == 0.0
  {
    hide FillValue, Slipped, Min, Abs, FeesPaid, FeeOf, QuoteOf, CashFlow, FilledOf, BaseFlow, GasOf;
    FeesPaidIs(buy, sell, hedge);
  }

  function GasSpent(buy: Option<OrderResult>, sell: Option<OrderResult>, hedge: Option<OrderResult>): real {
    (if buy.Some? then buy.value.gasUsd else 0.0) + (if sell.Some? then sell.value.gasUsd else 0.0)
    + (if hedge.Some? then hedge.value.gasUsd else 0.0)
  }

  /** The net of any trade: what sale, purchase and hedge brought in and cost, the hedge by its own side, less all gas. */
  lemma NetIsReceived(buy: Option<OrderResult>, sell: Option<OrderResult>, hedge: Option<OrderResult>, estimatedNet: real, rate: real, est: Costs)
    ensures var o := OutcomeOf(buy, sell, hedge, estimatedNet, rate, est);
            && o.actualNet == Scaled(Received(sell, true) + Received(buy, false) + Received(hedge, hedge.Some? && hedge.value.side.Sell?), rate)
                              - GasSpent(buy, sell, hedge)
            && o.actualNet == o.actualGross - o.tradingFees - o.gas && o.predictionError == estimatedNet - o.actualNet
            && o.feeVariance == o.tradingFees - est.buyTradingFee - est.sellTradingFee - est.dexSwapFee
            && o.gasVariance == o.gas - est.gas - est.priorityFee && o.gas == GasSpent(buy, sell, hedge)
  {
    hide FillValue, Scaled, Slipped, Min, Abs;
    ReceivedIs(buy, sell, hedge);
    hide Received, QuoteOf, FeeOf, CashFlow;
    NetTimesRate(QuoteOf(sell) - QuoteOf(buy) + CashFlow(hedge), FeeOf(buy) + FeeOf(sell) + FeeOf(hedge),
                 Received(sell, true) + Received(buy, false) + Received(hedge, hedge.Some? && hedge.value.side.Sell?), rate);
  }

  lemma ReceivedIs(buy: Option<OrderResult>, sell: Option<OrderResult>, hedge: Option<OrderResult>)
    ensures QuoteOf(sell) - QuoteOf(buy) + CashFlow(hedge) - (FeeOf(buy) + FeeOf(sell) + FeeOf(hedge))
            == Received(sell, true) + Received(buy, false) + Received(hedge, hedge.Some? && hedge.value.side.Sell?)
  {
    hide FillValue;
  }

  lemma NetTimesRate(gross: real, fees: real, net: real, rate: real)
    requires net == gross - fees
    ensures gross * rate - fees * rate == Scaled(net, rate)
  {
  }

  /**
   * A purchase sold only in part, the rest sold by the hedge: nothing stays unmatched, all of the purchase is matched, and
   * the hedge adds its value and takes its fee and gas.
   */
  lemma HedgedSale(buy: OrderResult, sell: OrderResult, hedge: OrderResult, net: real, rate: real, est: Costs)
    requires hedge.side.Sell? && hedge.filled == buy.filled - sell.filled
    ensures var with_, without := OutcomeOf(Some(buy), Some(sell), Some(hedge), net, rate, est), OutcomeOf(Some(buy), Some(sell), None, net, rate, est);
            && with_.unmatchedBase == 0.0 && with_.matchedBase == buy.filled
            && with_.actualNet - without.actualNet == Scaled(FillValue(hedge.fills) - hedge.feeQuote, rate) - hedge.gasUsd
  {
    hide FillValue;
    NetIsReceived(Some(buy), Some(sell), Some(hedge), net, rate, est);
    NetIsReceived(Some(buy), Some(sell), None, net, rate, est);
    var base := Received(Some(sell), true) + Received(Some(buy), false);
    ScaledSum(base + (FillValue(hedge.fills) - hedge.feeQuote), base, rate);
    assert base + 0.0 == base;
    hide Scaled;
  }

  /** No price on record on either side of a comparison, or an average of zero, which counts as none. */
  predicate Unpriced(o: OrderResult) { o.avgPrice in {None, Some(0.0)} || o.quotedPrice.None? }

  /** A leg that never came about leaves the other one unmatched, and neither it nor an unpriced leg has any slippage. */
  lemma MissingLeg(leg: OrderResult, net: real, rate: real, est: Costs)
    requires leg.filled >= 0.0
    ensures var bought, sold := OutcomeOf(Some(leg), None, None, net, rate, est), OutcomeOf(None, Some(leg), None, net, rate, est);
            && bought.matchedBase == sold.matchedBase == 0.0 && bought.unmatchedBase == sold.unmatchedBase == leg.filled
            && bought.slippageVariance == -sold.slippageVariance
            && (Unpriced(leg) ==> bought.slippageVariance == 0.0)
  {
    hide FillValue;
    SlipsMirror(leg);
    Opposite(Slipped(Some(leg), true), Slipped(Some(leg), false), rate);
  }

  lemma SlipsMirror(leg: OrderResult)
    ensures Slipped(Some(leg), true) == -Slipped(Some(leg), false)
  {
  }

  lemma Opposite(a: real, b: real, rate: real)
    requires a == -b
    ensures (a + 0.0) * rate == -((0.0 + b) * rate)
  {
  }

  /** Without a hedge the matched and the unmatched base make up the larger leg. */
  lemma MatchedAndUnmatched(buy: OrderResult, sell: OrderResult, net: real, rate: real, est: Costs)
    ensures var o := OutcomeOf(Some(buy), Some(sell), None, net, rate, est);
            && o.matchedBase + o.unmatchedBase == Max(buy.filled, sell.filled) && o.unmatchedBase >= 0.0
            && o.matchedBase <= buy.filled && o.matchedBase <= sell.filled
  {
  }
}
