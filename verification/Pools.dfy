/** The synthetic constant-product pool, with exact reals in place of floats and of the final rounding. */
module Pools {
  import opened Wrappers
  import opened Money
  import opened Walking
  import opened Settings
  import opened ProfitGuards
  import opened ProfitTheorems

  datatype Pool = Pool(spot: real, liquidityUsd: real, feePct: real) {
    function ReserveQuote(): real { liquidityUsd / 2.0 }

    function ReserveBase(): real
      requires spot > 0.0
    {
      ReserveQuote() / spot
    }

    function Fee(): real { feePct / 100.0 }

    ghost predicate Valid() { spot > 0.0 && liquidityUsd > 0.0 && 0.0 <= feePct < 100.0 }
  }

  datatype PoolQuote = PoolQuote(quoteAmount: real, avgPrice: real, reference: real, impactPct: real, feePct: real)

  datatype PoolError = InsufficientLiquidity

  /** Constant-product input for `amt` base out of the reserves, before the fee is added: `rq * amt / (rb - amt)`. */
  function SwapIn(rq: real, rb: real, amt: real): real
    requires amt < rb
  {
    rq * amt / (rb - amt)
  }

  /** Constant-product output for `net` base put in. */
  function SwapOut(rq: real, rb: real, net: real): real
    requires rb + net > 0.0
  {
    rq * net / (rb + net)
  }

  /** Quote paid for `amt` base, with the fee taken from the input. */
  function QuoteIn(p: Pool, amt: real): real
    requires p.Valid() && amt < p.ReserveBase()
  {
    SwapIn(p.ReserveQuote(), p.ReserveBase(), amt) / (1.0 - p.Fee())
  }

  /** What the fee leaves of an input of `amt` base. */
  function Kept(p: Pool, amt: real): real { Scaled(amt, 1.0 - p.Fee()) }

  lemma KeptOf(p: Pool, amt: real)
    requires p.Valid() && 0.0 <= amt
    ensures 0.0 <= Kept(p, amt) <= amt && (amt > 0.0 ==> Kept(p, amt) > 0.0)
    ensures 0.0 < 1.0 - p.Fee() <= 1.0
  {
    hide Scaled;
    ShareOf(amt, 1.0 - p.Fee());
  }

  lemma ShareOf(x: real, share: real)
    requires 0.0 <= x && 0.0 < share <= 1.0
    ensures 0.0 <= Scaled(x, share) <= x && (x > 0.0 ==> Scaled(x, share) > 0.0)
  {
    MulNonNeg(x, share);
    MulMono(share, 1.0, x);
    if x > 0.0 { MulStrict(0.0, x, share); }
  }

  /** Quote received for `amt` base, with the fee taken from the input. */
  function QuoteOut(p: Pool, amt: real): real
    requires p.Valid() && amt >= 0.0
  {
    PositiveReserves(p);
    KeptOf(p, amt);
    SwapOut(p.ReserveQuote(), p.ReserveBase(), Kept(p, amt))
  }

  lemma PositiveReserves(p: Pool)
    requires p.Valid()
    ensures p.ReserveQuote() > 0.0 && p.ReserveBase() > 0.0 && p.ReserveBase() * p.spot == p.ReserveQuote()
  {
  }

  /** How far `price` lies above the spot price, in percent. */
  function Above(price: real, spot: real): real
    requires spot > 0.0
  {
    (price - spot) / spot * 100.0
  }

  function DexQuote(p: Pool, side: Side, amt: real): Result<PoolQuote, PoolError>
    requires p.Valid() && amt > 0.0
  {
    PositiveReserves(p);
    if side.Buy? then
      if amt >= p.ReserveBase() * 0.5 then Err(InsufficientLiquidity)
      else
        var eff := QuoteIn(p, amt) / amt;
        var impact := Above(eff * (1.0 - p.Fee()), p.spot);
        Ok(PoolQuote(QuoteIn(p, amt), eff, p.spot, Max(0.0, impact), p.feePct))
    else
      var eff := QuoteOut(p, amt) / amt;
      var impact := -Above(eff / (1.0 - p.Fee()), p.spot);
      Ok(PoolQuote(QuoteOut(p, amt), eff, p.spot, Max(0.0, impact), p.feePct))
  }

  // --- the pool's own law ---------------------------------------------------------------------

  /** A purchase keeps the product of the reserves, counting the input net of the fee. */
  lemma BuyKeepsProduct(p: Pool, amt: real)
    requires p.Valid() && 0.0 < amt < p.ReserveBase()
    ensures (p.ReserveQuote() + QuoteIn(p, amt) * (1.0 - p.Fee())) * (p.ReserveBase() - amt)
            == p.ReserveQuote() * p.ReserveBase()
  {
    ProductAfterBuy(p.ReserveQuote(), p.ReserveBase(), amt, 1.0 - p.Fee());
  }

  lemma ProductAfterBuy(rq: real, rb: real, amt: real, keep: real)
    requires 0.0 < amt < rb && 0.0 < keep
    ensures (rq + SwapIn(rq, rb, amt) / keep * keep) * (rb - amt) == rq * rb
  {
    var gross := SwapIn(rq, rb, amt);
    assert gross / keep * keep == gross;
    assert gross * (rb - amt) == rq * amt;
    assert (rq + gross) * (rb - amt) == rq * (rb - amt) + gross * (rb - amt);
    assert rq * (rb - amt) + rq * amt == rq * rb;
  }

  /** So does a sale. */
  lemma SellKeepsProduct(p: Pool, amt: real)
    requires p.Valid() && 0.0 < amt
    ensures (p.ReserveBase() + Kept(p, amt)) * (p.ReserveQuote() - QuoteOut(p, amt)) == p.ReserveQuote() * p.ReserveBase()
  {
    PositiveReserves(p);
    KeptOf(p, amt);
    hide Kept;
    ProductAfterSell(p.ReserveQuote(), p.ReserveBase(), Kept(p, amt));
  }

  lemma ProductAfterSell(rq: real, rb: real, net: real)
    requires rb + net > 0.0
    ensures (rb + net) * (rq - SwapOut(rq, rb, net)) == rq * rb
  {
    var out := SwapOut(rq, rb, net);
    assert out * (rb + net) == rq * net;
    assert (rb + net) * (rq - out) == rq * (rb + net) - out * (rb + net);
    assert rq * (rb + net) == rq * rb + rq * net;
  }

  /** Buying some base and selling the same amount at the pool's quotes always loses. */
  lemma RoundTripLoses(p: Pool, amt: real)
    requires p.Valid() && 0.0 < amt < p.ReserveBase()
    ensures QuoteOut(p, amt) < QuoteIn(p, amt)
  {
    hide SwapIn, SwapOut, Kept, Pool.Fee, Pool.ReserveBase, Pool.ReserveQuote;
    KeptOf(p, amt);
    PositiveReserves(p);
    TripLoses(p.ReserveQuote(), p.ReserveBase(), amt, Kept(p, amt), 1.0 - p.Fee());
  }

  lemma TripLoses(rq: real, rb: real, amt: real, net: real, keep: real)
    requires 0.0 < rq && 0.0 < net <= amt < rb && 0.0 < keep <= 1.0
    ensures SwapOut(rq, rb, net) < SwapIn(rq, rb, amt) / keep
  {
    var value, spent, got := rq * amt, SwapIn(rq, rb, amt), SwapOut(rq, rb, net);
    QuotientBack(value, rb - amt);
    QuotientBack(rq * net, rb + net);
    MulStrict(0.0, rq, amt);
    MulMono(net, amt, rq);
    LargerDenominator(got, rb + net, spent, rb - amt, value);
    MulNonNegFactor(spent, rb - amt, value);
    GrossUp(spent, keep);
  }

  lemma GrossUp(spent: real, keep: real)
    requires spent > 0.0 && 0.0 < keep <= 1.0
    ensures spent <= spent / keep
  {
    QuotientBack(spent, keep);
    if spent / keep < spent { MulStrict(spent / keep, spent, keep); MulMono(keep, 1.0, spent); }
  }

  lemma MulNonNegFactor(y: real, e: real, value: real)
    requires 0.0 < e && 0.0 < value && y * e == value
    ensures y > 0.0
  {
    if y <= 0.0 { MulMono(y, 0.0, e); }
  }

  lemma LargerDenominator(x: real, d: real, y: real, e: real, value: real)
    requires 0.0 < e < d && 0.0 < value && x * d <= value && y * e == value
    ensures x < y
  {
    if y <= x {
      MulNonNegFactor(y, e, value);
      MulStrict(e, d, y);
      MulMono(y, x, d);
    }
  }

  // --- what the Profit Guard attributes to a pool leg ------------------------------------------

  /** Relative price impact of a purchase and of a sale. */
  function BuyImpact(p: Pool, amt: real): real
    requires p.Valid() && 0.0 <= amt < p.ReserveBase()
  {
    amt / (p.ReserveBase() - amt)
  }

  function SellImpact(p: Pool, amt: real): real
    requires p.Valid() && 0.0 <= amt
  {
    PositiveReserves(p);
    KeptOf(p, amt);
    Kept(p, amt) / (p.ReserveBase() + Kept(p, amt))
  }

  /** The quoted purchase price is the spot price raised by impact and fee. */
  lemma BuyQuoted(p: Pool, amt: real)
    requires p.Valid() && 0.0 < amt < p.ReserveBase() * 0.5
    ensures amt < p.ReserveBase() && BuyImpact(p, amt) > 0.0
    ensures var q := DexQuote(p, Buy, amt);
            && q.Ok? && q.value.reference == p.spot
            && q.value.avgPrice * (1.0 - p.Fee()) == p.spot * (1.0 + BuyImpact(p, amt))
            && q.value.impactPct == BuyImpact(p, amt) * 100.0
  {
    PositiveReserves(p);
    var keep, i := 1.0 - p.Fee(), BuyImpact(p, amt);
    hide Above, QuoteIn, BuyImpact;
    BuyPriceOf(p, amt);
    ImpactBack(p.spot, i);
    var top := p.spot * (1.0 + i);
    assert Above(top, p.spot) == i * 100.0;
    assert DexQuote(p, Buy, amt).value.impactPct == Max(0.0, Above(top, p.spot));
    assert i * 100.0 >= 0.0;
    assert DexQuote(p, Buy, amt).value.impactPct == i * 100.0;
  }

  lemma BuyPriceOf(p: Pool, amt: real)
    requires p.Valid() && 0.0 < amt < p.ReserveBase()
    ensures BuyImpact(p, amt) > 0.0
    ensures QuoteIn(p, amt) / amt * (1.0 - p.Fee()) == p.spot * (1.0 + BuyImpact(p, amt))
  {
    PositiveReserves(p);
    var rq, rb, keep, i := p.ReserveQuote(), p.ReserveBase(), 1.0 - p.Fee(), BuyImpact(p, amt);
    var gross := SwapIn(rq, rb, amt);
    var paid := QuoteIn(p, amt);
    var eff := paid / amt;
    QuotientBack(rq * amt, rb - amt);
    QuotientBack(gross, keep);
    QuotientBack(paid, amt);
    QuotientBack(amt, rb - amt);
    BuyPrice(rq, rb, p.spot, amt, keep, i, gross, paid, eff);
  }

  lemma QuotientBack(a: real, b: real)
    requires b != 0.0
    ensures a / b * b == a
  {
  }

  lemma BuyPrice(rq: real, rb: real, spot: real, amt: real, keep: real, i: real, gross: real, paid: real, eff: real)
    requires 0.0 < amt < rb && 0.0 < keep && rb * spot == rq && i * (rb - amt) == amt
    requires gross * (rb - amt) == rq * amt && paid * keep == gross && eff * amt == paid
    ensures i > 0.0
    ensures eff * keep == spot * (1.0 + i)
  {
    if i <= 0.0 { MulMono(i, 0.0, rb - amt); }
    assert rq * i * (rb - amt) == rq * amt;
    ScaledCompare(gross, rq * i, rb - amt);
    assert eff * keep * amt == rq * i;
    ImpactTimes(rq, rb, spot, amt, i);
    ScaledCompare(eff * keep, spot * (1.0 + i), amt);
  }

  lemma ImpactTimes(rq: real, rb: real, spot: real, amt: real, i: real)
    requires 0.0 < amt < rb && rb * spot == rq && i * (rb - amt) == amt
    ensures spot * (1.0 + i) * amt == rq * i
  {
    assert amt * (1.0 + i) == i * rb by { assert amt == i * rb - i * amt; }
    assert spot * (1.0 + i) * amt == spot * (amt * (1.0 + i));
    assert spot * (i * rb) == rb * spot * i;
  }

  lemma ImpactBack(spot: real, i: real)
    requires spot > 0.0
    ensures Above(spot * (1.0 + i), spot) == i * 100.0
  {
    assert spot * (1.0 + i) - spot == i * spot;
    assert i * spot / spot == i;
  }

  /** The quoted sale price is the spot price lowered by impact and fee. */
  lemma SellQuoted(p: Pool, amt: real)
    requires p.Valid() && 0.0 < amt
    ensures 0.0 < SellImpact(p, amt) < 1.0
    ensures var q := DexQuote(p, Sell, amt);
            && q.Ok? && q.value.reference == p.spot
            && q.value.avgPrice == p.spot * (1.0 - SellImpact(p, amt)) * (1.0 - p.Fee())
            && q.value.impactPct == SellImpact(p, amt) * 100.0
  {
    PositiveReserves(p);
    SellPriceOf(p, amt);
    hide Above, QuoteOut, SellImpact;
    var j, eff := SellImpact(p, amt), QuoteOut(p, amt) / amt;
    BeforeFee(p.spot, j, 1.0 - p.Fee(), eff);
    assert j * 100.0 >= 0.0;
  }

  lemma BeforeFee(spot: real, j: real, keep: real, eff: real)
    requires spot > 0.0 && keep > 0.0 && eff == spot * (1.0 - j) * keep
    ensures -Above(eff / keep, spot) == j * 100.0
  {
    var top := spot * (1.0 - j);
    QuotientBack(eff, keep);
    ScaledCompare(eff / keep, top, keep);
    ImpactBack(spot, -j);
    assert 1.0 + -j == 1.0 - j;
  }

  lemma SellPriceOf(p: Pool, amt: real)
    requires p.Valid() && 0.0 < amt
    ensures 0.0 < SellImpact(p, amt) < 1.0
    ensures QuoteOut(p, amt) / amt == p.spot * (1.0 - SellImpact(p, amt)) * (1.0 - p.Fee())
  {
    PositiveReserves(p);
    var rq, rb, keep, j := p.ReserveQuote(), p.ReserveBase(), 1.0 - p.Fee(), SellImpact(p, amt);
    var net, got := Kept(p, amt), QuoteOut(p, amt);
    KeptOf(p, amt);
    QuotientBack(rq * net, rb + net);
    QuotientBack(net, rb + net);
    QuotientBack(got, amt);
    SellPrice(rq, rb, p.spot, amt, keep, net, j, got, got / amt);
  }

  lemma SellPrice(rq: real, rb: real, spot: real, amt: real, keep: real, net: real, j: real, got: real, eff: real)
    requires 0.0 < amt && 0.0 < rb && 0.0 < net && rb * spot == rq && net == amt * keep
    requires j * (rb + net) == net && got * (rb + net) == rq * net && eff * amt == got
    ensures 0.0 < j < 1.0
    ensures eff == spot * (1.0 - j) * keep
  {
    if j <= 0.0 { MulMono(j, 0.0, rb + net); }
    if 1.0 <= j { MulMono(1.0, j, rb + net); }
    ScaledCompare(got, rq * j, rb + net);
    assert rq * j * (rb + net) == rq * net by { assert rq * j * (rb + net) == rq * (j * (rb + net)); }
    assert (1.0 - j) * net == j * rb by { assert j * (rb + net) == j * rb + j * net; assert (1.0 - j) * net == net - j * net; }
    assert spot * ((1.0 - j) * net) == rq * j by { assert spot * (j * rb) == rb * spot * j; }
    assert spot * (1.0 - j) * keep * amt == spot * ((1.0 - j) * net);
    ScaledCompare(eff, spot * (1.0 - j) * keep, amt);
  }

  /** The leg the simulated venue hands to the guard. */
  function PoolLeg(p: Pool, side: Side, amt: real, venue: string, chain: Option<string>): (leg: ExecutionQuote)
    requires p.Valid() && amt > 0.0 && DexQuote(p, side, amt).Ok?
  {
    var q := DexQuote(p, side, amt).value;
    ExecutionQuote(venue, Dex, chain, amt, q.quoteAmount, q.avgPrice, q.reference, 0.0, q.impactPct, true, 0,
                   Some(q.feePct), None, false, None)
  }

  /**
   * On a purchase the guard attributes the full fee and the full price impact; what is left over is the
   * fee charged on fee and impact, ref * f(f+i)/(1-f), and it is never negative.
   */
  lemma PoolBuyAttribution(inp: Inputs, p: Pool, amt: real, venue: string, chain: Option<string>)
    requires p.Valid() && 0.0 < amt < p.ReserveBase() * 0.5 && DexQuote(p, Buy, amt).Ok? && amt < p.ReserveBase()
    requires inp.buy == PoolLeg(p, Buy, amt, venue, chain) && Size(inp) >= 0.0 && inp.rate >= 0.0
    ensures var l, n, f, i := BuyLeg(inp), BuyRef(inp), p.Fee(), BuyImpact(p, amt);
            && l.swapFee == PctOf(n, inp.buy.feePct.value)
            && l.impact == PctOf(n, inp.buy.priceImpactPct)
            && l.slip >= 0.0 && l.slip * (1.0 - f) == n * f * (f + i)
  {
    BuyQuoted(p, amt);
    BuyValues(inp, p, amt, venue, chain);
    hide DexQuote, BuyImpact, QuoteIn, ValueAt, PctOf, Size;
    var n, f, i := BuyRef(inp), p.Fee(), BuyImpact(p, amt);
    FeeThenImpact(n, BuyExec(inp) - n, f, i);
    PctOfFraction(n, f);
    PctOfFraction(n, i);
  }

  /** The deviation of a pool purchase, in the value terms the guard works in. */
  lemma BuyValues(inp: Inputs, p: Pool, amt: real, venue: string, chain: Option<string>)
    requires p.Valid() && 0.0 < amt < p.ReserveBase() * 0.5 && DexQuote(p, Buy, amt).Ok? && amt < p.ReserveBase()
    requires inp.buy == PoolLeg(p, Buy, amt, venue, chain) && Size(inp) >= 0.0 && inp.rate >= 0.0
    ensures BuyRef(inp) >= 0.0
    ensures (BuyExec(inp) - BuyRef(inp)) * (1.0 - p.Fee()) == BuyRef(inp) * (BuyImpact(p, amt) + p.Fee())
  {
    BuyQuoted(p, amt);
    hide DexQuote, BuyImpact, QuoteIn, Size, Pool.Fee, ValueAt;
    var f, i := p.Fee(), BuyImpact(p, amt);
    assert 1.0 - f + (i + f) == 1.0 + i;
    ValueScaled(inp, inp.buy.avgPrice, p.spot, 1.0 - f, i + f);
  }

  /** Prices related by a factor give values related by the same factor. */
  lemma ValueScaled(inp: Inputs, avg: real, spot: real, keep: real, extra: real)
    requires avg * keep == spot * (keep + extra) && Size(inp) >= 0.0 && inp.rate >= 0.0 && spot >= 0.0
    ensures ValueAt(inp, spot) >= 0.0
    ensures (ValueAt(inp, avg) - ValueAt(inp, spot)) * keep == ValueAt(inp, spot) * extra
  {
    hide Size;
    ValueNonNeg(Size(inp), spot, inp.rate);
    DeviationScaled(Size(inp), avg, spot, inp.rate, keep, extra);
  }

  lemma ValueTimes(inp: Inputs, spot: real, a: real, b: real)
    requires Size(inp) >= 0.0 && inp.rate >= 0.0 && spot >= 0.0
    ensures ValueAt(inp, spot) >= 0.0
    ensures ValueAt(inp, spot * a * b) == ValueAt(inp, spot) * (a * b)
  {
    hide Size;
    ValueNonNeg(Size(inp), spot, inp.rate);
    ValueFactored(Size(inp), spot, inp.rate, a, b);
  }

  lemma PctOfFraction(n: real, f: real)
    ensures PctOf(n, f * 100.0) == n * f
  {
  }

  lemma DeviationScaled(size: real, avg: real, spot: real, rate: real, keep: real, extra: real)
    requires avg * keep == spot * (keep + extra)
    ensures (size * avg * rate - size * spot * rate) * keep == size * spot * rate * extra
  {
    var weight := size * rate;
    assert size * avg * rate * keep == weight * (avg * keep);
    assert size * spot * rate == weight * spot;
    assert weight * (spot * (keep + extra)) == weight * spot * keep + weight * spot * extra;
  }

  lemma FeeThenImpact(n: real, raw: real, f: real, i: real)
    requires n >= 0.0 && 0.0 <= f < 1.0 && i >= 0.0 && raw * (1.0 - f) == n * (i + f)
    ensures raw >= 0.0 && raw - n * f >= n * i
    ensures n * f >= 0.0 && n * i >= 0.0
    ensures (raw - n * f - n * i) * (1.0 - f) == n * f * (f + i)
  {
    MulNonNeg(n, f);
    MulNonNeg(n, i);
    MulNonNeg(n * f, f + i);
    assert (n * f + n * i) * (1.0 - f) == n * (i + f) - n * f * (f + i);
    var rest := raw - n * f - n * i;
    assert rest * (1.0 - f) == raw * (1.0 - f) - (n * f + n * i) * (1.0 - f);
    if rest < 0.0 { MulStrict(rest, 0.0, 1.0 - f); }
  }

  /** On a sale the fee and the impact on what the fee leaves explain the whole deviation. */
  lemma PoolSellAttribution(inp: Inputs, p: Pool, amt: real, venue: string, chain: Option<string>)
    requires p.Valid() && 0.0 < amt && DexQuote(p, Sell, amt).Ok?
    requires inp.sell == PoolLeg(p, Sell, amt, venue, chain) && Size(inp) >= 0.0 && inp.rate >= 0.0
    ensures var l, n, f, j := SellLeg(inp), SellRef(inp), p.Fee(), SellImpact(p, amt);
            && l.swapFee == PctOf(n, inp.sell.feePct.value)
            && l.impact == n * j * (1.0 - f)
            && l.slip == 0.0
  {
    SellQuoted(p, amt);
    SellValues(inp, p, amt, venue, chain);
    hide DexQuote, SellImpact, QuoteOut, ValueAt, PctOf, Size;
    var n, f, j := SellRef(inp), p.Fee(), SellImpact(p, amt);
    FeeThenRest(n, SellExec(inp), f, j);
    PctOfFraction(n, f);
    PctOfFraction(n, j);
  }

  lemma SellValues(inp: Inputs, p: Pool, amt: real, venue: string, chain: Option<string>)
    requires p.Valid() && 0.0 < amt && DexQuote(p, Sell, amt).Ok?
    requires inp.sell == PoolLeg(p, Sell, amt, venue, chain) && Size(inp) >= 0.0 && inp.rate >= 0.0
    ensures SellRef(inp) >= 0.0
    ensures SellExec(inp) == SellRef(inp) * ((1.0 - SellImpact(p, amt)) * (1.0 - p.Fee()))
  {
    SellQuoted(p, amt);
    hide DexQuote, SellImpact, QuoteOut, Size, Pool.Fee, ValueAt;
    var a, b := 1.0 - SellImpact(p, amt), 1.0 - p.Fee();
    assert inp.sell.avgPrice == p.spot * a * b && inp.sell.referencePrice == p.spot;
    ValueTimes(inp, p.spot, a, b);
  }

  lemma ValueFactored(size: real, spot: real, rate: real, a: real, b: real)
    ensures size * (spot * a * b) * rate == size * spot * rate * (a * b)
  {
  }

  lemma FeeThenRest(n: real, exec: real, f: real, j: real)
    requires n >= 0.0 && 0.0 <= f < 1.0 && 0.0 < j < 1.0 && exec == n * ((1.0 - j) * (1.0 - f))
    ensures n - exec == n * f + n * j * (1.0 - f)
    ensures 0.0 <= n * f && 0.0 <= n * j * (1.0 - f) <= n * j
  {
    assert (1.0 - j) * (1.0 - f) == 1.0 - f - j * (1.0 - f);
    assert n * (1.0 - f - j * (1.0 - f)) == n - n * f - n * j * (1.0 - f);
    MulNonNeg(n, f);
    MulNonNeg(n, j);
    MulNonNeg(n * j, 1.0 - f);
    MulMono(1.0 - f, 1.0, n * j);
  }

  /** A purchase is refused from a quarter of the pool's liquidity on, at the spot price; a sale never is. */
  lemma RefusedIff(p: Pool, side: Side, amt: real)
    requires p.Valid() && amt > 0.0
    ensures DexQuote(p, side, amt).Err? <==> side.Buy? && 4.0 * amt * p.spot >= p.liquidityUsd
  {
    PositiveReserves(p);
    var rb := p.ReserveBase();
    ScaledCompare(rb * 0.5, amt, p.spot);
    assert rb * 0.5 * p.spot == p.liquidityUsd / 4.0;
    hide QuoteIn, QuoteOut, Above;
  }

  /** The impact of a purchase from the liquidity alone, and what the guard is told of either leg. */
  lemma LegOfPool(p: Pool, side: Side, amt: real, venue: string, chain: Option<string>)
    requires p.Valid() && amt > 0.0 && DexQuote(p, side, amt).Ok?
    ensures var leg := PoolLeg(p, side, amt, venue, chain);
            && leg.kind == Dex && leg.venue == venue && leg.chain == chain && leg.baseAmount == amt && leg.fullyFillable && leg.ageMs == 0 && !leg.isMaker
            && leg.slippagePct == 0.0 && leg.feePct == Some(p.feePct) && leg.referencePrice == p.spot
            && leg.avgPrice * amt == leg.quoteAmount
            && (side.Buy? ==> leg.priceImpactPct * (p.liquidityUsd - 2.0 * amt * p.spot) == 200.0 * amt * p.spot)
  {
    PositiveReserves(p);
    if side.Buy? {
      BuyQuoted(p, amt);
      ImpactOfLiquidity(p.ReserveBase(), p.spot, p.liquidityUsd, amt, BuyImpact(p, amt));
      QuotientBack(QuoteIn(p, amt), amt);
    } else {
      QuotientBack(QuoteOut(p, amt), amt);
    }
    hide QuoteIn, QuoteOut, Above, BuyImpact;
  }

  lemma ImpactOfLiquidity(rb: real, spot: real, liquidity: real, amt: real, i: real)
    requires rb * spot == liquidity / 2.0 && amt < rb && i == amt / (rb - amt)
    ensures i * 100.0 * (liquidity - 2.0 * amt * spot) == 200.0 * amt * spot
  {
    assert liquidity - 2.0 * amt * spot == 2.0 * (rb - amt) * spot;
    assert i * (rb - amt) == amt;
    assert i * 100.0 * (2.0 * (rb - amt) * spot) == 200.0 * (i * (rb - amt)) * spot;
  }
}
