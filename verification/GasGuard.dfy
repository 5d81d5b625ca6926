/** GAS GUARD: on-chain cost estimates, fee regimes and the merged verdict of several on-chain legs. */
module GasGuards {
  import opened Wrappers
  import opened Money
  import opened Settings
  import opened ProfitGuards
  import opened ProfitTheorems

  const GIGA := 1000000000.0

  datatype GasSnapshot = GasSnapshot(
    chain: string,
    solana: bool,
    gasPriceNative: real,
    priorityFeeNative: real,
    nativeUsd: real,
    l1DataFeeUsd: real,
    baseFeeLamports: real,
    ageMs: int)

  /** Compute units, falling back to the gas limit and then to 200000 when a value is missing or 0. */
  function ComputeUnits(computeUnits: Option<nat>, gasLimit: nat): nat {
    if computeUnits.Some? && computeUnits.value != 0 then computeUnits.value
    else if gasLimit != 0 then gasLimit
    else 200000
  }

  /** USD value of `amount` billionths of the native token. */
  function NativeUsd(s: GasSnapshot, amount: real): real { amount / GIGA * s.nativeUsd }

  /** Price per unit times units, in billionths of the native token. */
  function Lamports(pricePerUnit: real, units: nat): real { pricePerUnit * units as real }

  function EstimateCostUsd(s: GasSnapshot, gasLimit: nat, computeUnits: Option<nat>): real {
    if s.solana then
      NativeUsd(s, s.baseFeeLamports + Lamports(s.priorityFeeNative, ComputeUnits(computeUnits, gasLimit)))
    else NativeUsd(s, Lamports(s.gasPriceNative, gasLimit)) + s.l1DataFeeUsd
  }

  function PriorityUsd(s: GasSnapshot, gasLimit: nat, computeUnits: Option<nat>): real {
    NativeUsd(s, Lamports(s.priorityFeeNative, if s.solana then ComputeUnits(computeUnits, gasLimit) else gasLimit))
  }

  function RegimeAt(g: GasSettings, baseline: Option<real>, gasPrice: real): GasRegime {
    if baseline.None? || baseline.value <= 0.0 then Normal
    else
      var ratio := gasPrice / baseline.value;
      if ratio >= g.extremeMultiple then Extreme
      else if ratio >= g.highMultiple then High
      else if ratio >= g.elevatedMultiple then Elevated
      else Normal
  }

  function Rank(r: GasRegime): nat {
    match r case Normal => 0 case Elevated => 1 case High => 2 case Extreme => 3
  }

  class GasBaseline {
    const alpha: real
    var baseline: map<string, real>

    constructor (weight: real)
      ensures alpha == weight && baseline == map[]
    {
      alpha, baseline := weight, map[];
    }

    method Update(chain: string, gasPrice: real) returns (value: real)
      modifies this
      ensures baseline == old(baseline)[chain := value]
      ensures chain !in old(baseline) ==> value == gasPrice
      ensures chain in old(baseline) ==> value - old(baseline[chain]) == Scaled(gasPrice - old(baseline[chain]), alpha)
      ensures chain in old(baseline) && 0.0 <= alpha <= 1.0 ==>
                Min(old(baseline[chain]), gasPrice) <= value <= Max(old(baseline[chain]), gasPrice)
    {
      if chain !in baseline {
        value := gasPrice;
      } else {
        var prev := baseline[chain];
        value := prev * (1.0 - alpha) + gasPrice * alpha;
        if 0.0 <= alpha <= 1.0 { BlendBetween(prev, gasPrice, alpha); }
      }
      baseline := baseline[chain := value];
    }

    method Seed(chain: string, value: real)
      modifies this
      ensures baseline == old(baseline)[chain := value]
    {
      baseline := baseline[chain := value];
    }
  }

  /** The blend of two values lies between them. */
  lemma BlendBetween(a: real, b: real, w: real)
    requires 0.0 <= w <= 1.0
    ensures Min(a, b) <= a * (1.0 - w) + b * w <= Max(a, b)
  {
    BlendOf(Min(a, b), a, b, Max(a, b), 1.0 - w, w);
  }

  lemma BlendOf(low: real, a: real, b: real, high: real, v: real, w: real)
    requires 0.0 <= v && 0.0 <= w && v + w == 1.0
    requires low <= a <= high && low <= b <= high
    ensures low <= Scaled(a, v) + Scaled(b, w) <= high
  {
    hide Scaled;
    Stretched(low, a, v);
    Stretched(low, b, w);
    Stretched(a, high, v);
    Stretched(b, high, w);
    Whole(low, v, w);
    Whole(high, v, w);
  }

  lemma Stretched(x: real, y: real, m: real)
    requires x <= y && 0.0 <= m
    ensures Scaled(x, m) <= Scaled(y, m)
  {
    MulMono(x, y, m);
  }

  lemma Whole(x: real, v: real, w: real)
    requires v + w == 1.0
    ensures Scaled(x, v) + Scaled(x, w) == x
  {
    assert x * v + x * w == x * (v + w);
  }

  const UNKNOWN_GAS := GasAssessment(Normal, 0.0, 0.0, 0.0, false, [GasUnknown], 0.0)

  /** The ceilings on what is bid: the priority fee of a Solana transaction, or both EVM gas prices. */
  predicate FeesWithin(g: GasSettings, s: GasSnapshot, gasLimit: nat, computeUnits: Option<nat>) {
    if s.solana then Lamports(s.priorityFeeNative, ComputeUnits(computeUnits, gasLimit)) <= g.maxPriorityFeeLamports as real
    else s.priorityFeeNative <= g.maxPriorityFeeGwei && s.gasPriceNative <= g.maxGasPriceGwei
  }

  /** The ceilings on what it costs: per trade, under stress, and as a share of a positive gross profit. */
  predicate CostsWithin(g: GasSettings, expected: real, stress: real, maxGasOverrideUsd: Option<real>, grossUsd: real) {
    var maxGas := if maxGasOverrideUsd.Some? then maxGasOverrideUsd.value else g.maxGasPerTradeUsd;
    && expected <= maxGas && stress <= Scaled(maxGas, g.stressMultiplier)
    && (grossUsd > 0.0 ==> Pct(expected, grossUsd) <= g.maxGasPctOfGross)
  }

  /** The guard's verdict on one transaction: numbers, and a reason for every limit that is exceeded. */
  method Assess(g: GasSettings, baseline: Option<real>, snap: Option<GasSnapshot>, gasLimit: nat, grossUsd: real,
                computeUnits: Option<nat>, maxGasOverrideUsd: Option<real>, legs: nat) returns (a: GasAssessment)
    ensures snap.None? ==> a == UNKNOWN_GAS
    ensures snap.Some? ==>
              && a.expected == Scaled(EstimateCostUsd(snap.value, gasLimit, computeUnits), legs as real)
              && a.stress == Scaled(a.expected, g.stressMultiplier)
              && a.priorityFee == Scaled(PriorityUsd(snap.value, gasLimit, computeUnits), legs as real)
              && a.regime == RegimeAt(g, baseline, snap.value.gasPriceNative)
              && a.pctOfGross == (if grossUsd > 0.0 then Pct(a.expected, grossUsd) else 100.0)
    ensures a.passed <==> a.reasons == []
    ensures a.passed <==>
              && snap.Some? && snap.value.ageMs <= 60000 && a.regime != Extreme && FeesWithin(g, snap.value, gasLimit, computeUnits)
              && CostsWithin(g, a.expected, a.stress, maxGasOverrideUsd, grossUsd)
  {
    hide EstimateCostUsd, PriorityUsd, Scaled, Pct, RegimeAt, Lamports;
    if snap.None? { return UNKNOWN_GAS; }
    var s := snap.value;
    var reasons := [];
    if s.ageMs > 60000 { reasons := reasons + [SnapshotStale]; }
    var expected := Scaled(EstimateCostUsd(s, gasLimit, computeUnits), legs as real);
    var stress := Scaled(expected, g.stressMultiplier);
    var regime := RegimeAt(g, baseline, s.gasPriceNative);
    var maxGas := if maxGasOverrideUsd.Some? then maxGasOverrideUsd.value else g.maxGasPerTradeUsd;
    var gasPct := if grossUsd > 0.0 then Pct(expected, grossUsd) else 100.0;
    var priorityUsd := Scaled(PriorityUsd(s, gasLimit, computeUnits), legs as real);
    if s.solana {
      if Lamports(s.priorityFeeNative, ComputeUnits(computeUnits, gasLimit)) > g.maxPriorityFeeLamports as real {
        reasons := reasons + [PriorityFeeTooHigh];
      }
    } else {
      if s.priorityFeeNative > g.maxPriorityFeeGwei { reasons := reasons + [PriorityFeeTooHigh]; }
      if s.gasPriceNative > g.maxGasPriceGwei { reasons := reasons + [GasPriceTooHigh]; }
    }
    if expected > maxGas { reasons := reasons + [GasTooExpensive]; }
    if stress > Scaled(maxGas, g.stressMultiplier) { reasons := reasons + [StressTooExpensive]; }
    if grossUsd > 0.0 && gasPct > g.maxGasPctOfGross { reasons := reasons + [GasShareTooHigh]; }
    if regime.Extreme? { reasons := reasons + [RegimeExtreme]; }
    return GasAssessment(regime, expected, stress, gasPct, reasons == [], reasons, priorityUsd);
  }

  /** The verdict on several on-chain legs together. */
  function Merged(items: seq<GasAssessment>): (a: GasAssessment)
    requires items != []
  {
    if |items| == 1 then items[0]
    else
      var first, rest := items[0], Merged(items[1..]);
      GasAssessment(if Rank(first.regime) >= Rank(rest.regime) then first.regime else rest.regime,
                    first.expected + rest.expected, first.stress + rest.stress, first.pctOfGross + rest.pctOfGross,
                    first.passed && rest.passed, first.reasons + rest.reasons, first.priorityFee + rest.priorityFee)
  }

  // --- what the Profit Guard relies on ---------------------------------------------------------

  ghost predicate SaneSnapshot(s: GasSnapshot) {
    s.gasPriceNative >= 0.0 && s.priorityFeeNative >= 0.0 && s.nativeUsd >= 0.0 && s.l1DataFeeUsd >= 0.0
    && s.baseFeeLamports >= 0.0
  }

  lemma NativeUsdNonNeg(s: GasSnapshot, amount: real)
    requires s.nativeUsd >= 0.0 && amount >= 0.0
    ensures NativeUsd(s, amount) >= 0.0
  {
    DivMono(0.0, amount, GIGA);
    MulNonNeg(amount / GIGA, s.nativeUsd);
  }

  /** Estimates from non-negative fees are sane: 0 <= expected <= stress, priority fee >= 0. */
  lemma EstimatesSane(g: GasSettings, s: GasSnapshot, gasLimit: nat, computeUnits: Option<nat>, legs: nat, a: GasAssessment)
    requires SaneSnapshot(s) && g.stressMultiplier >= 1.0
    requires a.expected == Scaled(EstimateCostUsd(s, gasLimit, computeUnits), legs as real)
    requires a.stress == Scaled(a.expected, g.stressMultiplier)
    requires a.priorityFee == Scaled(PriorityUsd(s, gasLimit, computeUnits), legs as real)
    ensures SaneGas(a)
  {
    hide NativeUsd, Scaled, Lamports;
    var cu := ComputeUnits(computeUnits, gasLimit);
    LamportsNonNeg(s.priorityFeeNative, cu);
    LamportsNonNeg(s.priorityFeeNative, gasLimit);
    LamportsNonNeg(s.gasPriceNative, gasLimit);
    NativeUsdNonNeg(s, s.baseFeeLamports + Lamports(s.priorityFeeNative, cu));
    NativeUsdNonNeg(s, Lamports(s.gasPriceNative, gasLimit));
    NativeUsdNonNeg(s, Lamports(s.priorityFeeNative, cu));
    NativeUsdNonNeg(s, Lamports(s.priorityFeeNative, gasLimit));
    ScaledZero(legs as real);
    ScaledMono(0.0, EstimateCostUsd(s, gasLimit, computeUnits), legs as real);
    ScaledMono(0.0, PriorityUsd(s, gasLimit, computeUnits), legs as real);
    RepeatedAtLeast(a.expected, g.stressMultiplier);
  }

  lemma LamportsNonNeg(price: real, units: nat)
    requires price >= 0.0
    ensures Lamports(price, units) >= 0.0
  {
    MulNonNeg(price, units as real);
  }

  /** Merging keeps estimates sane, passes only when every leg does, and takes the worst regime of any leg. */
  lemma {:induction false} MergedSound(items: seq<GasAssessment>)
    requires items != []
    requires forall i | 0 <= i < |items| :: SaneGas(items[i]) && (items[i].passed <==> items[i].reasons == [])
    ensures SaneGas(Merged(items))
    ensures Merged(items).passed <==> Merged(items).reasons == []
    ensures Merged(items).passed <==> forall i | 0 <= i < |items| :: items[i].passed
    ensures forall i | 0 <= i < |items| :: Rank(items[i].regime) <= Rank(Merged(items).regime)
    ensures exists i | 0 <= i < |items| :: items[i].regime == Merged(items).regime
  {
    if |items| > 1 {
      var rest := items[1..];
      assert forall i | 0 <= i < |rest| :: rest[i] == items[i+1];
      MergedSound(rest);
      forall i | 0 <= i < |items|
        ensures Rank(items[i].regime) <= Rank(Merged(items).regime)
        ensures items[i].passed || !Merged(items).passed
      {
        if i > 0 { assert items[i] == rest[i-1]; }
      }
      var k :| 0 <= k < |rest| && rest[k].regime == Merged(rest).regime;
      assert items[0].regime == Merged(items).regime || items[k+1].regime == Merged(items).regime;
    }
  }

  /** A higher gas price never lands in a calmer regime, in whatever order the multiples are configured. */
  lemma RegimeMonotone(g: GasSettings, baseline: Option<real>, p: real, q: real)
    requires p <= q
    ensures Rank(RegimeAt(g, baseline, p)) <= Rank(RegimeAt(g, baseline, q))
  {
    if baseline.Some? && baseline.value > 0.0 { DivMono(p, q, baseline.value); }
  }

  // --- the priority fee on the guard's sheet ------------------------------------------------------

  /** What a transaction pays besides its priority fee. The EVM gas price is quoted as base fee plus priority fee. */
  function BaseUsd(s: GasSnapshot, gasLimit: nat): real {
    if s.solana then NativeUsd(s, s.baseFeeLamports)
    else NativeUsd(s, Lamports(s.gasPriceNative - s.priorityFeeNative, gasLimit)) + s.l1DataFeeUsd
  }

  /** The cost of one transaction: base and data fee, and the priority fee once. */
  function TransactionUsd(s: GasSnapshot, gasLimit: nat, computeUnits: Option<nat>): real {
    BaseUsd(s, gasLimit) + PriorityUsd(s, gasLimit, computeUnits)
  }

  lemma NativeSplits(s: GasSnapshot, x: real, y: real)
    ensures NativeUsd(s, x + y) == NativeUsd(s, x) + NativeUsd(s, y)
  {
    assert (x + y) / GIGA == x / GIGA + y / GIGA;
    Distribute(x / GIGA, y / GIGA, s.nativeUsd);
  }

  lemma LamportsSplit(x: real, y: real, units: nat)
    ensures Lamports(x + y, units) == Lamports(x, units) + Lamports(y, units)
  {
    Distribute(x, y, units as real);
  }

  /** The estimate is already the whole transaction, on either family of chains. */
  lemma EstimateIsTransaction(s: GasSnapshot, gasLimit: nat, computeUnits: Option<nat>)
    ensures EstimateCostUsd(s, gasLimit, computeUnits) == TransactionUsd(s, gasLimit, computeUnits)
  {
    hide NativeUsd, Lamports;
    if s.solana {
      NativeSplits(s, s.baseFeeLamports, Lamports(s.priorityFeeNative, ComputeUnits(computeUnits, gasLimit)));
    } else {
      var base := s.gasPriceNative - s.priorityFeeNative;
      assert base + s.priorityFeeNative == s.gasPriceNative;
      LamportsSplit(base, s.priorityFeeNative, gasLimit);
      NativeSplits(s, Lamports(base, gasLimit), Lamports(s.priorityFeeNative, gasLimit));
    }
  }

  /**
   * The sheet charges the estimate and the priority fee beside it. So the priority fee is charged twice on every
   * chain, and the charge is the cost of the transactions exactly when that fee is zero.
   */
  lemma PriorityChargedOnceIff(inp: Inputs, s: GasSnapshot, gasLimit: nat, computeUnits: Option<nat>, legs: nat)
    requires OnChain(inp) && inp.gas.Some? && legs > 0
    requires inp.gas.value.expected == Scaled(EstimateCostUsd(s, gasLimit, computeUnits), legs as real)
    requires inp.gas.value.priorityFee == Scaled(PriorityUsd(s, gasLimit, computeUnits), legs as real)
    ensures var base, priority := BaseUsd(s, gasLimit), PriorityUsd(s, gasLimit, computeUnits);
            && GasAndPriority(inp) == Scaled(base, legs as real) + 2.0 * Scaled(priority, legs as real)
            && (GasAndPriority(inp) == Scaled(TransactionUsd(s, gasLimit, computeUnits), legs as real) <==> priority == 0.0)
  {
    GasOnSheet(inp);
    hide EstimateCostUsd, PriorityUsd, BaseUsd, Scaled, GasAndPriority;
    EstimateIsTransaction(s, gasLimit, computeUnits);
    ScaledSum(BaseUsd(s, gasLimit), PriorityUsd(s, gasLimit, computeUnits), legs as real);
    ScaledToZero(PriorityUsd(s, gasLimit, computeUnits), legs as real);
  }

  lemma GasOnSheet(inp: Inputs)
    requires OnChain(inp) && inp.gas.Some?
    ensures GasAndPriority(inp) == inp.gas.value.expected + inp.gas.value.priorityFee
  {
    hide BuyLeg, SellLeg, ValueAt, PctOf, Scaled;
  }

  lemma ScaledToZero(x: real, m: real)
    requires m > 0.0
    ensures Scaled(x, m) == 0.0 <==> x == 0.0
  {
    ScaledZero(m);
    ScaledCompare(x, 0.0, m);
  }

  /** With several on-chain legs the sheet charges their estimates plus the excess of every leg. */
  lemma {:induction false} MergedCharge(items: seq<GasAssessment>, costs: seq<real>, priorities: seq<real>)
    requires items != [] && |costs| == |priorities| == |items|
    requires forall i | 0 <= i < |items| :: items[i].expected == costs[i] && items[i].priorityFee == priorities[i] >= 0.0
    ensures Merged(items).expected == Sum(costs) && Merged(items).priorityFee == Sum(priorities) >= 0.0
    ensures Sum(priorities) == 0.0 <==> forall i | 0 <= i < |priorities| :: priorities[i] == 0.0
  {
    if |items| == 1 {
      assert costs[1..] == [] && priorities[1..] == [];
    } else {
      assert forall i | 0 <= i < |items| - 1 :: items[1..][i] == items[i+1] && costs[1..][i] == costs[i+1] && priorities[1..][i] == priorities[i+1];
      MergedCharge(items[1..], costs[1..], priorities[1..]);
      assert forall i | 1 <= i < |priorities| :: priorities[i] == priorities[1..][i-1];
    }
  }

  /** And it is what the legs' transactions cost exactly when no leg pays a priority fee. */
  lemma MergedPriorityOnceIff(inp: Inputs, items: seq<GasAssessment>, costs: seq<real>, priorities: seq<real>)
    requires OnChain(inp) && items != [] && inp.gas == Some(Merged(items)) && |costs| == |priorities| == |items|
    requires forall i | 0 <= i < |items| :: items[i].expected == costs[i] && items[i].priorityFee == priorities[i] >= 0.0
    ensures GasAndPriority(inp) == Sum(costs) <==> forall i | 0 <= i < |priorities| :: priorities[i] == 0.0
  {
    GasOnSheet(inp);
    hide GasAndPriority, Merged, OnChain;
    MergedCharge(items, costs, priorities);
  }

  // --- the rules on prices and sums ----------------------------------------------------------------

  /** The regimes by how many baselines the gas price comes to, the most severe first; without a baseline it is normal. */
  lemma RegimeIff(g: GasSettings, baseline: Option<real>, price: real)
    ensures var known, r := baseline.Some? && baseline.value > 0.0, RegimeAt(g, baseline, price);
            var extreme, high, elevated :=
              known && g.extremeMultiple * baseline.value <= price,
              known && g.highMultiple * baseline.value <= price,
              known && g.elevatedMultiple * baseline.value <= price;
            && (r == Extreme <==> extreme) && (r == High <==> high && !extreme)
            && (r == Elevated <==> elevated && !high && !extreme) && (r == Normal <==> !extreme && !high && !elevated)
  {
    if baseline.Some? && baseline.value > 0.0 {
      ReachesIff(price, baseline.value, g.extremeMultiple);
      ReachesIff(price, baseline.value, g.highMultiple);
      ReachesIff(price, baseline.value, g.elevatedMultiple);
    }
  }

  lemma ReachesIff(price: real, baseline: real, multiple: real)
    requires baseline > 0.0
    ensures price / baseline >= multiple <==> multiple * baseline <= price
  {
    assert price / baseline * baseline == price;
    ScaledCompare(multiple, price / baseline, baseline);
  }

  /** The units a Solana transaction is charged for: its own figure, else the gas limit, else 200000; 0 counts as missing. */
  function Units(computeUnits: Option<nat>, gasLimit: nat): (n: nat)
    ensures n > 0
  {
    match computeUnits
    case Some(n) => if n > 0 then n else if gasLimit > 0 then gasLimit else 200000
    case None => if gasLimit > 0 then gasLimit else 200000
  }

  /**
   * The estimate in billionths of the native token at its USD price: base fee and priority fee per unit on Solana, gas
   * price times gas limit plus the data fee elsewhere.
   */
  lemma EstimateIs(s: GasSnapshot, gasLimit: nat, computeUnits: Option<nat>)
    ensures s.solana ==>
              && EstimateCostUsd(s, gasLimit, computeUnits) * 1000000000.0
                 == (s.baseFeeLamports + s.priorityFeeNative * Units(computeUnits, gasLimit) as real) * s.nativeUsd
              && PriorityUsd(s, gasLimit, computeUnits) * 1000000000.0
                 == s.priorityFeeNative * Units(computeUnits, gasLimit) as real * s.nativeUsd
    ensures !s.solana ==>
              && (EstimateCostUsd(s, gasLimit, computeUnits) - s.l1DataFeeUsd) * 1000000000.0
                 == s.gasPriceNative * gasLimit as real * s.nativeUsd
              && PriorityUsd(s, gasLimit, computeUnits) * 1000000000.0
                 == s.priorityFeeNative * gasLimit as real * s.nativeUsd
  {
    var u := Units(computeUnits, gasLimit);
    assert ComputeUnits(computeUnits, gasLimit) == u;
    NativeIs(s, s.baseFeeLamports + Lamports(s.priorityFeeNative, u));
    NativeIs(s, Lamports(s.priorityFeeNative, u));
    NativeIs(s, Lamports(s.gasPriceNative, gasLimit));
    NativeIs(s, Lamports(s.priorityFeeNative, gasLimit));
    hide NativeUsd;
  }

  lemma NativeIs(s: GasSnapshot, amount: real)
    ensures NativeUsd(s, amount) * 1000000000.0 == amount * s.nativeUsd
  {
    var part := amount / 1000000000.0;
    assert part * s.nativeUsd * 1000000000.0 == part * 1000000000.0 * s.nativeUsd;
  }

  /** The ceilings on the bid, per family of chains. */
  lemma FeesWithinIff(g: GasSettings, s: GasSnapshot, gasLimit: nat, computeUnits: Option<nat>)
    ensures FeesWithin(g, s, gasLimit, computeUnits) <==>
              if s.solana then s.priorityFeeNative * Units(computeUnits, gasLimit) as real <= g.maxPriorityFeeLamports as real
              else !(s.priorityFeeNative > g.maxPriorityFeeGwei || s.gasPriceNative > g.maxGasPriceGwei)
  {
  }

  /**
   * The ceilings on the cost: the largest gas of a trade (its own where the caller gives one) and a share of what it
   * brings. The stress ceiling is the same multiple of both sides, so it refuses nothing more.
   */
  lemma CostsWithinIff(g: GasSettings, expected: real, maxGasOverrideUsd: Option<real>, grossUsd: real)
    requires g.stressMultiplier > 0.0
    ensures CostsWithin(g, expected, Scaled(expected, g.stressMultiplier), maxGasOverrideUsd, grossUsd) <==>
              && expected <= (match maxGasOverrideUsd { case Some(max) => max case None => g.maxGasPerTradeUsd })
              && (grossUsd > 0.0 ==> expected * 100.0 <= g.maxGasPctOfGross * grossUsd)
  {
    var maxGas := if maxGasOverrideUsd.Some? then maxGasOverrideUsd.value else g.maxGasPerTradeUsd;
    ScaledOrder(expected, maxGas, g.stressMultiplier);
    if grossUsd > 0.0 {
      assert expected / grossUsd * grossUsd == expected;
      assert expected / grossUsd * 100.0 * grossUsd == expected * 100.0;
      ScaledCompare(expected / grossUsd * 100.0, g.maxGasPctOfGross, grossUsd);
    }
    hide Scaled;
  }

  /** Merging two groups of legs merges their verdicts: numbers add up, objections are joined, the worse regime stays. */
  lemma {:induction false} MergedSplits(a: seq<GasAssessment>, b: seq<GasAssessment>)
    requires a != [] && b != []
    ensures var x, y, m := Merged(a), Merged(b), Merged(a + b);
            && m.expected == x.expected + y.expected && m.stress == x.stress + y.stress
            && m.pctOfGross == x.pctOfGross + y.pctOfGross && m.priorityFee == x.priorityFee + y.priorityFee
            && (m.passed <==> x.passed && y.passed) && m.reasons == x.reasons + y.reasons
            && (m.regime == Extreme <==> Extreme in {x.regime, y.regime}) && (m.regime == Normal <==> {x.regime, y.regime} == {Normal})
            && (m.regime in {High, Extreme} <==> x.regime in {High, Extreme} || y.regime in {High, Extreme})
    ensures |a| == 1 ==> Merged(a) == a[0]
  {
    if |a| == 1 {
      assert (a + b)[0] == a[0] && (a + b)[1..] == b;
    } else {
      MergedSplits(a[1..], b);
      assert (a + b)[0] == a[0] && (a + b)[1..] == a[1..] + b;
      assert a[0].reasons + (Merged(a[1..]).reasons + Merged(b).reasons) == a[0].reasons + Merged(a[1..]).reasons + Merged(b).reasons;
    }
  }
}
