/** Learned safety buffers: per-route averages of how far estimates missed. */
module Experience {
  import opened Money

  datatype Stat = Stat(
    samples: nat,
    errorPct: real,
    slippageBiasPct: real,
    feeVariancePct: real,
    gasVariancePct: real,
    reliability: real,
    latencyMs: real,
    extraBufferPct: real)

  const NEW_STAT := Stat(0, 0.0, 0.0, 0.0, 0.0, 1.0, 0.0, 0.0)

  datatype Observation = Observation(
    notionalUsd: real,
    predictionErrorUsd: real,
    slippageVarianceUsd: real,
    feeVarianceUsd: real,
    gasVarianceUsd: real,
    filled: bool,
    latencyMs: real)

  /** An observation together with the buffer cap in force when it was recorded. */
  datatype Sample = Sample(o: Observation, maxExtra: real)

  function Notional(o: Observation): real { if o.notionalUsd <= 0.0 then 1.0 else o.notionalUsd }

  function OfNotional(o: Observation, usd: real): real { usd / Notional(o) * 100.0 }

  /** The exponentially weighted average with weight 0.2 on the new value. */
  function Ewma(previous: real, value: real): real { previous * 0.8 + value * 0.2 }

  function Blend(s: Stat, previous: real, value: real): real {
    if s.samples == 0 then value else Ewma(previous, value)
  }

  function Updated(s: Stat, x: Sample): Stat {
    var o := x.o;
    var error := Blend(s, s.errorPct, OfNotional(o, o.predictionErrorUsd));
    var reliability := Blend(s, s.reliability, if o.filled then 1.0 else 0.0);
    Stat(s.samples + 1, error,
         Blend(s, s.slippageBiasPct, OfNotional(o, o.slippageVarianceUsd)),
         Blend(s, s.feeVariancePct, OfNotional(o, o.feeVarianceUsd)),
         Blend(s, s.gasVariancePct, OfNotional(o, o.gasVarianceUsd)),
         reliability,
         Blend(s, s.latencyMs, o.latencyMs),
         Clamp(Max(0.0, error) + (1.0 - reliability) * 0.1, 0.0, x.maxExtra))
  }

  /** The statistics after a whole history of samples. */
  function After(history: seq<Sample>): Stat {
    if history == [] then NEW_STAT else Updated(After(history[..|history|-1]), history[|history|-1])
  }

  // --- every run ----------------------------------------------------------------------------

  ghost predicate AllFilled(history: seq<Sample>) { forall i | 0 <= i < |history| :: history[i].o.filled }

  /** Reliability is a proportion, and is 1 exactly while every trade of the history filled. */
  lemma {:induction false} ReliabilityRange(history: seq<Sample>)
    ensures After(history).samples == |history|
    ensures 0.0 <= After(history).reliability <= 1.0
    ensures After(history).reliability == 1.0 <==> AllFilled(history)
  {
    if history != [] {
      var n := |history| - 1;
      ReliabilityRange(history[..n]);
      assert AllFilled(history) <==> AllFilled(history[..n]) && history[n].o.filled;
    }
  }

  /** The error average stays within any bounds all observed errors respect. */
  lemma {:induction false} ErrorWithin(history: seq<Sample>, lo: real, hi: real)
    requires history != []
    requires forall i | 0 <= i < |history| :: lo <= OfNotional(history[i].o, history[i].o.predictionErrorUsd) <= hi
    ensures lo <= After(history).errorPct <= hi
  {
    var n := |history| - 1;
    ReliabilityRange(history[..n]);
    if n > 0 {
      assert forall i | 0 <= i < n :: history[..n][i] == history[i];
      ErrorWithin(history[..n], lo, hi);
    }
  }

  /** Over every history the buffer stays within its cap, and vanishes exactly when nothing went wrong. */
  lemma BufferRange(history: seq<Sample>)
    requires history != []
    ensures var s, cap := After(history), history[|history|-1].maxExtra;
            && 0.0 <= s.extraBufferPct <= Max(0.0, cap)
            && (cap > 0.0 ==> (s.extraBufferPct == 0.0 <==> s.errorPct <= 0.0 && AllFilled(history)))
  {
    ReliabilityRange(history);
  }

  /** While trades fill and never do worse than estimated, nothing is ever added to the buffer. */
  lemma NoMissNoBuffer(history: seq<Sample>)
    requires AllFilled(history)
    requires forall i | 0 <= i < |history| :: history[i].o.predictionErrorUsd <= 0.0
    ensures After(history).extraBufferPct == 0.0
  {
    ReliabilityRange(history);
    if history != [] {
      var errors := seq(|history|, i requires 0 <= i < |history| => OfNotional(history[i].o, history[i].o.predictionErrorUsd));
      forall i | 0 <= i < |history|
        ensures errors[i] <= 0.0
      {
        DivMono(history[i].o.predictionErrorUsd, 0.0, Notional(history[i].o));
      }
      var lo := Lowest(errors);
      assert forall i | 0 <= i < |history| :: lo <= errors[i] == OfNotional(history[i].o, history[i].o.predictionErrorUsd);
      ErrorWithin(history, lo, 0.0);
    }
  }

  function Lowest(xs: seq<real>): (r: real)
    ensures forall i | 0 <= i < |xs| :: r <= xs[i]
  {
    if xs == [] then 0.0 else
    var rest := Lowest(xs[1..]);
    assert forall i | 1 <= i < |xs| :: xs[i] == xs[1..][i-1];
    Min(xs[0], rest)
  }

  /** 0.8 to the `m`. */
  function Decay(m: nat): (r: real)
    ensures 0.0 < r <= 1.0
  {
    if m == 0 then 1.0 else Decay(m - 1) * 0.8
  }

  ghost predicate FilledFrom(history: seq<Sample>, from: nat) {
    forall i | from <= i < |history| :: history[i].o.filled
  }

  function Unreliability(history: seq<Sample>): real { 1.0 - After(history).reliability }

  /** After the first trade a success takes a fifth of the unreliability away; a failure adds a fifth to what is left. */
  lemma UnreliabilityStep(history: seq<Sample>)
    requires |history| > 1
    ensures var n := |history| - 1;
            Unreliability(history) == Unreliability(history[..n]) * 0.8 + (if history[n].o.filled then 0.0 else 0.2)
  {
    hide Clamp, OfNotional;
    ReliabilityRange(history[..|history|-1]);
  }

  /** A failed fill leaves an unreliability of at least a fifth. */
  lemma FailureHurts(history: seq<Sample>)
    requires history != [] && !history[|history|-1].o.filled
    ensures Unreliability(history) >= 0.2
  {
    ReliabilityRange(history[..|history|-1]);
    if |history| > 1 { UnreliabilityStep(history); }
  }

  lemma DecayStep(u: real, v: real, m: nat)
    requires v >= u * Decay(m)
    ensures v * 0.8 >= u * Decay(m + 1)
    ensures v == u * Decay(m) ==> v * 0.8 == u * Decay(m + 1)
  {
    assert u * Decay(m + 1) == u * Decay(m) * 0.8;
  }

  /** Unreliability decays by a fifth per trade at most, and by exactly that while trades fill. */
  lemma {:induction false} UnreliabilityDecays(history: seq<Sample>, from: nat)
    requires 0 < from <= |history|
    ensures Unreliability(history) >= Unreliability(history[..from]) * Decay(|history| - from)
    ensures FilledFrom(history, from) ==> Unreliability(history) == Unreliability(history[..from]) * Decay(|history| - from)
  {
    hide Unreliability;
    var n := |history| - 1;
    if from == |history| {
      assert history[..from] == history;
    } else {
      assert history[..n][..from] == history[..from];
      UnreliabilityDecays(history[..n], from);
      UnreliabilityStep(history);
      DecayStep(Unreliability(history[..from]), Unreliability(history[..n]), n - from);
    }
  }

  /**
   * What a failed fill still costs `m` trades later: a tenth of the unreliability it left, less a fifth per trade that
   * filled. That never reaches 0, and is at least 0.02 * 0.8^m percent unless the cap is lower.
   */
  lemma FailureLeavesPenalty(history: seq<Sample>, failed: nat)
    requires failed < |history| && !history[failed].o.filled
    ensures var m := |history| - failed - 1;
            && (FilledFrom(history, failed + 1) ==> Unreliability(history) == Unreliability(history[..failed+1]) * Decay(m))
            && (history[|history|-1].maxExtra >= 0.0 ==>
                 After(history).extraBufferPct >= Min(history[|history|-1].maxExtra, 0.02 * Decay(m)))
  {
    hide Unreliability, Decay, After;
    var d := Decay(|history| - failed - 1);
    UnreliabilityDecays(history, failed + 1);
    FailureHurts(history[..failed+1]);
    ShareLeft(Unreliability(history), Unreliability(history[..failed+1]), d);
    BufferOf(history);
  }

  lemma ShareLeft(now: real, then_: real, d: real)
    requires then_ >= 0.2 && d > 0.0 && now >= then_ * d
    ensures now * 0.1 >= 0.02 * d
  {
    MulMono(0.2, then_, d);
  }

  /** The buffer is at least a tenth of the unreliability, up to the cap. */
  lemma BufferOf(history: seq<Sample>)
    requires history != []
    ensures history[|history|-1].maxExtra >= 0.0 ==>
              After(history).extraBufferPct >= Min(history[|history|-1].maxExtra, Unreliability(history) * 0.1)
  {
    hide OfNotional, Blend;
    ReliabilityRange(history);
  }

  /** Trades that all filled and all missed their estimate by the same share of what they traded. */
  ghost predicate SteadyMiss(history: seq<Sample>, pct: real) {
    && AllFilled(history)
    && forall i | 0 <= i < |history| ::
         && history[i].o.notionalUsd > 0.0
         && history[i].o.predictionErrorUsd * 100.0 == pct * history[i].o.notionalUsd
  }

  /** Such a route learns exactly that share, and holds it back as far as the cap allows. */
  lemma {:induction false} SteadyMissIsLearned(history: seq<Sample>, pct: real)
    requires history != [] && SteadyMiss(history, pct)
    ensures var s, cap := After(history), history[|history|-1].maxExtra;
            s.samples == |history| && s.errorPct == pct && s.reliability == 1.0
            && (cap >= 0.0 ==> s.extraBufferPct == Min(cap, Max(0.0, pct)))
  {
    var n := |history| - 1;
    ReliabilityRange(history);
    ShareIs(history[n].o, pct);
    if n > 0 { SteadyMissIsLearned(history[..n], pct); }
  }

  lemma ShareIs(o: Observation, pct: real)
    requires o.notionalUsd > 0.0 && o.predictionErrorUsd * 100.0 == pct * o.notionalUsd
    ensures OfNotional(o, o.predictionErrorUsd) == pct
  {
    var q := o.predictionErrorUsd / o.notionalUsd;
    assert (q * 100.0 - pct) * o.notionalUsd == 0.0 by { assert q * o.notionalUsd == o.predictionErrorUsd; }
  }

  /** A difference as a share of what was traded; of one dollar where nothing was. */
  lemma ShareOfNotional(o: Observation, usd: real)
    ensures OfNotional(o, usd) * (if o.notionalUsd > 0.0 then o.notionalUsd else 1.0) == usd * 100.0
  {
    var n := Notional(o);
    assert usd / n * n == usd;
    assert usd / n * 100.0 * n == usd / n * n * 100.0;
  }

  /** Every trade of the history cost its slippage, fees and gas the same share of what it traded, and took the same time. */
  ghost predicate SteadyCosts(history: seq<Sample>, slip: real, fee: real, gas: real, latencyMs: real) {
    forall i | 0 <= i < |history| ::
      var o := history[i].o;
      && OfNotional(o, o.slippageVarianceUsd) == slip && OfNotional(o, o.feeVarianceUsd) == fee
      && OfNotional(o, o.gasVarianceUsd) == gas && o.latencyMs == latencyMs
  }

  /** Each of these averages is of its own figure. */
  lemma {:induction false} SteadyCostsAreLearned(history: seq<Sample>, slip: real, fee: real, gas: real, latencyMs: real)
    requires history != [] && SteadyCosts(history, slip, fee, gas, latencyMs)
    ensures var s := After(history);
            s.slippageBiasPct == slip && s.feeVariancePct == fee && s.gasVariancePct == gas && s.latencyMs == latencyMs
  {
    hide OfNotional;
    var n := |history| - 1;
    ReliabilityRange(history[..n]);
    if n > 0 { SteadyCostsAreLearned(history[..n], slip, fee, gas, latencyMs); }
  }

  class ExperienceEngine {
    var maxExtra: real
    var enabled: bool
    var cache: map<string, Stat>
    ghost var histories: map<string, seq<Sample>>

    /** Every cached statistic is the one its whole history of samples gives. */
    ghost predicate Valid()
      reads this
    {
      && cache.Keys == histories.Keys
      && forall k | k in cache :: histories[k] != [] && cache[k] == After(histories[k])
    }

    constructor (maxExtraBufferPct: real, learning: bool)
      ensures Valid() && cache == map[] && maxExtra == maxExtraBufferPct && enabled == learning
    {
      maxExtra, enabled, cache, histories := maxExtraBufferPct, learning, map[], map[];
    }

    ghost function History(key: string): seq<Sample>
      reads this
    {
      if key in histories then histories[key] else []
    }

    method Record(key: string, o: Observation) returns (s: Stat)
      requires Valid()
      modifies this
      ensures Valid() && maxExtra == old(maxExtra) && enabled == old(enabled)
      ensures History(key) == old(History(key)) + [Sample(o, maxExtra)]
      ensures forall k | k != key :: (k in cache <==> k in old(cache)) && (k in cache ==> cache[k] == old(cache[k]))
      ensures key in cache && s == cache[key] && 0.0 <= s.extraBufferPct <= Max(0.0, maxExtra)
    {
      hide OfNotional, Ewma, Clamp, Updated;
      ghost var grown := History(key) + [Sample(o, maxExtra)];
      assert grown[..|grown|-1] == History(key);
      s := if key in cache then cache[key] else NEW_STAT;
      s := Update(s, o);
      cache := cache[key := s];
      histories := histories[key := grown];
      BufferRange(grown);
    }

    /** One observation folded into the statistics, field by field. */
    method Update(previous: Stat, o: Observation) returns (s: Stat)
      ensures s == Updated(previous, Sample(o, maxExtra))
    {
      hide OfNotional, Ewma, Clamp;
      s := previous;
      var errPct := OfNotional(o, o.predictionErrorUsd);
      var slipPct := OfNotional(o, o.slippageVarianceUsd);
      var feePct := OfNotional(o, o.feeVarianceUsd);
      var gasPct := OfNotional(o, o.gasVarianceUsd);
      var fill := if o.filled then 1.0 else 0.0;
      if s.samples == 0 {
        s := s.(errorPct := errPct, slippageBiasPct := slipPct, feeVariancePct := feePct, gasVariancePct := gasPct,
                reliability := fill, latencyMs := o.latencyMs);
      } else {
        s := s.(errorPct := Ewma(s.errorPct, errPct),
                slippageBiasPct := Ewma(s.slippageBiasPct, slipPct),
                feeVariancePct := Ewma(s.feeVariancePct, feePct),
                gasVariancePct := Ewma(s.gasVariancePct, gasPct),
                reliability := Ewma(s.reliability, fill),
                latencyMs := Ewma(s.latencyMs, o.latencyMs));
      }
      s := s.(samples := s.samples + 1);
      var unreliability := (1.0 - s.reliability) * 0.1;
      s := s.(extraBufferPct := Clamp(Max(0.0, s.errorPct) + unreliability, 0.0, maxExtra));
    }

    /** What the Profit Guard adds: nothing before three samples, never more than the current cap. */
    function ExtraBufferPct(key: string): (pct: real)
      requires Valid()
      reads this
      ensures 0.0 <= pct <= Max(0.0, maxExtra)
      ensures enabled && key in cache && cache[key].samples >= 3 ==> pct == Max(0.0, Min(maxExtra, cache[key].extraBufferPct))
      ensures !(enabled && key in cache && cache[key].samples >= 3) ==> pct == 0.0
    {
      if !enabled || key !in cache || cache[key].samples < 3 then 0.0
      else Clamp(cache[key].extraBufferPct, 0.0, maxExtra)
    }
  }
}
