/** Venue health from rolling statistics kept in capped deques. */
module HealthTrackers {
  import opened Wrappers
  import opened Logs
  import opened Money
  import opened Settings

  // --- the order of health states --------------------------------------------------------------

  function Severity(h: VenueHealth): int {
    match h case Unknown => -1 case Healthy => 0 case Degraded => 1 case Unhealthy => 2 case Blocked => 3
  }

  /** The worse of two states; UNKNOWN never outweighs a known one. */
  function MaxHealth(a: VenueHealth, b: VenueHealth): VenueHealth {
    if a.Unknown? then b
    else if b.Unknown? then a
    else if Severity(a) >= Severity(b) then a else b
  }

  /** The worst of several signals. */
  function WorstOf(signals: seq<VenueHealth>): VenueHealth {
    if signals == [] then Unknown else MaxHealth(WorstOf(signals[..|signals|-1]), signals[|signals|-1])
  }

  /** It is one of the signals, no signal is worse, and no other order of the same signals changes it. */
  lemma {:induction false} WorstOfIsWorst(signals: seq<VenueHealth>)
    ensures signals != [] ==> WorstOf(signals) in signals
    ensures forall s | s in signals :: Severity(s) <= Severity(WorstOf(signals))
  {
    if signals != [] {
      var n := |signals| - 1;
      WorstOfIsWorst(signals[..n]);
      assert signals == signals[..n] + [signals[n]];
    }
  }

  lemma WorstOfOrder(a: seq<VenueHealth>, b: seq<VenueHealth>)
    requires forall s :: s in a <==> s in b
    ensures WorstOf(a) == WorstOf(b)
  {
    WorstOfIsWorst(a);
    WorstOfIsWorst(b);
    if b != [] { assert b[0] in a; }
    if a != [] { assert a[0] in b; }
  }

  // --- capped deques -----------------------------------------------------------------------------

  function CountSince(log: seq<real>, cutoff: real): nat {
    if log == [] then 0 else CountSince(log[..|log|-1], cutoff) + (if log[|log|-1] >= cutoff then 1 else 0)
  }

  lemma {:induction false} CountBounds(log: seq<real>, cutoff: real)
    ensures CountSince(log, cutoff) <= |log|
    ensures CountSince(log, cutoff) == |log| <==> forall i | 0 <= i < |log| :: log[i] >= cutoff
  {
    if log != [] { CountBounds(log[..|log|-1], cutoff); }
  }

  /** Dropping the oldest entries of an ordered log only hides events once the kept ones are all recent. */
  lemma {:induction false} CountDropped(log: seq<real>, k: nat, cutoff: real)
    requires Increasing(log) && k <= |log|
    ensures CountSince(log[k..], cutoff) <= CountSince(log, cutoff)
    ensures CountSince(log[k..], cutoff) < CountSince(log, cutoff) ==> CountSince(log[k..], cutoff) == |log| - k
  {
    if k < |log| {
      var n := |log| - 1;
      CountDropped(log[..n], k, cutoff);
      assert log[k..][..n-k] == log[..n][k..];
      if log[n] < cutoff {
        NoneRecent(log, cutoff);
        NoneRecent(log[k..], cutoff);
      }
    } else {
      assert log[k..] == [];
    }
  }

  lemma {:induction false} NoneRecent(log: seq<real>, cutoff: real)
    requires Increasing(log) && log != [] && log[|log|-1] < cutoff
    ensures CountSince(log, cutoff) == 0
  {
    var n := |log| - 1;
    if n > 0 { NoneRecent(log[..n], cutoff); }
  }

  /** A capped deque reports at least `threshold` recent events exactly when the full log does, up to the cap. */
  lemma CapKeepsThresholds(log: seq<real>, cap: nat, cutoff: real, threshold: nat)
    requires Increasing(log) && threshold <= cap
    ensures CountSince(Newest(log, cap), cutoff) >= threshold <==> CountSince(log, cutoff) >= threshold
  {
    if |log| > cap { CountDropped(log, |log| - cap, cutoff); }
  }

  /** Above the cap the agreement ends: with more recent events than the cap holds, the deque reports the cap. */
  lemma CapLosesCounts(log: seq<real>, cap: nat, cutoff: real)
    requires |log| > cap && forall i | 0 <= i < |log| :: log[i] >= cutoff
    ensures CountSince(Newest(log, cap), cutoff) == cap < CountSince(log, cutoff)
  {
    CountBounds(log, cutoff);
    CountBounds(Newest(log, cap), cutoff);
  }

  // --- the tracker -------------------------------------------------------------------------------

  const EVENT_CAP: nat := 200
  const LATENCY_CAP: nat := 50

  /** Everything the classification reads besides the two event logs. */
  datatype Signals = Signals(
    maintenance: bool,
    dataUnhealthy: bool,
    rateLimitedUntil: real,
    lastMarketDataMs: int,
    clockDriftMs: Option<int>,
    wsConnected: Option<bool>,
    latencies: seq<real>)

  function Magnitude(x: int): int { if x >= 0 then x else -x }

  /** What market-data age says about a venue. */
  function DataSignal(s: Signals, nowMs: int, maxAgeMs: int): VenueHealth {
    if s.lastMarketDataMs == 0 then Unhealthy
    else
      var age := nowMs - s.lastMarketDataMs;
      if age <= maxAgeMs then Healthy else if age > maxAgeMs * 4 then Unhealthy else Degraded
  }

  function DriftSignal(s: Signals): VenueHealth {
    if s.clockDriftMs.None? then Healthy
    else if Magnitude(s.clockDriftMs.value) >= 10000 then Unhealthy
    else if Magnitude(s.clockDriftMs.value) >= 1000 then Degraded
    else Healthy
  }

  function ErrorSignal(errors: nat): VenueHealth {
    if errors >= 10 then Unhealthy else if errors >= 3 then Degraded else Healthy
  }

  function Average(xs: seq<real>): real
    requires xs != []
  {
    Sum(xs) / (|xs| as real)
  }

  function LatencySignal(latencies: seq<real>): VenueHealth {
    if latencies != [] && Average(latencies) > 2500.0 then Degraded else Healthy
  }

  /** All signals, given the recent error and order-failure counts. */
  function AllSignals(s: Signals, nowMs: int, mono: real, maxAgeMs: int, expectWs: bool, errors: nat, failures: nat): seq<VenueHealth> {
    [Healthy,
     if s.maintenance then Blocked else Healthy,
     if s.dataUnhealthy then Unhealthy else Healthy,
     if mono < s.rateLimitedUntil then Degraded else Healthy,
     DataSignal(s, nowMs, maxAgeMs),
     DriftSignal(s),
     LatencySignal(s.latencies),
     ErrorSignal(errors),
     if failures >= 3 then Degraded else Healthy,
     if expectWs && s.wsConnected == Some(false) then Degraded else Healthy]
  }

  /** The worst of the first six signals. */
  function FeedHealth(s: Signals, nowMs: int, mono: real, maxAgeMs: int): (h: VenueHealth)
    ensures h != Unknown
  {
    MaxHealth(MaxHealth(MaxHealth(MaxHealth(MaxHealth(Healthy,
      if s.maintenance then Blocked else Healthy),
      if s.dataUnhealthy then Unhealthy else Healthy),
      if mono < s.rateLimitedUntil then Degraded else Healthy),
      DataSignal(s, nowMs, maxAgeMs)),
      DriftSignal(s))
  }

  lemma SignalsFolded(s: Signals, nowMs: int, mono: real, maxAgeMs: int, expectWs: bool, errors: nat, failures: nat)
    ensures WorstOf(AllSignals(s, nowMs, mono, maxAgeMs, expectWs, errors, failures)) ==
            MaxHealth(MaxHealth(MaxHealth(MaxHealth(FeedHealth(s, nowMs, mono, maxAgeMs),
              LatencySignal(s.latencies)),
              ErrorSignal(errors)),
              if failures >= 3 then Degraded else Healthy),
              if expectWs && s.wsConnected == Some(false) then Degraded else Healthy)
  {
    hide DataSignal, DriftSignal, LatencySignal, ErrorSignal, MaxHealth, WorstOf;
    SignalsUnrolled(AllSignals(s, nowMs, mono, maxAgeMs, expectWs, errors, failures));
  }

  class HealthTracker {
    var signals: Signals
    var errors: seq<real>
    var orderFailures: seq<real>
    var ordersOk: nat
    var ordersFailed: nat
    ghost var errorLog: seq<real>
    ghost var failureLog: seq<real>
    ghost var clock: real

    /** The deques hold the newest entries of logs recorded on a clock that never runs backwards. */
    ghost predicate Valid()
      reads this
    {
      && errors == Newest(errorLog, EVENT_CAP) && orderFailures == Newest(failureLog, EVENT_CAP)
      && Increasing(errorLog) && Increasing(failureLog)
      && (forall i | 0 <= i < |errorLog| :: errorLog[i] <= clock)
      && (forall i | 0 <= i < |failureLog| :: failureLog[i] <= clock)
      && |failureLog| == ordersFailed
      && |signals.latencies| <= LATENCY_CAP
    }

    constructor ()
      ensures Valid() && errorLog == [] && failureLog == []
    {
      signals := Signals(false, false, 0.0, 0, None, None, []);
      errors, orderFailures, ordersOk, ordersFailed := [], [], 0, 0;
      errorLog, failureLog, clock := [], [], 0.0;
    }

    method RecordLatency(ms: real)
      requires Valid()
      modifies this`signals
      ensures Valid() && signals == old(signals).(latencies := Newest(old(signals.latencies) + [ms], LATENCY_CAP))
    {
      signals := signals.(latencies := Newest(signals.latencies + [ms], LATENCY_CAP));
    }

    method RecordError(now: real)
      requires Valid() && clock <= now
      modifies this
      ensures Valid() && errorLog == old(errorLog) + [now] && failureLog == old(failureLog) && signals == old(signals)
    {
      NewestPush(errorLog, EVENT_CAP, now);
      errors := Newest(errors + [now], EVENT_CAP);
      errorLog := errorLog + [now];
      clock := now;
    }

    method RecordOrder(ok: bool, now: real)
      requires Valid() && clock <= now
      modifies this
      ensures Valid() && errorLog == old(errorLog) && signals == old(signals)
      ensures ordersOk == old(ordersOk) + (if ok then 1 else 0)
      ensures failureLog == old(failureLog) + (if ok then [] else [now])
    {
      if ok {
        ordersOk := ordersOk + 1;
      } else {
        NewestPush(failureLog, EVENT_CAP, now);
        ordersFailed := ordersFailed + 1;
        orderFailures := Newest(orderFailures + [now], EVENT_CAP);
        failureLog := failureLog + [now];
      }
      clock := now;
    }

    method ErrorsLast(seconds: real, now: real) returns (n: nat)
      ensures n == CountSince(errors, now - seconds)
    {
      n := CountIn(errors, now - seconds);
    }

    method CountIn(events: seq<real>, cutoff: real) returns (n: nat)
      ensures n == CountSince(events, cutoff)
    {
      n := 0;
      for i := 0 to |events|
        invariant n == CountSince(events[..i], cutoff)
      {
        assert events[..i+1][..i] == events[..i];
        if events[i] >= cutoff { n := n + 1; }
      }
      assert events[..|events|] == events;
    }

    /** Flags, market data and clock drift. */
    method ClassifyFeeds(nowMs: int, mono: real, maxAgeMs: int) returns (health: VenueHealth)
      ensures health == FeedHealth(signals, nowMs, mono, maxAgeMs)
    {
      health := Healthy;
      if signals.maintenance { health := Blocked; }
      if signals.dataUnhealthy { health := MaxHealth(health, Unhealthy); }
      if mono < signals.rateLimitedUntil { health := MaxHealth(health, Degraded); }
      if signals.lastMarketDataMs == 0 {
        health := MaxHealth(health, Unhealthy);
      } else if nowMs - signals.lastMarketDataMs > maxAgeMs {
        health := MaxHealth(health, if nowMs - signals.lastMarketDataMs > maxAgeMs * 4 then Unhealthy else Degraded);
      }
      if signals.clockDriftMs.Some? && Magnitude(signals.clockDriftMs.value) >= 10000 {
        health := MaxHealth(health, Unhealthy);
      } else if signals.clockDriftMs.Some? && Magnitude(signals.clockDriftMs.value) >= 1000 {
        health := MaxHealth(health, Degraded);
      }
    }

    /** Recent errors and order failures: the capped deques answer for the full logs. */
    method RecentEvents(mono: real) returns (errs: nat, failures: nat)
      requires Valid()
      ensures ErrorSignal(errs) == ErrorSignal(CountSince(errorLog, mono - 300.0))
      ensures failures >= 3 <==> CountSince(failureLog, mono - 3600.0) >= 3
    {
      hide CountSince, Newest;
      CapKeepsThresholds(errorLog, EVENT_CAP, mono - 300.0, 10);
      CapKeepsThresholds(errorLog, EVENT_CAP, mono - 300.0, 3);
      CapKeepsThresholds(failureLog, EVENT_CAP, mono - 3600.0, 3);
      errs := ErrorsLast(300.0, mono);
      failures := CountIn(orderFailures, mono - 3600.0);
    }

    /** The verdict is the worst of all signals, computed as if the event logs had never been capped. */
    method Classify(nowMs: int, mono: real, maxAgeMs: int, expectWs: bool) returns (health: VenueHealth)
      requires Valid()
      ensures health == WorstOf(AllSignals(signals, nowMs, mono, maxAgeMs, expectWs,
                                           CountSince(errorLog, mono - 300.0), CountSince(failureLog, mono - 3600.0)))
    {
      hide WorstOf, AllSignals, FeedHealth, Valid, Average, CountSince;
      SignalsFolded(signals, nowMs, mono, maxAgeMs, expectWs,
                    CountSince(errorLog, mono - 300.0), CountSince(failureLog, mono - 3600.0));
      health := ClassifyFeeds(nowMs, mono, maxAgeMs);
      var latencies := signals.latencies;
      if latencies != [] && Average(latencies) > 2500.0 { health := MaxHealth(health, Degraded); }
      var err, failures := RecentEvents(mono);
      if err >= 10 { health := MaxHealth(health, Unhealthy); }
      else if err >= 3 { health := MaxHealth(health, Degraded); }
      if failures >= 3 { health := MaxHealth(health, Degraded); }
      if expectWs && signals.wsConnected == Some(false) { health := MaxHealth(health, Degraded); }
    }
  }

  lemma SignalsUnrolled(s: seq<VenueHealth>)
    requires |s| == 10
    ensures WorstOf(s) == MaxHealth(MaxHealth(MaxHealth(MaxHealth(MaxHealth(MaxHealth(MaxHealth(MaxHealth(MaxHealth(
      s[0], s[1]), s[2]), s[3]), s[4]), s[5]), s[6]), s[7]), s[8]), s[9])
  {
    assert s[..9][..8] == s[..8] && s[..8][..7] == s[..7] && s[..7][..6] == s[..6] && s[..6][..5] == s[..5];
    assert s[..5][..4] == s[..4] && s[..4][..3] == s[..3] && s[..3][..2] == s[..2] && s[..2][..1] == s[..1];
    assert s[..1][..0] == [];
    assert WorstOf(s[..1]) == s[0];
    assert WorstOf(s[..2]) == MaxHealth(s[0], s[1]);
    assert WorstOf(s[..3]) == MaxHealth(WorstOf(s[..2]), s[2]);
    assert WorstOf(s[..4]) == MaxHealth(WorstOf(s[..3]), s[3]);
    assert WorstOf(s[..5]) == MaxHealth(WorstOf(s[..4]), s[4]);
    assert WorstOf(s[..6]) == MaxHealth(WorstOf(s[..5]), s[5]);
    assert WorstOf(s[..7]) == MaxHealth(WorstOf(s[..6]), s[6]);
    assert WorstOf(s[..8]) == MaxHealth(WorstOf(s[..7]), s[7]);
    assert WorstOf(s[..9]) == MaxHealth(WorstOf(s[..8]), s[8]);
  }

  // --- the verdict spelled out --------------------------------------------------------------------------

  /** Market data is that many times older than allowed, or was never received. */
  predicate Stale(s: Signals, nowMs: int, maxAgeMs: int, times: int) {
    s.lastMarketDataMs == 0 || (nowMs - s.lastMarketDataMs > maxAgeMs && nowMs - s.lastMarketDataMs > maxAgeMs * times)
  }

  /** The clock is known to be off by this much, either way. */
  predicate Drifted(s: Signals, ms: int) {
    s.clockDriftMs.Some? && (s.clockDriftMs.value >= ms || s.clockDriftMs.value <= -ms)
  }

  /**
   * What makes a venue blocked, what makes it unhealthy, and what must be absent for it to be healthy: every other venue is
   * degraded.
   */
  lemma VerdictIff(s: Signals, nowMs: int, mono: real, maxAgeMs: int, expectWs: bool, errors: nat, failures: nat)
    ensures var h := WorstOf(AllSignals(s, nowMs, mono, maxAgeMs, expectWs, errors, failures));
            && (h == Blocked <==> s.maintenance)
            && (h in {Blocked, Unhealthy} <==>
                  s.maintenance || s.dataUnhealthy || Stale(s, nowMs, maxAgeMs, 4) || Drifted(s, 10000) || errors >= 10)
            && (h == Healthy <==>
                  && !s.maintenance && !s.dataUnhealthy && s.rateLimitedUntil <= mono
                  && !Stale(s, nowMs, maxAgeMs, 1) && !Drifted(s, 1000) && errors < 3 && failures < 3
                  && (s.latencies == [] || Sum(s.latencies) <= 2500.0 * |s.latencies| as real)
                  && !(expectWs && s.wsConnected == Some(false)))
            && h != Unknown
  {
    hide Sum, Average, WorstOf;
    var all := AllSignals(s, nowMs, mono, maxAgeMs, expectWs, errors, failures);
    if s.latencies != [] { AverageIff(s.latencies, 2500.0); }
    DataIff(s, nowMs, maxAgeMs);
    hide DataSignal;
    assert all[0] == Healthy;
    VerdictOf(all);
  }

  /** What ten known signals come to. */
  lemma VerdictOf(all: seq<VenueHealth>)
    requires |all| == 10 && forall i | 0 <= i < 10 :: all[i] != Unknown
    ensures WorstOf(all) == Blocked <==> AnyOf(all, {Blocked})
    ensures WorstOf(all) in {Blocked, Unhealthy} <==> AnyOf(all, {Blocked, Unhealthy})
    ensures WorstOf(all) == Healthy <==> !AnyOf(all, {Blocked, Unhealthy, Degraded})
    ensures WorstOf(all) != Unknown
  {
    WorstOfIsWorst(all);
    assert forall i | 0 <= i < 10 :: all[i] in all;
  }

  predicate AnyOf(all: seq<VenueHealth>, bad: set<VenueHealth>)
    requires |all| == 10
  {
    all[0] in bad || all[1] in bad || all[2] in bad || all[3] in bad || all[4] in bad || all[5] in bad || all[6] in bad
    || all[7] in bad || all[8] in bad || all[9] in bad
  }

  lemma DataIff(s: Signals, nowMs: int, maxAgeMs: int)
    ensures var d := DataSignal(s, nowMs, maxAgeMs);
            && (d == Unhealthy <==> Stale(s, nowMs, maxAgeMs, 4)) && (d == Healthy <==> !Stale(s, nowMs, maxAgeMs, 1))
            && d in {Healthy, Degraded, Unhealthy}
            && (Stale(s, nowMs, maxAgeMs, 4) ==> Stale(s, nowMs, maxAgeMs, 1))
  {
  }

  lemma AverageIff(xs: seq<real>, most: real)
    requires xs != []
    ensures Average(xs) > most <==> Sum(xs) > most * |xs| as real
  {
    assert Average(xs) * |xs| as real == Sum(xs);
    ScaledCompare(Average(xs), most, |xs| as real);
    hide Sum;
  }
}
