/** Rolling failure counters: pruned deques that have to agree with the full log of events. */
module RollingWindows {
  import opened Logs
  import opened Money
  import opened Breakers

  /** One use of a counter at a monotonic time, with the window it asked for. */
  datatype Call = Call(recorded: bool, now: real, window: real) {
    function Edge(): real { now - window }
  }

  /** The event a call adds, if it adds one. */
  function Event(c: Call): seq<real> { if c.recorded then [c.now] else [] }

  /** Times of all events ever recorded. */
  function Log(calls: seq<Call>): seq<real> {
    if calls == [] then []
    else
      var n := |calls| - 1;
      Log(calls[..n]) + Event(calls[n])
  }

  /** The latest window edge any call has pruned to. */
  function Cutoff(calls: seq<Call>): real
    requires calls != []
  {
    var n := |calls| - 1;
    if n == 0 then calls[0].Edge() else Max(Cutoff(calls[..n]), calls[n].Edge())
  }

  function Since(log: seq<real>, cutoff: real): seq<real> {
    if log == [] then []
    else (if log[0] >= cutoff then [log[0]] else []) + Since(log[1..], cutoff)
  }

  /** Dropping expired events from the old end. */
  function Pruned(dq: seq<real>, now: real, window: real): seq<real> {
    if dq != [] && now - dq[0] > window then Pruned(dq[1..], now, window) else dq
  }

  /** The deque a counter holds after its calls. */
  function Deque(calls: seq<Call>): seq<real> {
    if calls == [] then []
    else
      var n := |calls| - 1;
      Pruned(Deque(calls[..n]) + Event(calls[n]), calls[n].now, calls[n].window)
  }

  /** The clock never runs backwards and windows are not negative. */
  ghost predicate Orderly(calls: seq<Call>) {
    && (forall i, j | 0 <= i < j < |calls| :: calls[i].now <= calls[j].now)
    && forall i | 0 <= i < |calls| :: calls[i].window >= 0.0
  }

  lemma {:induction false} LogOrdered(calls: seq<Call>)
    requires Orderly(calls)
    ensures Increasing(Log(calls))
    ensures calls != [] ==> forall i | 0 <= i < |Log(calls)| :: Log(calls)[i] <= calls[|calls|-1].now
  {
    if calls != [] { LogOrdered(calls[..|calls|-1]); }
  }

  lemma {:induction false} CutoffBelow(calls: seq<Call>)
    requires Orderly(calls) && calls != []
    ensures Cutoff(calls) <= calls[|calls|-1].now
  {
    var n := |calls| - 1;
    if n > 0 { CutoffBelow(calls[..n]); }
  }

  lemma {:induction false} SinceAppend(a: seq<real>, b: seq<real>, cutoff: real)
    ensures Since(a + b, cutoff) == Since(a, cutoff) + Since(b, cutoff)
  {
    if a == [] {
      assert a + b == b;
    } else {
      assert (a + b)[1..] == a[1..] + b && (a + b)[0] == a[0];
      SinceAppend(a[1..], b, cutoff);
      var first := if a[0] >= cutoff then [a[0]] else [];
      assert first + (Since(a[1..], cutoff) + Since(b, cutoff)) == first + Since(a[1..], cutoff) + Since(b, cutoff);
    }
  }

  lemma {:induction false} SinceKeeps(log: seq<real>, cutoff: real)
    requires Increasing(log)
    ensures Increasing(Since(log, cutoff))
    ensures forall x | x in Since(log, cutoff) :: x in log && x >= cutoff
  {
    if log != [] {
      var rest := Since(log[1..], cutoff);
      SinceKeeps(log[1..], cutoff);
      forall j | 0 <= j < |rest|
        ensures log[0] <= rest[j]
      {
        assert rest[j] in rest;
        assert rest[j] in log[1..];
      }
    }
  }

  /** Filtering twice is filtering by the later edge. */
  lemma {:induction false} SinceTwice(log: seq<real>, c: real, d: real)
    ensures Since(Since(log, c), d) == Since(log, Max(c, d))
  {
    if log != [] {
      SinceTwice(log[1..], c, d);
      if log[0] >= c {
        assert Since(log, c) == [log[0]] + Since(log[1..], c);
        assert Since(log, c)[1..] == Since(log[1..], c);
      } else {
        assert Since(log, c) == Since(log[1..], c);
      }
    }
  }

  /** On an ordered deque pruning from the old end removes every expired event. */
  lemma {:induction false} PrunedIsSince(dq: seq<real>, now: real, window: real)
    requires Increasing(dq)
    ensures Pruned(dq, now, window) == Since(dq, now - window)
  {
    if dq != [] {
      if now - dq[0] > window { PrunedIsSince(dq[1..], now, window); }
      else { SinceAll(dq, now - window); }
    }
  }

  lemma {:induction false} SinceAll(dq: seq<real>, cutoff: real)
    requires forall i | 0 <= i < |dq| :: dq[i] >= cutoff
    ensures Since(dq, cutoff) == dq
  {
    if dq != [] { SinceAll(dq[1..], cutoff); }
  }

  /** Whatever windows were mixed, the deque is the full log cut at the latest edge any call used. */
  lemma {:induction false} DequeIsCutLog(calls: seq<Call>)
    requires Orderly(calls) && calls != []
    ensures Deque(calls) == Since(Log(calls), Cutoff(calls))
  {
    var n := |calls| - 1;
    var before, c := calls[..n], calls[n];
    hide Since, Pruned;
    LogOrdered(calls);
    if n == 0 {
      assert before == [];
      PrunedIsSince(Event(c), c.now, c.window);
    } else {
      DequeIsCutLog(before);
      CutoffBelow(before);
      CutOnceMore(Log(before), c, Cutoff(before));
    }
  }

  /** A log cut at an edge, one more event and one more pruning: the longer log cut at the later edge. */
  lemma CutOnceMore(log: seq<real>, c: Call, cutoff: real)
    requires Increasing(log + Event(c)) && cutoff <= c.now
    ensures Pruned(Since(log, cutoff) + Event(c), c.now, c.window) == Since(log + Event(c), Max(cutoff, c.Edge()))
  {
    hide Since, Pruned;
    SinceAll(Event(c), cutoff);
    SinceAppend(log, Event(c), cutoff);
    SinceKeeps(log + Event(c), cutoff);
    PrunedIsSince(Since(log, cutoff) + Event(c), c.now, c.window);
    SinceTwice(log + Event(c), cutoff, c.Edge());
  }

  /** With one fixed window, any interleaving of records and counts reports the events of the unpruned log in the window. */
  lemma {:induction false} FixedWindowExact(calls: seq<Call>, window: real)
    requires Orderly(calls) && calls != []
    requires forall i | 0 <= i < |calls| :: calls[i].window == window
    ensures Deque(calls) == Since(Log(calls), calls[|calls|-1].now - window)
  {
    DequeIsCutLog(calls);
    FixedCutoff(calls, window);
  }

  lemma {:induction false} FixedCutoff(calls: seq<Call>, window: real)
    requires Orderly(calls) && calls != []
    requires forall i | 0 <= i < |calls| :: calls[i].window == window
    ensures Cutoff(calls) == calls[|calls|-1].now - window
  {
    var n := |calls| - 1;
    if n > 0 { FixedCutoff(calls[..n], window); }
  }

  /** With mixed windows the answer is still right exactly when no event lies between its own edge and the cutoff. */
  lemma MixedWindowsExactIff(calls: seq<Call>)
    requires Orderly(calls) && calls != []
    ensures var edge := calls[|calls|-1].Edge();
            |Deque(calls)| == |Since(Log(calls), edge)| <==>
            forall i | 0 <= i < |Log(calls)| :: Log(calls)[i] >= edge ==> Log(calls)[i] >= Cutoff(calls)
  {
    DequeIsCutLog(calls);
    CutoffAtLeast(calls);
    SinceLengths(Log(calls), calls[|calls|-1].Edge(), Cutoff(calls));
  }

  /** The answer of the last call is the number of logged events in its own window. */
  ghost predicate CountExact(calls: seq<Call>)
    requires calls != []
  {
    |Deque(calls)| == |Since(Log(calls), calls[|calls|-1].Edge())|
  }

  /** The same times and windows, whichever of the calls recorded an event. */
  ghost predicate SameUse(a: seq<Call>, b: seq<Call>) {
    |a| == |b| && forall i | 0 <= i < |a| :: a[i].now == b[i].now && a[i].window == b[i].window
  }

  /** No call was made after the last call's own edge but before the latest edge any call used. */
  ghost predicate NoCallBetween(calls: seq<Call>)
    requires calls != []
  {
    forall i | 0 <= i < |calls| :: calls[i].now >= calls[|calls|-1].Edge() ==> calls[i].now >= Cutoff(calls)
  }

  /**
   * What a caller can check on times and windows alone: mixed windows answer right, whatever is recorded, if and only if
   * no call fell between the last call's own edge and the latest one.
   */
  lemma MixedWindowsSafeIff(calls: seq<Call>)
    requires Orderly(calls) && calls != []
    ensures (forall marked | SameUse(calls, marked) :: CountExact(marked)) <==> NoCallBetween(calls)
  {
    hide CountExact, NoCallBetween, Orderly;
    if NoCallBetween(calls) {
      forall marked | SameUse(calls, marked)
        ensures CountExact(marked)
      {
        NoCallBetweenIsExact(calls, marked);
      }
    } else {
      CallBetweenMisses(calls);
    }
  }

  lemma NoCallBetweenIsExact(calls: seq<Call>, marked: seq<Call>)
    requires Orderly(calls) && calls != [] && SameUse(calls, marked) && NoCallBetween(calls)
    ensures CountExact(marked)
  {
    hide Deque, Log, Since, Cutoff;
    SameCutoff(calls, marked);
    MixedWindowsExactIff(marked);
    forall k | 0 <= k < |Log(marked)| && Log(marked)[k] >= calls[|calls|-1].Edge()
      ensures Log(marked)[k] >= Cutoff(marked)
    {
      LogIsOfCalls(marked, k);
      var i :| 0 <= i < |marked| && marked[i].now == Log(marked)[k];
      assert calls[i].now == marked[i].now;
    }
  }

  /** With every call recording, a call in between is an event that is missed. */
  lemma CallBetweenMisses(calls: seq<Call>)
    requires Orderly(calls) && calls != [] && !NoCallBetween(calls)
    ensures SameUse(calls, AllRecorded(calls)) && !CountExact(AllRecorded(calls))
  {
    hide Deque, Log, Since, Cutoff;
    var all := AllRecorded(calls);
    SameCutoff(calls, all);
    LogOfAll(calls);
    MixedWindowsExactIff(all);
    var i :| 0 <= i < |calls| && calls[i].now >= calls[|calls|-1].Edge() && calls[i].now < Cutoff(calls);
    assert Log(all)[i] == calls[i].now;
  }

  /** So it does whenever no call used a later edge than the last one. */
  lemma LatestEdgeIsSafe(calls: seq<Call>)
    requires Orderly(calls) && calls != []
    requires forall i | 0 <= i < |calls| :: calls[i].Edge() <= calls[|calls|-1].Edge()
    ensures NoCallBetween(calls) && CountExact(calls)
  {
    CutoffAtMost(calls, calls[|calls|-1].Edge());
    MixedWindowsSafeIff(calls);
  }

  lemma {:induction false} CutoffAtMost(calls: seq<Call>, edge: real)
    requires calls != [] && forall i | 0 <= i < |calls| :: calls[i].Edge() <= edge
    ensures Cutoff(calls) <= edge
  {
    var n := |calls| - 1;
    if n > 0 { CutoffAtMost(calls[..n], edge); }
  }

  lemma {:induction false} SameCutoff(a: seq<Call>, b: seq<Call>)
    requires SameUse(a, b) && a != []
    ensures Cutoff(a) == Cutoff(b)
  {
    var n := |a| - 1;
    if n > 0 { SameCutoff(a[..n], b[..n]); }
  }

  lemma {:induction false} LogIsOfCalls(calls: seq<Call>, k: nat)
    requires k < |Log(calls)|
    ensures exists i | 0 <= i < |calls| :: calls[i].now == Log(calls)[k]
  {
    var n := |calls| - 1;
    if k < |Log(calls[..n])| {
      LogIsOfCalls(calls[..n], k);
      var i :| 0 <= i < n && calls[..n][i].now == Log(calls[..n])[k];
      assert calls[i].now == Log(calls)[k];
    } else {
      assert calls[n].now == Log(calls)[k];
    }
  }

  function AllRecorded(calls: seq<Call>): (all: seq<Call>)
    ensures |all| == |calls| && forall i | 0 <= i < |calls| :: all[i] == calls[i].(recorded := true)
  {
    seq(|calls|, i requires 0 <= i < |calls| => calls[i].(recorded := true))
  }

  lemma {:induction false} LogOfAll(calls: seq<Call>)
    ensures |Log(AllRecorded(calls))| == |calls|
    ensures forall i | 0 <= i < |calls| :: Log(AllRecorded(calls))[i] == calls[i].now
  {
    if calls != [] {
      var n := |calls| - 1;
      assert AllRecorded(calls)[..n] == AllRecorded(calls[..n]);
      LogOfAll(calls[..n]);
    }
  }

  lemma CutoffAtLeast(calls: seq<Call>)
    requires calls != []
    ensures Cutoff(calls) >= calls[|calls|-1].Edge()
  {
  }

  lemma {:induction false} SinceLengths(log: seq<real>, c: real, d: real)
    requires c <= d
    ensures |Since(log, d)| <= |Since(log, c)|
    ensures |Since(log, d)| == |Since(log, c)| <==> forall i | 0 <= i < |log| :: log[i] >= c ==> log[i] >= d
  {
    if log != [] {
      SinceLengths(log[1..], c, d);
      assert (forall i | 0 <= i < |log| :: log[i] >= c ==> log[i] >= d) <==>
             (log[0] >= c ==> log[0] >= d) && (forall i | 0 <= i < |log[1..]| :: log[1..][i] >= c ==> log[1..][i] >= d) by {
        assert forall i | 1 <= i < |log| :: log[i] == log[1..][i-1];
      }
    }
  }

  /** A failure 100 s ago, counted over 10 s and then over an hour, is missed: the shorter count already dropped it. */
  lemma MixedWindowsMiss()
    ensures var calls := [Call(true, 0.0, 3600.0), Call(false, 100.0, 10.0), Call(false, 100.0, 3600.0)];
            |Deque(calls)| == 0 && |Since(Log(calls), calls[2].Edge())| == 1
  {
    var calls := [Call(true, 0.0, 3600.0), Call(false, 100.0, 10.0), Call(false, 100.0, 3600.0)];
    assert calls[..2][..1] == [calls[0]] && calls[..2] == [calls[0], calls[1]] && [calls[0]][..0] == [];
    assert Deque([calls[0]]) == [0.0];
    assert Log([calls[0]]) == [0.0];
    assert Deque([calls[0]]) + [] == [0.0] && Log([calls[0]]) + [] == [0.0];
    assert Pruned([0.0], 100.0, 10.0) == [];
    assert Deque(calls[..2]) == [] && Log(calls[..2]) == [0.0];
    assert Log(calls) == [0.0];
    assert [0.0][1..] == [];
  }

  class RollingCounters {
    var deques: map<string, seq<real>>
    ghost var calls: map<string, seq<Call>>

    ghost function Calls(counter: string): seq<Call>
      reads this
    {
      if counter in calls then calls[counter] else []
    }

    function Dq(counter: string): seq<real>
      reads this
    {
      if counter in deques then deques[counter] else []
    }

    ghost predicate Valid()
      reads this
    {
      forall k :: Dq(k) == Deque(Calls(k))
    }

    constructor ()
      ensures Valid() && deques == map[] && calls == map[]
    {
      deques, calls := map[], map[];
    }

    /** Adds an event now and prunes; the result is the length of the deque that all calls so far define. */
    method Record(counter: string, windowS: real, now: real) returns (n: nat)
      requires Valid()
      modifies this
      ensures Valid() && Calls(counter) == old(Calls(counter)) + [Call(true, now, windowS)]
      ensures forall k | k != counter :: Calls(k) == old(Calls(k))
      ensures n == |Deque(Calls(counter))|
    {
      var dq := Dq(counter) + [now];
      n := Prune(counter, dq, windowS, now, Call(true, now, windowS));
    }

    method Count(counter: string, windowS: real, now: real) returns (n: nat)
      requires Valid()
      modifies this
      ensures Valid() && Calls(counter) == old(Calls(counter)) + [Call(false, now, windowS)]
      ensures forall k | k != counter :: Calls(k) == old(Calls(k))
      ensures n == |Deque(Calls(counter))|
    {
      var dq := Dq(counter);
      assert dq + [] == dq;
      n := Prune(counter, dq, windowS, now, Call(false, now, windowS));
    }

    method Prune(counter: string, full: seq<real>, windowS: real, now: real, ghost c: Call) returns (n: nat)
      requires Valid() && c.now == now && c.window == windowS
      requires full == Dq(counter) + Event(c)
      modifies this
      ensures Valid() && Calls(counter) == old(Calls(counter)) + [c]
      ensures forall k | k != counter :: Calls(k) == old(Calls(k))
      ensures n == |Deque(Calls(counter))|
    {
      var dq := full;
      while dq != [] && now - dq[0] > windowS
        invariant Pruned(dq, now, windowS) == Pruned(full, now, windowS)
        decreases |dq|
      {
        dq := dq[1..];
      }
      ghost var all := Calls(counter) + [c];
      assert all[..|all|-1] == Calls(counter) && all[|all|-1] == c;
      assert dq == Pruned(full, now, windowS) == Deque(all);
      deques := deques[counter := dq];
      calls := calls[counter := all];
      n := |dq|;
      forall k
        ensures Dq(k) == Deque(Calls(k))
      {
        if k != counter { assert Dq(k) == old(Dq(k)) && Calls(k) == old(Calls(k)); }
      }
    }

    /** Trips a breaker exactly when the events in the window reach the threshold. */
    method RecordAndCheck(counter: string, threshold: int, reason: BreakerReason, detail: string, scope: string,
                          windowS: real, now: real, nowMs: int, manager: CircuitBreakerManager) returns (tripped: bool)
      requires Valid() && manager.Valid()
      modifies this, manager, manager.repo`rows
      ensures Valid() && manager.Valid()
      ensures Calls(counter) == old(Calls(counter)) + [Call(true, now, windowS)]
      ensures tripped <==> |Deque(Calls(counter))| >= threshold
      ensures tripped ==> manager.active == Tripped(old(manager.active), Breaker(reason, detail, scope, true, nowMs))
      ensures !tripped ==> manager.active == old(manager.active)
    {
      var n := Record(counter, windowS, now);
      tripped := n >= threshold;
      if tripped { var _ := manager.Trip(reason, detail, scope, true, nowMs); }
    }
  }
}
