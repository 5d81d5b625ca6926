/** The emergency stop: a flag, a global breaker and a saved document that have to agree across restarts. */
module EmergencyStops {
  import opened Wrappers
  import opened Breakers

  class EmergencyStop {
    const breakers: CircuitBreakerManager
    var stopped: bool

    ghost predicate Consistent()
      reads this, breakers, breakers.repo
    {
      breakers.Valid()
    }

    /** Between operations the flag is exactly what the saved document says. */
    ghost predicate Valid()
      reads this, breakers, breakers.repo
    {
      Consistent() && (stopped <==> breakers.repo.stopDoc == Some(true))
    }

    constructor (manager: CircuitBreakerManager)
      ensures breakers == manager && !stopped
    {
      breakers, stopped := manager, false;
    }

    /** Nothing may trade: the flag is set or a global breaker is active. */
    ghost predicate Halted()
      reads this, breakers
    {
      stopped || exists b | b in breakers.active :: b.scope == "global"
    }

    /** The part of an activation that precedes cancelling orders and saving the document. */
    method BeginActivation(reason: string, nowMs: int)
      requires Consistent()
      modifies this, breakers, breakers.repo`rows
      ensures Consistent() && stopped && Halted()
      ensures Active(breakers.active, "global", Manual)
      ensures exists b | b in breakers.active :: b.scope == "global" && b.reason == Manual
      ensures breakers.active == Tripped(old(breakers.active), Breaker(Manual, "emergency stop: " + reason, "global", false, nowMs))
    {
      stopped := true;
      var b := breakers.Trip(Manual, "emergency stop: " + reason, "global", false, nowMs);
      KeyInjective(b.scope, b.reason, "global", Manual);
      ActiveIsMember(breakers.active, "global", Manual);
    }

    method Activate(reason: string, nowMs: int)
      requires Valid()
      modifies this, breakers, breakers.repo
      ensures Valid() && stopped
      ensures breakers.active == Tripped(old(breakers.active), Breaker(Manual, "emergency stop: " + reason, "global", false, nowMs))
    {
      BeginActivation(reason, nowMs);
      breakers.repo.stopDoc := Some(true);
    }

    /** The part of a release that precedes saving the document. */
    method BeginRelease()
      requires Consistent()
      modifies this, breakers, breakers.repo`rows
      ensures Consistent() && !stopped
      ensures breakers.active == Kept(old(breakers.active), Some(Manual), None)
      ensures forall b | b in breakers.active :: b.reason != Manual
    {
      stopped := false;
      var _ := breakers.Reset(Some(Manual), None);
      KeptSound(old(breakers.active), Some(Manual), None);
    }

    method Release()
      requires Valid()
      modifies this, breakers, breakers.repo
      ensures Valid() && !stopped
      ensures breakers.active == Kept(old(breakers.active), Some(Manual), None)
    {
      BeginRelease();
      breakers.repo.stopDoc := Some(false);
    }

    method Restore()
      modifies this
      ensures stopped == (old(stopped) || breakers.repo.stopDoc == Some(true))
    {
      if breakers.repo.stopDoc == Some(true) { stopped := true; }
    }
  }

  /** A process restart at any point where the breaker table is consistent. */
  method RestartStop(before: EmergencyStop) returns (after: EmergencyStop)
    requires before.Consistent()
    ensures fresh(after) && fresh(after.breakers) && after.breakers.repo == before.breakers.repo
    ensures after.Valid() && after.breakers.active == before.breakers.active
    ensures after.stopped <==> before.breakers.repo.stopDoc == Some(true)
  {
    var manager := Restart(before.breakers);
    after := new EmergencyStop(manager);
    after.Restore();
  }

  /** A crash during activation, before the document is saved: the restarted process is still halted. */
  method CrashDuringActivation(stop: EmergencyStop, reason: string, nowMs: int) returns (after: EmergencyStop)
    requires stop.Valid()
    modifies stop, stop.breakers, stop.breakers.repo`rows
    ensures after.Valid() && after.Halted()
  {
    stop.BeginActivation(reason, nowMs);
    after := RestartStop(stop);
  }

  /** A crash during release, before the document is saved: the restarted process is still stopped. */
  method CrashDuringRelease(stop: EmergencyStop) returns (after: EmergencyStop)
    requires stop.Valid() && stop.stopped
    modifies stop, stop.breakers, stop.breakers.repo`rows
    ensures after.Valid() && after.stopped
  {
    stop.BeginRelease();
    after := RestartStop(stop);
  }

  datatype StopOp = OpActivate(why: string, nowMs: int) | OpRelease | OpReboot | OpResetBreakers(only: Option<BreakerReason>, scope: Option<string>)

  /** Whether the last activation in a history has not been released. */
  function StoppedAfter(ops: seq<StopOp>): bool {
    if ops == [] then false
    else match ops[|ops|-1]
      case OpActivate(_, _) => true
      case OpRelease => false
      case _ => StoppedAfter(ops[..|ops|-1])
  }

  /** Over any run, restarts and breaker resets included, the stop holds from activation until release. */
  method ExecuteStops(ops: seq<StopOp>) returns (stop: EmergencyStop)
    ensures stop.Valid() && stop.stopped == StoppedAfter(ops)
  {
    var repo := new Repo();
    var manager := new CircuitBreakerManager(repo);
    stop := new EmergencyStop(manager);
    var i := 0;
    while i < |ops|
      invariant 0 <= i <= |ops|
      invariant fresh(repo) && stop.breakers.repo == repo && fresh(stop) && fresh(stop.breakers)
      invariant stop.Valid() && stop.stopped == StoppedAfter(ops[..i])
    {
      assert ops[..i+1][..i] == ops[..i];
      match ops[i] {
        case OpActivate(reason, nowMs) => stop.Activate(reason, nowMs);
        case OpRelease => stop.Release();
        case OpReboot => stop := RestartStop(stop);
        case OpResetBreakers(reason, scope) => var _ := stop.breakers.Reset(reason, scope);
      }
      i := i + 1;
    }
    assert ops[..|ops|] == ops;
  }
}
