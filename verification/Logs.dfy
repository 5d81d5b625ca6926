/** Timed event logs and the capped deques that keep their newest entries. */
module Logs {

  ghost predicate Increasing(s: seq<real>) { forall i, j | 0 <= i < j < |s| :: s[i] <= s[j] }

  /** The last `cap` entries. */
  function Newest<T>(log: seq<T>, cap: nat): seq<T> {
    if |log| <= cap then log else log[|log|-cap..]
  }

  /** Capping after every push is the same as capping the whole log once. */
  lemma NewestPush<T>(log: seq<T>, cap: nat, t: T)
    requires cap > 0
    ensures Newest(Newest(log, cap) + [t], cap) == Newest(log + [t], cap)
  {
    if |log| > cap { assert (log[|log|-cap..] + [t])[1..] == (log + [t])[|log|+1-cap..]; }
  }
}
