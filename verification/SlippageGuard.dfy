/** SLIPPAGE GUARD: limits by asset, venue, route and trade size. */
module SlippageGuards {
  import opened Wrappers
  import opened Money
  import opened Settings

  // --- size tiers -------------------------------------------------------------------------

  function InsertedTier(t: Tier, s: seq<Tier>): seq<Tier> {
    if s == [] || t.threshold <= s[0].threshold then [t] + s else [s[0]] + InsertedTier(t, s[1..])
  }

  /** The tiers by threshold; equal thresholds keep their configured order. */
  function SortedTiers(s: seq<Tier>): seq<Tier> {
    if s == [] then [] else InsertedTier(s[0], SortedTiers(s[1..]))
  }

  ghost predicate ByThreshold(s: seq<Tier>) {
    forall i, j | 0 <= i < j < |s| :: s[i].threshold <= s[j].threshold
  }

  lemma {:induction false} InsertedTierSorted(t: Tier, s: seq<Tier>)
    requires ByThreshold(s)
    ensures ByThreshold(InsertedTier(t, s))
    ensures InsertedTier(t, s)[0] == t || (s != [] && InsertedTier(t, s)[0] == s[0])
  {
    if s != [] && t.threshold > s[0].threshold {
      InsertedTierSorted(t, s[1..]);
      var r := InsertedTier(t, s[1..]);
      assert s[0].threshold <= r[0].threshold by { if 1 < |s| { assert s[1..][0] == s[1]; } }
      assert forall j | 0 < j < |r| :: r[0].threshold <= r[j].threshold;
    }
  }

  lemma {:induction false} InsertedTierKeeps(t: Tier, s: seq<Tier>)
    ensures multiset(InsertedTier(t, s)) == multiset(s) + multiset{t}
    ensures |InsertedTier(t, s)| == |s| + 1
  {
    if s != [] && t.threshold > s[0].threshold {
      InsertedTierKeeps(t, s[1..]);
      assert s == [s[0]] + s[1..];
    }
  }

  lemma {:induction false} SortedTiersSorted(s: seq<Tier>)
    ensures ByThreshold(SortedTiers(s)) && multiset(SortedTiers(s)) == multiset(s) && |SortedTiers(s)| == |s|
  {
    if s != [] {
      SortedTiersSorted(s[1..]);
      InsertedTierSorted(s[0], SortedTiers(s[1..]));
      InsertedTierKeeps(s[0], SortedTiers(s[1..]));
      assert s == [s[0]] + s[1..];
    }
  }

  /** The first tier, in threshold order, that a notional still fits. */
  function FirstFit(s: seq<Tier>, notional: real): (i: nat)
    ensures i <= |s|
    ensures forall j | 0 <= j < i :: s[j].threshold < notional
    ensures i < |s| ==> notional <= s[i].threshold
  {
    if s == [] || notional <= s[0].threshold then 0 else
    var rest := FirstFit(s[1..], notional);
    assert forall j | 1 <= j < |s| :: s[j] == s[1..][j-1];
    rest + 1
  }

  /** The tightest tier. */
  function Tightest(s: seq<Tier>): (r: real)
    requires s != []
    ensures forall i | 0 <= i < |s| :: r <= s[i].maxPct
    ensures exists i | 0 <= i < |s| :: s[i].maxPct == r
  {
    if |s| == 1 then s[0].maxPct
    else
      var rest := Tightest(s[1..]);
      assert forall i | 1 <= i < |s| :: s[i] == s[1..][i-1];
      var k :| 0 <= k < |s[1..]| && s[1..][k].maxPct == rest;
      assert s[0].maxPct == Min(s[0].maxPct, rest) || s[k+1].maxPct == Min(s[0].maxPct, rest);
      Min(s[0].maxPct, rest)
  }

  /** The limit of the size tiers: the first fitting one, and above all of them the tightest. */
  function TierLimit(tiers: seq<Tier>, notional: real): Option<real> {
    var s := SortedTiers(tiers);
    var i := FirstFit(s, notional);
    if i < |s| then Some(s[i].maxPct) else if tiers == [] then None else Some(Tightest(tiers))
  }

  function Tighten(limit: real, m: map<string, real>, key: string): real {
    if key in m then Min(limit, m[key]) else limit
  }

  function LimitOf(s: SlippageSettings, asset: string, venue: string, route: string, notional: real): real {
    var named := Tighten(Tighten(Tighten(s.defaultMaxPct, s.perAssetMaxPct, asset), s.perVenueMaxPct, venue),
                         s.perRouteMaxPct, route);
    var tier := TierLimit(s.sizeTiers, notional);
    if tier.Some? then Min(named, tier.value) else named
  }

  method TierLimitFor(tiers: seq<Tier>, notionalUsd: real) returns (limit: Option<real>)
    ensures limit == TierLimit(tiers, notionalUsd)
  {
    hide SortedTiers, InsertedTier, FirstFit, Tightest;
    var sorted := SortedTiers(tiers);
    SortedTiersSorted(tiers);
    limit := None;
    var i := 0;
    while i < |sorted|
      invariant 0 <= i <= |sorted|
      invariant limit.None?
      invariant forall j | 0 <= j < i :: sorted[j].threshold < notionalUsd
    {
      if notionalUsd <= sorted[i].threshold {
        assert FirstFit(sorted, notionalUsd) == i;
        return Some(sorted[i].maxPct);
      }
      i := i + 1;
    }
    if tiers != [] { limit := Some(Tightest(tiers)); }
  }

  method LimitFor(s: SlippageSettings, asset: string, venue: string, route: string, notionalUsd: real) returns (limit: real)
    ensures limit == LimitOf(s, asset, venue, route, notionalUsd)
  {
    hide TierLimit;
    limit := s.defaultMaxPct;
    if asset in s.perAssetMaxPct { limit := Min(limit, s.perAssetMaxPct[asset]); }
    if venue in s.perVenueMaxPct { limit := Min(limit, s.perVenueMaxPct[venue]); }
    if route in s.perRouteMaxPct { limit := Min(limit, s.perRouteMaxPct[route]); }
    var tierLimit := TierLimitFor(s.sizeTiers, notionalUsd);
    if tierLimit.Some? { limit := Min(limit, tierLimit.value); }
  }

  /** A leg passes when its slippage and impact together stay within the limit. */
  predicate Passes(s: SlippageSettings, leg: ExecutionQuote, route: string, notional: real, asset: string) {
    leg.slippagePct + leg.priceImpactPct <= LimitOf(s, asset, leg.venue, route, notional)
  }

  // --- larger trades, tighter limits ---------------------------------------------------------------

  /** Some notional is answered by this tier: it is the first of its threshold. */
  ghost predicate Reachable(s: seq<Tier>, i: int) {
    0 <= i < |s| && (i == 0 || s[i-1].threshold < s[i].threshold)
  }

  /** The tiers that can apply never loosen as the threshold grows. */
  ghost predicate NonIncreasing(s: seq<Tier>) {
    forall i, j | 0 <= i < j < |s| && Reachable(s, i) && Reachable(s, j) :: s[j].maxPct <= s[i].maxPct
  }

  ghost predicate TierOrder(tiers: seq<Tier>, small: real, large: real) {
    var a, b := TierLimit(tiers, small), TierLimit(tiers, large);
    a.Some? ==> b.Some? && b.value <= a.value
  }

  /** Larger trades always get the same or a tighter tier limit exactly when the reachable tiers are non-increasing. */
  lemma TiersTightenIff(tiers: seq<Tier>)
    ensures NonIncreasing(SortedTiers(tiers)) <==>
            forall small, large | small <= large :: TierOrder(tiers, small, large)
  {
    hide SortedTiers, FirstFit, Tightest, TierOrder;
    var s := SortedTiers(tiers);
    SortedTiersOrdered(tiers);
    if NonIncreasing(s) {
      forall small, large | small <= large
        ensures TierOrder(tiers, small, large)
      {
        TierShrinks(tiers, small, large);
      }
    } else {
      var i, j :| 0 <= i < j < |s| && Reachable(s, i) && Reachable(s, j) && s[j].maxPct > s[i].maxPct;
      TiersOutOfOrder(tiers, i, j);
      assert s[i].threshold <= s[j].threshold;
    }
  }

  lemma TiersOutOfOrder(tiers: seq<Tier>, i: nat, j: nat)
    requires var s := SortedTiers(tiers); Reachable(s, i) && Reachable(s, j) && s[j].maxPct > s[i].maxPct
    ensures var s := SortedTiers(tiers); !TierOrder(tiers, s[i].threshold, s[j].threshold)
  {
    hide SortedTiers, FirstFit, Tightest;
    SortedTiersOrdered(tiers);
    ReachedAtThreshold(SortedTiers(tiers), i);
    ReachedAtThreshold(SortedTiers(tiers), j);
  }

  lemma ReachedAtThreshold(s: seq<Tier>, i: nat)
    requires ByThreshold(s) && Reachable(s, i)
    ensures FirstFit(s, s[i].threshold) == i
  {
    var k := FirstFit(s, s[i].threshold);
    assert k >= i;
  }

  lemma SortedTiersOrdered(tiers: seq<Tier>)
    ensures ByThreshold(SortedTiers(tiers)) && |SortedTiers(tiers)| == |tiers|
  {
    SortedTiersSorted(tiers);
  }

  lemma TightestOfSorted(tiers: seq<Tier>, i: nat)
    requires i < |SortedTiers(tiers)| && tiers != []
    ensures Tightest(tiers) <= SortedTiers(tiers)[i].maxPct
  {
    hide SortedTiers, InsertedTier, Tightest;
    SortedTiersSorted(tiers);
    var t := SortedTiers(tiers)[i];
    assert t in multiset(SortedTiers(tiers));
    assert t in multiset(tiers);
    var k :| 0 <= k < |tiers| && tiers[k] == t;
  }

  lemma FitsInOrder(s: seq<Tier>, small: real, large: real)
    requires ByThreshold(s) && small <= large
    ensures FirstFit(s, small) <= FirstFit(s, large)
    ensures FirstFit(s, small) < |s| ==> Reachable(s, FirstFit(s, small))
    ensures FirstFit(s, large) < |s| ==> Reachable(s, FirstFit(s, large))
  {
    hide FirstFit;
    var i, j := FirstFit(s, small), FirstFit(s, large);
    if j < |s| { assert large <= s[j].threshold; }
  }

  lemma NonIncreasingAt(s: seq<Tier>, i: nat, j: nat)
    requires NonIncreasing(s) && i <= j < |s| && Reachable(s, i) && Reachable(s, j)
    ensures s[j].maxPct <= s[i].maxPct
  {
  }

  lemma TierShrinks(tiers: seq<Tier>, small: real, large: real)
    requires NonIncreasing(SortedTiers(tiers)) && small <= large
    ensures TierOrder(tiers, small, large)
  {
    hide SortedTiers, FirstFit, Tightest, NonIncreasing, Reachable, ByThreshold;
    var s := SortedTiers(tiers);
    SortedTiersOrdered(tiers);
    var i, j := FirstFit(s, small), FirstFit(s, large);
    FitsInOrder(s, small, large);
    if j < |s| { NonIncreasingAt(s, i, j); }
    else if i < |s| { TightestOfSorted(tiers, i); }
  }

  /** With such tiers the whole limit only tightens as the trade grows. */
  lemma LimitShrinks(s: SlippageSettings, asset: string, venue: string, route: string, small: real, large: real)
    requires NonIncreasing(SortedTiers(s.sizeTiers)) && small <= large
    ensures LimitOf(s, asset, venue, route, large) <= LimitOf(s, asset, venue, route, small)
  {
    TierShrinks(s.sizeTiers, small, large);
  }

  // --- the limit without the search for it -----------------------------------------------------------

  /** Tier `i` is the first configured one among the smallest that a notional fits. */
  ghost predicate SmallestFit(tiers: seq<Tier>, notional: real, i: nat) {
    && i < |tiers| && notional <= tiers[i].threshold
    && (forall j | 0 <= j < |tiers| && notional <= tiers[j].threshold :: tiers[i].threshold <= tiers[j].threshold)
    && (forall j | 0 <= j < i :: tiers[j].threshold != tiers[i].threshold)
  }

  /** In configured order: that tier decides; a trade larger than all of them gets the tightest; without tiers none does. */
  lemma TierLimitIs(tiers: seq<Tier>, notional: real, i: nat)
    ensures SmallestFit(tiers, notional, i) ==> TierLimit(tiers, notional) == Some(tiers[i].maxPct)
    ensures tiers != [] && (forall t | t in tiers :: t.threshold < notional) ==>
              TierLimit(tiers, notional).Some? && TierLimit(tiers, notional).value in Limits(tiers)
              && forall t | t in tiers :: TierLimit(tiers, notional).value <= t.maxPct
    ensures tiers == [] ==> TierLimit(tiers, notional) == None
  {
    hide SortedTiers, InsertedTier, Tightest;
    var s := SortedTiers(tiers);
    SortedTiersSorted(tiers);
    if SmallestFit(tiers, notional, i) { FirstOfSorted(tiers, notional, i); }
    if tiers != [] && forall t | t in tiers :: t.threshold < notional {
      forall k | 0 <= k < |s|
        ensures s[k].threshold < notional
      {
        assert s[k] in multiset(s) && s[k] in multiset(tiers);
      }
      var j :| 0 <= j < |tiers| && tiers[j].maxPct == Tightest(tiers);
      assert Limits(tiers)[j] == Tightest(tiers);
    }
  }

  function Limits(tiers: seq<Tier>): (limits: seq<real>)
    ensures |limits| == |tiers| && forall i | 0 <= i < |tiers| :: limits[i] == tiers[i].maxPct
  {
    seq(|tiers|, i requires 0 <= i < |tiers| => tiers[i].maxPct)
  }

  /** Sorting puts that tier first among the fitting ones. */
  lemma {:induction false} FirstOfSorted(tiers: seq<Tier>, notional: real, i: nat)
    requires SmallestFit(tiers, notional, i)
    ensures var s := SortedTiers(tiers); FirstFit(s, notional) < |s| && s[FirstFit(s, notional)] == tiers[i]
  {
    hide InsertedTier;
    var t, rest := tiers[0], tiers[1..];
    SortedTiersSorted(rest);
    if i > 0 {
      assert forall j | 0 <= j < |rest| :: rest[j] == tiers[j+1];
      FirstOfSorted(rest, notional, i - 1);
    } else {
      FittingOnesLarger(rest, t, notional);
    }
    InsertedFirst(t, SortedTiers(rest), notional);
  }

  lemma FittingOnesLarger(rest: seq<Tier>, t: Tier, notional: real)
    requires SmallestFit([t] + rest, notional, 0)
    ensures var s := SortedTiers(rest); FirstFit(s, notional) < |s| ==> t.threshold <= s[FirstFit(s, notional)].threshold
  {
    hide SortedTiers;
    var s, all := SortedTiers(rest), [t] + rest;
    SortedTiersSorted(rest);
    var k := FirstFit(s, notional);
    if k < |s| {
      assert s[k] in multiset(s) && s[k] in multiset(rest);
      var j :| 0 <= j < |rest| && rest[j] == s[k];
      assert all[j+1] == s[k];
    }
  }

  lemma {:induction false} InsertedFirst(t: Tier, s: seq<Tier>, notional: real)
    requires ByThreshold(s)
    ensures var r, k := InsertedTier(t, s), FirstFit(s, notional);
            if notional <= t.threshold && (k < |s| ==> t.threshold <= s[k].threshold)
            then FirstFit(r, notional) < |r| && r[FirstFit(r, notional)] == t
            else k < |s| ==> FirstFit(r, notional) < |r| && r[FirstFit(r, notional)] == s[k]
  {
    if s == [] || t.threshold <= s[0].threshold {
      assert ([t] + s)[1..] == s;
    } else {
      InsertedFirst(t, s[1..], notional);
      assert InsertedTier(t, s)[1..] == InsertedTier(t, s[1..]);
    }
  }

  /** The limit of a leg is the tightest of the default, of those named for asset, venue and route, and of the size tiers. */
  lemma LimitIsTightest(s: SlippageSettings, asset: string, venue: string, route: string, notional: real)
    ensures var limit, tier := LimitOf(s, asset, venue, route, notional), TierLimit(s.sizeTiers, notional);
            && limit <= s.defaultMaxPct && (asset in s.perAssetMaxPct ==> limit <= s.perAssetMaxPct[asset])
            && (venue in s.perVenueMaxPct ==> limit <= s.perVenueMaxPct[venue])
            && (route in s.perRouteMaxPct ==> limit <= s.perRouteMaxPct[route]) && (tier.Some? ==> limit <= tier.value)
            && (|| limit == s.defaultMaxPct || (asset in s.perAssetMaxPct && limit == s.perAssetMaxPct[asset])
                || (venue in s.perVenueMaxPct && limit == s.perVenueMaxPct[venue])
                || (route in s.perRouteMaxPct && limit == s.perRouteMaxPct[route]) || limit == (if tier.Some? then tier.value else s.defaultMaxPct))
  {
    hide TierLimit;
  }
}
