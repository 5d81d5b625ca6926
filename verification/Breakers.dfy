/** Circuit breakers: the active set in memory, its rows in the database, and what survives a restart. */
module Breakers {
  import opened Wrappers

  datatype BreakerReason =
    | UnexpectedFees | AbnormalSlippage | RepeatedOrderFailure | DexTxFailure | RpcFailure | WebsocketFailure
    | MarketDataFailure | FlashLoanFailure | BalanceDiscrepancy | PositionDiscrepancy | PredictionError
    | RapidMarketMove | GasSpike | FundingAnomaly | ExchangeMaintenance | RateLimit | OneLegFill | DailyLossLimit
    | Manual

  function ReasonName(r: BreakerReason): string {
    match r
    case UnexpectedFees => "unexpected_fees"
    case AbnormalSlippage => "abnormal_slippage"
    case RepeatedOrderFailure => "repeated_order_failure"
    case DexTxFailure => "dex_tx_failure"
    case RpcFailure => "rpc_failure"
    case WebsocketFailure => "websocket_failure"
    case MarketDataFailure => "market_data_failure"
    case FlashLoanFailure => "flash_loan_failure"
    case BalanceDiscrepancy => "balance_discrepancy"
    case PositionDiscrepancy => "position_discrepancy"
    case PredictionError => "prediction_error"
    case RapidMarketMove => "rapid_market_move"
    case GasSpike => "gas_spike"
    case FundingAnomaly => "funding_anomaly"
    case ExchangeMaintenance => "exchange_maintenance"
    case RateLimit => "rate_limit"
    case OneLegFill => "one_leg_fill"
    case DailyLossLimit => "daily_loss_limit"
    case Manual => "manual"
  }

  datatype Breaker = Breaker(reason: BreakerReason, detail: string, scope: string, auto: bool, trippedAtMs: int) {
    function Key(): string { KeyOf(scope, reason) }
  }

  function KeyOf(scope: string, reason: BreakerReason): string { scope + "|" + ReasonName(reason) }

  /** A key determines its scope and reason: no reason name contains the separator and no two are equal. */
  lemma KeyInjective(s: string, r: BreakerReason, t: string, q: BreakerReason)
    requires KeyOf(s, r) == KeyOf(t, q)
    ensures s == t && r == q
  {
    hide ReasonName;
    var a, b := ReasonName(r), ReasonName(q);
    NoSeparator(r);
    NoSeparator(q);
    var k := KeyOf(s, r);
    assert k[|s|] == '|' && k[|t|] == '|';
    assert |s| == |t|;
    assert k[..|s|] == s && k[..|t|] == t;
    assert k[|s|+1..] == a && k[|t|+1..] == b;
    NamesDistinct(r, q);
  }

  lemma NoSeparator(r: BreakerReason)
    ensures '|' !in ReasonName(r)
  {
    hide ReasonName;
    if r in {UnexpectedFees, AbnormalSlippage, RepeatedOrderFailure, DexTxFailure, RpcFailure, WebsocketFailure} {
      NoSeparatorFirst(r);
    } else if r in {MarketDataFailure, FlashLoanFailure, BalanceDiscrepancy, PositionDiscrepancy, PredictionError, RapidMarketMove} {
      NoSeparatorSecond(r);
    } else {
      NoSeparatorThird(r);
    }
  }

  lemma NoSeparatorFirst(r: BreakerReason)
    requires r in {UnexpectedFees, AbnormalSlippage, RepeatedOrderFailure, DexTxFailure, RpcFailure, WebsocketFailure}
    ensures '|' !in ReasonName(r)
  {
  }

  lemma NoSeparatorSecond(r: BreakerReason)
    requires r in {MarketDataFailure, FlashLoanFailure, BalanceDiscrepancy, PositionDiscrepancy, PredictionError, RapidMarketMove}
    ensures '|' !in ReasonName(r)
  {
  }

  lemma NoSeparatorThird(r: BreakerReason)
    requires r in {GasSpike, FundingAnomaly, ExchangeMaintenance, RateLimit, OneLegFill, DailyLossLimit, Manual}
    ensures '|' !in ReasonName(r)
  {
  }

  lemma NamesDistinct(r: BreakerReason, q: BreakerReason)
    requires ReasonName(r) == ReasonName(q)
    ensures r == q
  {
    hide ReasonName;
    NameLetters(r);
    NameLetters(q);
  }

  /** Length and first letters already tell the nineteen names apart. */
  function NameCode(r: BreakerReason): (int, char, char) {
    var n := ReasonName(r);
    (|n|, if |n| > 0 then n[0] else ' ', if |n| > 3 then n[3] else ' ')
  }

  lemma NameLetters(r: BreakerReason)
    ensures NameCode(r) == match r
      case UnexpectedFees => (15, 'u', 'x')
      case AbnormalSlippage => (17, 'a', 'o')
      case RepeatedOrderFailure => (22, 'r', 'e')
      case DexTxFailure => (14, 'd', '_')
      case RpcFailure => (11, 'r', '_')
      case WebsocketFailure => (17, 'w', 's')
      case MarketDataFailure => (19, 'm', 'k')
      case FlashLoanFailure => (18, 'f', 's')
      case BalanceDiscrepancy => (19, 'b', 'a')
      case PositionDiscrepancy => (20, 'p', 'i')
      case PredictionError => (16, 'p', 'd')
      case RapidMarketMove => (17, 'r', 'i')
      case GasSpike => (9, 'g', '_')
      case FundingAnomaly => (15, 'f', 'd')
      case ExchangeMaintenance => (20, 'e', 'h')
      case RateLimit => (10, 'r', 'e')
      case OneLegFill => (12, 'o', '_')
      case DailyLossLimit => (16, 'd', 'l')
      case Manual => (6, 'm', 'u')
  {
  }

  // --- the active set as an ordered dictionary -------------------------------------------------

  /** At most one breaker per scope and reason. */
  ghost predicate OnePerKey(bs: seq<Breaker>) {
    forall i, j | 0 <= i < j < |bs| :: bs[i].Key() != bs[j].Key()
  }

  function Keys(bs: seq<Breaker>): (ks: seq<string>)
    ensures |ks| == |bs| && forall i | 0 <= i < |bs| :: ks[i] == bs[i].Key()
  {
    seq(|bs|, i requires 0 <= i < |bs| => bs[i].Key())
  }

  function IndexOf(ks: seq<string>, key: string): (i: nat)
    ensures i <= |ks|
    ensures i < |ks| ==> ks[i] == key
    ensures forall j | 0 <= j < i :: ks[j] != key
  {
    if ks == [] || ks[0] == key then 0 else
    var i := IndexOf(ks[1..], key);
    assert forall j | 1 <= j < |ks| :: ks[j] == ks[1..][j-1];
    i + 1
  }

  /** Position of a key, or the length when it is absent. */
  function Find(bs: seq<Breaker>, key: string): (i: nat)
    ensures i <= |bs|
    ensures i < |bs| ==> bs[i].Key() == key
    ensures forall j | 0 <= j < i :: bs[j].Key() != key
  {
    IndexOf(Keys(bs), key)
  }

  predicate Active(bs: seq<Breaker>, scope: string, reason: BreakerReason) { Find(bs, KeyOf(scope, reason)) < |bs| }

  /** Dictionary assignment: an existing key keeps its place, a new one goes last. */
  function Put(bs: seq<Breaker>, b: Breaker): seq<Breaker> {
    var i := Find(bs, b.Key());
    if i < |bs| then bs[i := b] else bs + [b]
  }

  /** A trip adds a breaker, or only refreshes the detail of the one already there. */
  function Tripped(bs: seq<Breaker>, b: Breaker): seq<Breaker> {
    var i := Find(bs, b.Key());
    if i < |bs| then bs[i := bs[i].(detail := b.detail)] else bs + [b]
  }

  predicate Matches(b: Breaker, reason: Option<BreakerReason>, scope: Option<string>) {
    (reason.None? || b.reason == reason.value) && (scope.None? || b.scope == scope.value)
  }

  /** The breakers a reset leaves, in order. */
  function Kept(bs: seq<Breaker>, reason: Option<BreakerReason>, scope: Option<string>): seq<Breaker> {
    if bs == [] then []
    else (if Matches(bs[0], reason, scope) then [] else [bs[0]]) + Kept(bs[1..], reason, scope)
  }

  function PutAll(bs: seq<Breaker>, more: seq<Breaker>): seq<Breaker>
    decreases |more|
  {
    if more == [] then bs else PutAll(Put(bs, more[0]), more[1..])
  }

  lemma {:induction false} KeptMembers(bs: seq<Breaker>, reason: Option<BreakerReason>, scope: Option<string>)
    ensures forall b :: b in Kept(bs, reason, scope) <==> b in bs && !Matches(b, reason, scope)
    ensures |Kept(bs, reason, scope)| <= |bs|
  {
    hide Matches;
    if bs != [] {
      KeptMembers(bs[1..], reason, scope);
      assert forall b :: b in bs <==> b == bs[0] || b in bs[1..];
    }
  }

  lemma TailDistinct(bs: seq<Breaker>)
    requires OnePerKey(bs) && bs != []
    ensures OnePerKey(bs[1..])
    ensures forall b | b in bs[1..] :: b.Key() != bs[0].Key()
  {
    hide Breaker.Key;
    assert forall i | 0 <= i < |bs[1..]| :: bs[1..][i] == bs[i+1];
  }

  lemma {:induction false} KeptDistinct(bs: seq<Breaker>, reason: Option<BreakerReason>, scope: Option<string>)
    requires OnePerKey(bs)
    ensures OnePerKey(Kept(bs, reason, scope))
  {
    hide Matches, Breaker.Key;
    if bs != [] {
      TailDistinct(bs);
      KeptDistinct(bs[1..], reason, scope);
      KeptMembers(bs[1..], reason, scope);
      var k := Kept(bs[1..], reason, scope);
      assert forall j | 0 <= j < |k| :: k[j] in k;
    }
  }

  lemma KeptSound(bs: seq<Breaker>, reason: Option<BreakerReason>, scope: Option<string>)
    ensures forall b :: b in Kept(bs, reason, scope) <==> b in bs && !Matches(b, reason, scope)
    ensures OnePerKey(bs) ==> OnePerKey(Kept(bs, reason, scope))
    ensures |Kept(bs, reason, scope)| <= |bs|
  {
    KeptMembers(bs, reason, scope);
    if OnePerKey(bs) { KeptDistinct(bs, reason, scope); }
  }

  lemma {:induction false} PutAllDistinct(bs: seq<Breaker>, more: seq<Breaker>)
    requires OnePerKey(bs + more)
    ensures PutAll(bs, more) == bs + more
    decreases |more|
  {
    hide Breaker.Key;
    if more == [] {
      assert bs + more == bs;
    } else {
      var i := Find(bs, more[0].Key());
      assert (bs + more)[|bs|] == more[0];
      assert forall j | 0 <= j < |bs| :: (bs + more)[j] == bs[j];
      assert i == |bs|;
      assert bs + [more[0]] + more[1..] == bs + more;
      PutAllDistinct(bs + [more[0]], more[1..]);
    }
  }

  // --- what a breaker stops -------------------------------------------------------------------

  /** Whether a breaker concerns an operation on these venues, chains, strategies and symbols. */
  predicate Concerns(b: Breaker, venue: Option<string>, chain: Option<string>, strategy: Option<string>, symbol: Option<string>) {
    || b.scope == "global"
    || (venue.Some? && b.scope == "venue:" + venue.value)
    || (chain.Some? && b.scope == "chain:" + chain.value)
    || (strategy.Some? && b.scope == "strategy:" + strategy.value)
    || (symbol.Some? && b.scope == "symbol:" + symbol.value)
  }

  /** The active breakers that block such an operation, in order. */
  function Blocks(bs: seq<Breaker>, venue: Option<string>, chain: Option<string>, strategy: Option<string>,
                  symbol: Option<string>): (out: seq<Breaker>)
    ensures out == [] <==> forall b | b in bs :: !Concerns(b, venue, chain, strategy, symbol)
  {
    if bs == [] then []
    else
      var rest := Blocks(bs[1..], venue, chain, strategy, symbol);
      assert forall b :: b in bs <==> b == bs[0] || b in bs[1..];
      (if Concerns(bs[0], venue, chain, strategy, symbol) then [bs[0]] else []) + rest
  }

  // --- the database table -------------------------------------------------------------------

  datatype Row = Row(breaker: Breaker, active: bool)

  function Deactivated(rows: seq<Row>): (d: seq<Row>)
    ensures |d| == |rows|
    ensures forall i | 0 <= i < |rows| :: d[i] == rows[i].(active := false)
  {
    seq(|rows|, i requires 0 <= i < |rows| => rows[i].(active := false))
  }

  function ActiveRows(rows: seq<Row>): seq<Breaker> {
    if rows == [] then []
    else (if rows[0].active then [rows[0].breaker] else []) + ActiveRows(rows[1..])
  }

  lemma {:induction false} ActiveRowsAppend(a: seq<Row>, b: seq<Row>)
    ensures ActiveRows(a + b) == ActiveRows(a) + ActiveRows(b)
  {
    if a == [] {
      assert a + b == b;
    } else {
      assert (a + b)[1..] == a[1..] + b && (a + b)[0] == a[0];
      ActiveRowsAppend(a[1..], b);
      var first := if a[0].active then [a[0].breaker] else [];
      assert first + (ActiveRows(a[1..]) + ActiveRows(b)) == first + ActiveRows(a[1..]) + ActiveRows(b);
    }
  }

  lemma {:induction false} NoActiveRows(rows: seq<Row>)
    requires forall i | 0 <= i < |rows| :: !rows[i].active
    ensures ActiveRows(rows) == []
  {
    if rows != [] { NoActiveRows(rows[1..]); }
  }

  /** The stored table and the stored emergency-stop document. */
  class Repo {
    var rows: seq<Row>
    var stopDoc: Option<bool>

    constructor ()
      ensures rows == [] && stopDoc == None
    {
      rows, stopDoc := [], None;
    }

    /** Deactivates every active row and inserts one active row per breaker; nothing is deleted. */
    method SaveBreakers(breakers: seq<Breaker>)
      modifies this`rows
      ensures ActiveRows(rows) == breakers
      ensures |rows| == |old(rows)| + |breakers| && rows[..|old(rows)|] == Deactivated(old(rows))
    {
      rows := Deactivated(rows);
      NoActiveRows(rows);
      var i := 0;
      while i < |breakers|
        invariant 0 <= i <= |breakers|
        invariant ActiveRows(rows) == breakers[..i]
        invariant |rows| == |old(rows)| + i && rows[..|old(rows)|] == Deactivated(old(rows))
      {
        var row := Row(breakers[i], true);
        ActiveRowsAppend(rows, [row]);
        assert [row][1..] == [];
        assert breakers[..i+1] == breakers[..i] + [breakers[i]];
        rows := rows + [row];
        i := i + 1;
      }
      assert breakers[..|breakers|] == breakers;
    }

    function LoadActiveBreakers(): seq<Breaker>
      reads this
    {
      ActiveRows(rows)
    }
  }

  // --- the manager ----------------------------------------------------------------------------

  class CircuitBreakerManager {
    const repo: Repo
    var active: seq<Breaker>

    /** Between operations the persisted active rows are exactly the breakers in memory, one per key. */
    ghost predicate Valid()
      reads this, repo
    {
      OnePerKey(active) && ActiveRows(repo.rows) == active
    }

    /** A process start: nothing in memory until `Restore`. */
    constructor (store: Repo)
      ensures repo == store && active == []
    {
      repo, active := store, [];
    }

    method Trip(reason: BreakerReason, detail: string, scope: string, auto: bool, nowMs: int) returns (b: Breaker)
      requires Valid()
      modifies this, repo`rows
      ensures Valid() && active == Tripped(old(active), Breaker(reason, detail, scope, auto, nowMs))
      ensures b in active && b.Key() == KeyOf(scope, reason) && b.detail == detail
      ensures Active(old(active), scope, reason) ==>
                var was := old(active)[Find(old(active), KeyOf(scope, reason))];
                b == was.(detail := detail)
    {
      b := Breaker(reason, detail, scope, auto, nowMs);
      var i := Find(active, KeyOf(scope, reason));
      if i < |active| {
        b := active[i].(detail := detail);
        active := active[i := b];
        assert active[i] == b;
      } else {
        active := active + [b];
        assert active[|active|-1] == b;
      }
      TrippedDistinct(old(active), Breaker(reason, detail, scope, auto, nowMs));
      repo.SaveBreakers(active);
    }

    method Reset(reason: Option<BreakerReason>, scope: Option<string>) returns (count: int)
      requires Valid()
      modifies this, repo`rows
      ensures Valid() && active == Kept(old(active), reason, scope)
      ensures count == |old(active)| - |active|
    {
      hide Breaker.Key;
      var before := |active|;
      KeptSound(active, reason, scope);
      DeleteMatching(reason, scope);
      repo.SaveBreakers(active);
      count := before - |active|;
    }

    method DeleteMatching(reason: Option<BreakerReason>, scope: Option<string>)
      modifies this
      ensures active == Kept(old(active), reason, scope)
    {
      var before := active;
      active := [];
      var i := 0;
      while i < |before|
        invariant 0 <= i <= |before|
        invariant active + Kept(before[i..], reason, scope) == Kept(before, reason, scope)
      {
        assert before[i..][1..] == before[i+1..];
        ghost var rest := Kept(before[i+1..], reason, scope);
        if Matches(before[i], reason, scope) {
          assert Kept(before[i..], reason, scope) == rest;
        } else {
          assert active + ([before[i]] + rest) == active + [before[i]] + rest;
          active := active + [before[i]];
        }
        i := i + 1;
      }
    }

    /** What a restart reads back; it does not write to the database. */
    method Restore(breakers: seq<Breaker>)
      modifies this
      ensures active == PutAll(old(active), breakers)
    {
      var i := 0;
      while i < |breakers|
        invariant 0 <= i <= |breakers|
        invariant PutAll(active, breakers[i..]) == PutAll(old(active), breakers)
      {
        assert breakers[i..][1..] == breakers[i+1..];
        active := Put(active, breakers[i]);
        i := i + 1;
      }
    }

    predicate IsTripped(scope: string)
      reads this
    {
      exists i | 0 <= i < |active| :: active[i].scope == "global" || active[i].scope == scope
    }

    /** Asking for a scope and asking what blocks a venue agree. */
    lemma TrippedIffBlocked(venue: string)
      ensures IsTripped("global") <==> Blocks(active, None, None, None, None) != []
      ensures IsTripped("venue:" + venue) <==> Blocks(active, Some(venue), None, None, None) != []
    {
      ScopeBlocksIff(None, "global");
      ScopeBlocksIff(Some(venue), "venue:" + venue);
    }

    lemma ScopeBlocksIff(venue: Option<string>, scope: string)
      requires if venue.Some? then scope == "venue:" + venue.value else scope == "global"
      ensures IsTripped(scope) <==> Blocks(active, venue, None, None, None) != []
    {
      forall i | 0 <= i < |active|
        ensures active[i].scope == "global" || active[i].scope == scope <==> Concerns(active[i], venue, None, None, None)
      {
      }
      if b :| b in active && Concerns(b, venue, None, None, None) {
        var i :| 0 <= i < |active| && active[i] == b;
        assert IsTripped(scope);
      } else if i :| 0 <= i < |active| && (active[i].scope == "global" || active[i].scope == scope) {
        assert active[i] in active && Concerns(active[i], venue, None, None, None);
      }
    }
  }

  /** A restart on the same database brings back exactly the breakers that were active. */
  method Restart(old_: CircuitBreakerManager) returns (m: CircuitBreakerManager)
    requires old_.Valid()
    ensures fresh(m) && m.repo == old_.repo && m.Valid() && m.active == old_.active
  {
    m := new CircuitBreakerManager(old_.repo);
    var rows := old_.repo.LoadActiveBreakers();
    assert [] + rows == rows;
    PutAllDistinct([], rows);
    m.Restore(rows);
  }

  // --- every run --------------------------------------------------------------------------------

  datatype Op =
    | OpTrip(breaker: Breaker)
    | OpReset(reason: Option<BreakerReason>, scope: Option<string>)
    | OpRestart

  function Next(bs: seq<Breaker>, op: Op): seq<Breaker> {
    match op
    case OpTrip(b) => Tripped(bs, b)
    case OpReset(reason, scope) => Kept(bs, reason, scope)
    case OpRestart => bs
  }

  function Run(ops: seq<Op>): seq<Breaker> {
    if ops == [] then [] else Next(Run(ops[..|ops|-1]), ops[|ops|-1])
  }

  /** Any interleaving of trips, resets and restarts on a real manager follows `Run`, and stays valid throughout. */
  method Execute(ops: seq<Op>) returns (m: CircuitBreakerManager)
    ensures m.Valid() && m.active == Run(ops)
  {
    hide Tripped, Kept, ReasonName;
    var repo := new Repo();
    m := new CircuitBreakerManager(repo);
    var i := 0;
    while i < |ops|
      invariant 0 <= i <= |ops|
      invariant m.repo == repo && fresh(m) && fresh(repo) && m.Valid() && m.active == Run(ops[..i])
    {
      assert ops[..i+1][..i] == ops[..i];
      match ops[i] {
        case OpTrip(b) => var _ := m.Trip(b.reason, b.detail, b.scope, b.auto, b.trippedAtMs);
        case OpReset(reason, scope) => var _ := m.Reset(reason, scope);
        case OpRestart => m := Restart(m);
      }
      i := i + 1;
    }
    assert ops[..|ops|] == ops;
  }

  predicate Trips(op: Op, scope: string, reason: BreakerReason) {
    op.OpTrip? && op.breaker.scope == scope && op.breaker.reason == reason
  }

  predicate Clears(op: Op, scope: string, reason: BreakerReason) {
    op.OpReset? && (op.reason.None? || op.reason.value == reason) && (op.scope.None? || op.scope.value == scope)
  }

  /** Some trip of this scope and reason was not followed by a reset that matches it. */
  ghost predicate Outstanding(ops: seq<Op>, scope: string, reason: BreakerReason) {
    exists k | 0 <= k < |ops| :: Trips(ops[k], scope, reason) && NotCleared(ops, k, scope, reason)
  }

  ghost predicate NotCleared(ops: seq<Op>, k: int, scope: string, reason: BreakerReason) {
    forall j | k < j < |ops| && 0 <= j :: !Clears(ops[j], scope, reason)
  }

  /** Nothing is lost and nothing revived: a breaker is active after a run iff a trip of it is outstanding. */
  lemma {:induction false} ActiveIffOutstanding(ops: seq<Op>, scope: string, reason: BreakerReason)
    ensures OnePerKey(Run(ops))
    ensures Active(Run(ops), scope, reason) <==> Outstanding(ops, scope, reason)
  {
    if ops != [] {
      var n := |ops| - 1;
      var before, op := ops[..n], ops[n];
      ActiveIffOutstanding(before, scope, reason);
      StepActive(Run(before), op, scope, reason);
      OutstandingStep(ops, scope, reason);
    }
  }

  lemma StepActive(bs: seq<Breaker>, op: Op, scope: string, reason: BreakerReason)
    requires OnePerKey(bs)
    ensures OnePerKey(Next(bs, op))
    ensures Active(Next(bs, op), scope, reason) <==>
            Trips(op, scope, reason) || (Active(bs, scope, reason) && !Clears(op, scope, reason))
  {
    hide ReasonName, Tripped, Kept, Active, Breaker.Key;
    match op {
      case OpTrip(b) => TripStep(bs, b, scope, reason);
      case OpReset(r, s) => ResetStep(bs, r, s, scope, reason);
      case OpRestart =>
    }
  }

  lemma ResetStep(bs: seq<Breaker>, r: Option<BreakerReason>, s: Option<string>, scope: string, reason: BreakerReason)
    requires OnePerKey(bs)
    ensures OnePerKey(Kept(bs, r, s))
    ensures Active(Kept(bs, r, s), scope, reason) <==>
            Active(bs, scope, reason) && !Clears(OpReset(r, s), scope, reason)
  {
    hide ReasonName, Kept, Active, Breaker.Key;
    KeptSound(bs, r, s);
    ActiveIsMember(bs, scope, reason);
    ActiveIsMember(Kept(bs, r, s), scope, reason);
  }

  lemma ActiveIsMember(bs: seq<Breaker>, scope: string, reason: BreakerReason)
    ensures Active(bs, scope, reason) <==> exists b | b in bs :: b.scope == scope && b.reason == reason
  {
    var i := Find(bs, KeyOf(scope, reason));
    if i < |bs| {
      KeyInjective(bs[i].scope, bs[i].reason, scope, reason);
      assert bs[i] in bs;
    }
    forall b | b in bs && b.scope == scope && b.reason == reason
      ensures i < |bs|
    {
      var k :| 0 <= k < |bs| && bs[k] == b;
      assert bs[k].Key() == KeyOf(scope, reason);
    }
  }

  lemma TrippedDistinct(bs: seq<Breaker>, b: Breaker)
    requires OnePerKey(bs)
    ensures OnePerKey(Tripped(bs, b))
    ensures |bs| <= |Tripped(bs, b)| && forall m | 0 <= m < |bs| :: Tripped(bs, b)[m].Key() == bs[m].Key()
  {
    hide ReasonName;
    var i := Find(bs, b.Key());
    if i < |bs| { assert bs[i].(detail := b.detail).Key() == bs[i].Key(); }
  }

  lemma TripStep(bs: seq<Breaker>, b: Breaker, scope: string, reason: BreakerReason)
    requires OnePerKey(bs)
    ensures OnePerKey(Tripped(bs, b))
    ensures Active(Tripped(bs, b), scope, reason) <==> (b.scope == scope && b.reason == reason) || Active(bs, scope, reason)
  {
    TrippedDistinct(bs, b);
    if b.Key() == KeyOf(scope, reason) { KeyInjective(b.scope, b.reason, scope, reason); }
    TripFinds(bs, b, KeyOf(scope, reason));
  }

  lemma TripFinds(bs: seq<Breaker>, b: Breaker, key: string)
    requires |bs| <= |Tripped(bs, b)| && forall m | 0 <= m < |bs| :: Tripped(bs, b)[m].Key() == bs[m].Key()
    ensures Find(Tripped(bs, b), key) < |Tripped(bs, b)| <==> b.Key() == key || Find(bs, key) < |bs|
  {
    hide Breaker.Key;
    var after := Tripped(bs, b);
    var i, j, k := Find(bs, b.Key()), Find(bs, key), Find(after, key);
    if j < |bs| { assert after[j].Key() == key; }
    if i < |bs| { assert after[i].Key() == b.Key(); } else { assert after[|bs|] == b; }
    if k < |after| && k < |bs| { assert bs[k].Key() == key; }
  }

  lemma OutstandingStep(ops: seq<Op>, scope: string, reason: BreakerReason)
    requires ops != []
    ensures var n := |ops| - 1;
            Outstanding(ops, scope, reason) <==>
            Trips(ops[n], scope, reason) || (Outstanding(ops[..n], scope, reason) && !Clears(ops[n], scope, reason))
  {
    hide Trips, Clears;
    var n := |ops| - 1;
    var before := ops[..n];
    forall k | 0 <= k <= n
      ensures NotCleared(ops, k, scope, reason) <==> NotCleared(before, k, scope, reason) && (k < n ==> !Clears(ops[n], scope, reason))
    {
      assert forall j | 0 <= j < n :: before[j] == ops[j];
    }
    if Trips(ops[n], scope, reason) { assert NotCleared(ops, n, scope, reason); }
    if Outstanding(before, scope, reason) && !Clears(ops[n], scope, reason) {
      var k :| 0 <= k < n && Trips(before[k], scope, reason) && NotCleared(before, k, scope, reason);
      assert Trips(ops[k], scope, reason) && NotCleared(ops, k, scope, reason);
    }
    if Outstanding(ops, scope, reason) && !Trips(ops[n], scope, reason) {
      var k :| 0 <= k < |ops| && Trips(ops[k], scope, reason) && NotCleared(ops, k, scope, reason);
      assert Trips(before[k], scope, reason) && NotCleared(before, k, scope, reason);
    }
  }

  /** A breaker carries the time of the trip that created it, later trips of the same key only change its detail. */
  lemma {:induction false} FirstTripTimeKept(ops: seq<Op>, b: Breaker) returns (k: nat)
    requires b in Run(ops)
    ensures k < |ops| && Trips(ops[k], b.scope, b.reason) && ops[k].breaker.trippedAtMs == b.trippedAtMs
    ensures !Active(Run(ops[..k]), b.scope, b.reason)
    ensures NotCleared(ops, k, b.scope, b.reason)
  {
    hide ReasonName, Tripped, Kept;
    var n := |ops| - 1;
    var before, op := ops[..n], ops[n];
    var bs := Run(before);
    ActiveIsMember(bs, b.scope, b.reason);
    if op.OpTrip? && op.breaker.Key() == b.Key() && !Active(bs, b.scope, b.reason) {
      KeyInjective(op.breaker.scope, op.breaker.reason, b.scope, b.reason);
      NewBreaker(bs, op.breaker, b);
      k := n;
    } else {
      var was := SameBefore(bs, op, b);
      k := FirstTripTimeKept(before, was);
      assert ops[..k] == before[..k];
      assert forall j | 0 <= j < n :: before[j] == ops[j];
    }
  }

  lemma NewBreaker(bs: seq<Breaker>, t: Breaker, b: Breaker)
    requires b in Tripped(bs, t) && b !in bs && Find(bs, t.Key()) == |bs|
    ensures b == t
  {
  }

  /** Where an active breaker was before a step that did not create it. */
  lemma SameBefore(bs: seq<Breaker>, op: Op, b: Breaker) returns (was: Breaker)
    requires b in Next(bs, op)
    requires !(op.OpTrip? && op.breaker.Key() == b.Key() && !Active(bs, b.scope, b.reason))
    ensures was in bs && was.scope == b.scope && was.reason == b.reason && was.trippedAtMs == b.trippedAtMs
    ensures !Clears(op, b.scope, b.reason)
  {
    match op {
      case OpTrip(t) =>
        var after := Tripped(bs, t);
        var i := Find(bs, t.Key());
        var k :| 0 <= k < |after| && after[k] == b;
        assert k < |bs|;
        was := bs[k];
      case OpReset(r, s) =>
        KeptSound(bs, r, s);
        was := b;
      case OpRestart =>
        was := b;
    }
  }
}
