/** LIVE GATING: how settings, activation and restarts decide whether real orders may be considered. */
module LiveGating {
  import opened Wrappers
  import opened Settings
  import Opportunities

  /** The stored settings document. */
  datatype Doc = NoDoc | Invalid | Saved(settings: AppSettings)

  /** A settings patch: the values it sets. A partial patch of another section is given by the section it results in. */
  datatype Patch = Patch(
    mode: Option<Mode>,
    shadowMode: Option<bool>,
    botEnabled: Option<bool>,
    trading: Option<TradingSettings>,
    risk: Option<RiskSettings>,
    gas: Option<GasSettings>,
    slippage: Option<SlippageSettings>,
    flashLoan: Option<FlashLoanSettings>,
    activated: Option<bool>,
    paperCompleted: Option<bool>,
    shadowReviewed: Option<bool>,
    stage: Option<Stage>,
    smallTestStrategy: Option<Strategy>,
    smallTestRoute: Option<Option<string>>)

  const NO_PATCH := Patch(None, None, None, None, None, None, None, None, None, None, None, None, None, None)

  function Set<T>(new_: Option<T>, old_: T): T { if new_.Some? then new_.value else old_ }

  function DeepMerge(s: AppSettings, p: Patch): AppSettings {
    AppSettings(
      GeneralSettings(Set(p.mode, s.general.mode), Set(p.shadowMode, s.general.shadowMode), Set(p.botEnabled, s.general.botEnabled)),
      Set(p.trading, s.trading), Set(p.risk, s.risk), Set(p.gas, s.gas), Set(p.slippage, s.slippage), Set(p.flashLoan, s.flashLoan),
      LiveState(Set(p.activated, s.live.activated), Set(p.paperCompleted, s.live.paperCompleted),
                Set(p.shadowReviewed, s.live.shadowReviewed), Set(p.stage, s.live.stage),
                Set(p.smallTestStrategy, s.live.smallTestStrategy), Set(p.smallTestRoute, s.live.smallTestRoute)))
  }

  /** What the settings route accepts: of the live section only the two review marks. */
  predicate ApiAllowed(p: Patch) {
    p.activated.None? && p.stage.None? && p.smallTestStrategy.None? && p.smallTestRoute.None?
  }

  datatype Error = RejectedByApi | InvalidSettings | LiveNeedsActivation | WrongPhrase | NotReady | LiveNotActive | NoSmallTestTrade

  const FRESH_LIVE := LiveState(false, false, false, SmallTest, CexCex, None)

  /** Default settings; live can never be a boot default. */
  function Defaults(template: AppSettings, mode: Mode): AppSettings {
    template.(general := template.general.(mode := if mode == Live then Paper else mode), live := FRESH_LIVE)
  }

  predicate MayTradeLive(s: AppSettings, envAllowed: bool) { s.live.activated && envAllowed }

  /** A live mode without a valid activation does not survive a start. */
  function Reverted(s: AppSettings, envAllowed: bool): AppSettings {
    if s.general.mode == Live && !MayTradeLive(s, envAllowed)
    then s.(general := s.general.(mode := Paper), live := s.live.(activated := false))
    else s
  }

  function Booted(doc: Doc, defaults: AppSettings, envAllowed: bool): AppSettings {
    Reverted(if doc.Saved? then doc.settings else defaults, envAllowed)
  }

  function Updated(s: AppSettings, p: Patch, envAllowed: bool): Result<AppSettings, Error> {
    var merged := DeepMerge(s, p);
    if merged.general.mode == Live && !MayTradeLive(s, envAllowed) then Err(LiveNeedsActivation)
    else if merged.general.mode != s.general.mode && s.general.mode == Live
    then Ok(merged.(live := merged.live.(activated := false)))
    else Ok(merged)
  }

  /** The live readiness checklist: the environment gate, both reviews, and everything else it lists. */
  predicate Ready(s: AppSettings, envAllowed: bool, otherChecks: bool) {
    envAllowed && s.live.paperCompleted && s.live.shadowReviewed && otherChecks
  }

  function Activated(s: AppSettings): AppSettings {
    s.(live := s.live.(activated := true, stage := SmallTest),
       general := s.general.(mode := Live, shadowMode := true),
       trading := s.trading.(autoExecute := false))
  }

  function FullyActivated(s: AppSettings, phraseOk: bool, filled: nat, acknowledged: bool): Result<AppSettings, Error> {
    if !phraseOk then Err(WrongPhrase)
    else if s.general.mode != Live || !s.live.activated then Err(LiveNotActive)
    else if s.live.stage == Full then Ok(s)
    else if filled == 0 && !acknowledged then Err(NoSmallTestTrade)
    else Ok(s.(live := s.live.(stage := Full)))
  }

  const LEAVE_LIVE := NO_PATCH.(mode := Some(Paper), activated := Some(false))

  // --- operations and runs -------------------------------------------------------------------

  datatype Op =
    | OpRestart(envAllowed: bool, defaults: AppSettings)
    | OpPutSettings(patch: Patch, valid: bool)
    | OpActivate(phraseOk: bool, otherChecks: bool)
    | OpActivateFull(phraseOk: bool, filled: nat, acknowledged: bool)
    | OpDeactivate

  /** The running application: its settings, what is stored, and the environment it was started in. */
  datatype World = World(settings: AppSettings, stored: Doc, envAllowed: bool)

  function Accepted(w: World, s: AppSettings): World { w.(settings := s, stored := Saved(s)) }

  function Started(doc: Doc, defaults: AppSettings, envAllowed: bool): World {
    World(Booted(doc, defaults, envAllowed), Saved(Booted(doc, defaults, envAllowed)), envAllowed)
  }

  function Step(w: World, op: Op): World {
    match op
    case OpRestart(env, defaults) => Started(w.stored, defaults, env)
    case OpPutSettings(p, valid) =>
      if !ApiAllowed(p) || !valid then w else
      var r := Updated(w.settings, p, w.envAllowed);
      if r.Ok? then Accepted(w, r.value) else w
    case OpActivate(phraseOk, otherChecks) =>
      if phraseOk && Ready(w.settings, w.envAllowed, otherChecks) then Accepted(w, Activated(w.settings)) else w
    case OpActivateFull(phraseOk, filled, ack) =>
      var r := FullyActivated(w.settings, phraseOk, filled, ack);
      if r.Ok? && r.value != w.settings then Accepted(w, r.value) else w
    case OpDeactivate =>
      var r := Updated(w.settings, LEAVE_LIVE, w.envAllowed);
      if r.Ok? then Accepted(w, r.value) else w
  }

  function Run(w: World, ops: seq<Op>): World {
    if ops == [] then w else Step(Run(w, ops[..|ops|-1]), ops[|ops|-1])
  }

  // --- the application ------------------------------------------------------------------------

  class App {
    var settings: AppSettings
    var stored: Doc
    var envAllowed: bool

    ghost function State(): World
      reads this
    {
      World(settings, stored, envAllowed)
    }

    /** A process start on a stored document. */
    constructor Start(doc: Doc, template: AppSettings, defaultMode: Mode, env: bool)
      ensures State() == Started(doc, Defaults(template, defaultMode), env)
    {
      settings := if doc.Saved? then doc.settings else Defaults(template, defaultMode);
      envAllowed := env;
      stored := doc;
      new;
      if settings.general.mode == Live && !(settings.live.activated && envAllowed) {
        settings := settings.(general := settings.general.(mode := Paper), live := settings.live.(activated := false));
      }
      stored := Saved(settings);
    }

    method UpdateSettings(patch: Patch, valid: bool) returns (r: Result<AppSettings, Error>)
      modifies this
      ensures envAllowed == old(envAllowed)
      ensures r == if valid then Updated(old(settings), patch, envAllowed) else Err(InvalidSettings)
      ensures r.Ok? ==> settings == r.value && stored == Saved(r.value)
      ensures r.Err? ==> State() == old(State())
    {
      if !valid { return Err(InvalidSettings); }
      var changed := DeepMerge(settings, patch);
      if changed.general.mode == Live && !(settings.live.activated && envAllowed) { return Err(LiveNeedsActivation); }
      var modeChanged := changed.general.mode != settings.general.mode;
      if modeChanged && settings.general.mode == Live {
        changed := changed.(live := changed.live.(activated := false));
      }
      settings := changed;
      stored := Saved(settings);
      return Ok(changed);
    }

    /** The settings route. */
    method ApiPutSettings(patch: Patch, valid: bool) returns (r: Result<AppSettings, Error>)
      modifies this
      ensures State() == Step(old(State()), OpPutSettings(patch, valid))
      ensures !ApiAllowed(patch) ==> r == Err(RejectedByApi)
    {
      if !ApiAllowed(patch) { return Err(RejectedByApi); }
      r := UpdateSettings(patch, valid);
    }

    method ActivateLive(phraseOk: bool, otherChecks: bool) returns (r: Result<AppSettings, Error>)
      modifies this
      ensures State() == Step(old(State()), OpActivate(phraseOk, otherChecks))
      ensures r.Ok? <==> phraseOk && otherChecks && old(envAllowed && settings.live.paperCompleted && settings.live.shadowReviewed)
      ensures r.Ok? ==> settings.general.mode == Live && settings.general.shadowMode && !settings.trading.autoExecute
      ensures r.Ok? ==> settings.live.activated && settings.live.stage == SmallTest && stored == Saved(settings)
    {
      if !phraseOk { return Err(WrongPhrase); }
      if !(envAllowed && settings.live.paperCompleted && settings.live.shadowReviewed && otherChecks) { return Err(NotReady); }
      settings := settings.(live := settings.live.(activated := true));
      settings := settings.(live := settings.live.(stage := SmallTest));
      settings := settings.(general := settings.general.(mode := Live));
      settings := settings.(general := settings.general.(shadowMode := true));
      settings := settings.(trading := settings.trading.(autoExecute := false));
      stored := Saved(settings);
      return Ok(settings);
    }

    method ActivateFullLive(phraseOk: bool, filled: nat, acknowledged: bool) returns (r: Result<AppSettings, Error>)
      modifies this
      ensures State() == Step(old(State()), OpActivateFull(phraseOk, filled, acknowledged))
      ensures r == FullyActivated(old(settings), phraseOk, filled, acknowledged)
      ensures r.Ok? <==> phraseOk && old(settings.general.mode == Live && settings.live.activated)
                         && (old(settings.live.stage == Full) || filled > 0 || acknowledged)
    {
      if !phraseOk { return Err(WrongPhrase); }
      if settings.general.mode != Live || !settings.live.activated { return Err(LiveNotActive); }
      if settings.live.stage == Full { return Ok(settings); }
      if filled == 0 && !acknowledged { return Err(NoSmallTestTrade); }
      settings := settings.(live := settings.live.(stage := Full));
      stored := Saved(settings);
      return Ok(settings);
    }

    method DeactivateLive()
      modifies this
      ensures State() == Step(old(State()), OpDeactivate)
      ensures settings.general.mode == Paper && !settings.live.activated
    {
      var _ := UpdateSettings(LEAVE_LIVE, true);
    }
  }

  // --- every run --------------------------------------------------------------------------------

  predicate IsLive(w: World) { w.settings.general.mode == Live }

  /** LIVE implies an activation and the environment gate; memory and store agree. */
  predicate Gated(w: World) {
    (IsLive(w) ==> MayTradeLive(w.settings, w.envAllowed)) && w.stored == Saved(w.settings)
  }

  lemma StartIsGated(doc: Doc, defaults: AppSettings, env: bool)
    requires doc.Saved? || defaults.general.mode != Live
    ensures Gated(Started(doc, defaults, env))
  {
  }

  lemma StepStaysGated(w: World, op: Op)
    requires Gated(w)
    ensures Gated(Step(w, op))
  {
  }

  /** Whatever document is found at start, LIVE implies activation and environment gate after every run. */
  lemma {:induction false} LiveIsAlwaysGated(doc: Doc, template: AppSettings, mode: Mode, env: bool, ops: seq<Op>)
    ensures Gated(Run(Started(doc, Defaults(template, mode), env), ops))
  {
    hide Step, Gated;
    StartIsGated(doc, Defaults(template, mode), env);
    if ops != [] {
      LiveIsAlwaysGated(doc, template, mode, env, ops[..|ops|-1]);
      StepStaysGated(Run(Started(doc, Defaults(template, mode), env), ops[..|ops|-1]), ops[|ops|-1]);
    }
  }

  predicate Activates(w: World, op: Op) {
    op.OpActivate? && op.phraseOk && Ready(w.settings, w.envAllowed, op.otherChecks)
  }

  /** The second activation: its own phrase, in LIVE, with a filled small-test trade or an explicit waiver. */
  predicate Promotes(w: World, op: Op) {
    && op.OpActivateFull? && op.phraseOk && (op.filled > 0 || op.acknowledged)
    && IsLive(w) && w.settings.live.activated && w.settings.live.stage != Full
  }

  function Before(w: World, ops: seq<Op>, i: nat): World
    requires i <= |ops|
  {
    Run(w, ops[..i])
  }

  /** No activation from position `from` on. */
  ghost predicate NoActivationFrom(w: World, ops: seq<Op>, from: nat) {
    forall j | from <= j < |ops| :: !Activates(Before(w, ops, j), ops[j])
  }

  /** A second activation that no first activation follows. */
  ghost predicate PromotedSince(w: World, ops: seq<Op>) {
    exists i: nat | i < |ops| :: Promotes(Before(w, ops, i), ops[i]) && NoActivationFrom(w, ops, i + 1)
  }

  lemma BeforeShorter(w: World, ops: seq<Op>, op: Op, j: nat)
    requires j <= |ops|
    ensures Before(w, ops + [op], j) == Before(w, ops, j)
  {
    assert (ops + [op])[..j] == ops[..j];
  }

  /** One more operation: promotion is by that operation, or an earlier one it does not undo. */
  lemma PromotedStep(w: World, ops: seq<Op>, op: Op)
    ensures PromotedSince(w, ops + [op]) <==>
            Promotes(Run(w, ops), op) || (PromotedSince(w, ops) && !Activates(Run(w, ops), op))
    ensures NoActivationFrom(w, ops + [op], 0) <==> NoActivationFrom(w, ops, 0) && !Activates(Run(w, ops), op)
  {
    hide Run, Activates, Promotes;
    var all, n := ops + [op], |ops|;
    forall j: nat | j <= n ensures Before(w, all, j) == Before(w, ops, j) { BeforeShorter(w, ops, op, j); }
    assert ops[..n] == ops;
    assert Before(w, all, n) == Run(w, ops);
    forall i: nat | i <= n
      ensures NoActivationFrom(w, all, i) <==> NoActivationFrom(w, ops, i) && !Activates(Run(w, ops), op)
    {
      assert forall j | 0 <= j < n :: all[j] == ops[j];
      assert all[n] == op;
    }
    if Promotes(Run(w, ops), op) {
      assert Promotes(Before(w, all, n), all[n]) && NoActivationFrom(w, all, n + 1);
    }
    if PromotedSince(w, ops) && !Activates(Run(w, ops), op) {
      var i: nat :| i < n && Promotes(Before(w, ops, i), ops[i]) && NoActivationFrom(w, ops, i + 1);
      assert Promotes(Before(w, all, i), all[i]) && NoActivationFrom(w, all, i + 1);
    }
    if PromotedSince(w, all) && !Promotes(Run(w, ops), op) {
      var i: nat :| i < n + 1 && Promotes(Before(w, all, i), all[i]) && NoActivationFrom(w, all, i + 1);
      assert i < n;
      assert Promotes(Before(w, ops, i), ops[i]) && NoActivationFrom(w, ops, i + 1);
    }
  }

  lemma StageStep(w: World, op: Op)
    requires Gated(w)
    ensures Step(w, op).settings.live.stage == Full <==>
            Promotes(w, op) || (w.settings.live.stage == Full && !Activates(w, op))
  {
  }

  /**
   * The stage is "full" exactly when a second activation happened that no activation followed, or it was full at the
   * start and nothing has been activated since.
   */
  lemma {:induction false} FullStageIff(w: World, ops: seq<Op>)
    requires Gated(w)
    ensures Gated(Run(w, ops))
    ensures Run(w, ops).settings.live.stage == Full <==>
            PromotedSince(w, ops) || (w.settings.live.stage == Full && NoActivationFrom(w, ops, 0))
  {
    hide Step, Gated, Activates, Promotes, PromotedSince, NoActivationFrom;
    if ops == [] {
      NothingPromotesNothing(w);
    } else {
      var n := |ops| - 1;
      var before, op := ops[..n], ops[n];
      assert before + [op] == ops;
      FullStageIff(w, before);
      PromotedStep(w, before, op);
      StageStep(Run(w, before), op);
      StepStaysGated(Run(w, before), op);
    }
  }

  lemma NothingPromotesNothing(w: World)
    ensures !PromotedSince(w, []) && NoActivationFrom(w, [], 0)
  {
  }

  /** LIVE is entered by activation only, and has been on ever since that activation. */
  lemma {:induction false} LiveSinceActivation(w: World, ops: seq<Op>)
    requires Gated(w) && !IsLive(w) && !w.settings.live.activated
    ensures IsLive(Run(w, ops)) <==> Run(w, ops).settings.live.activated
    ensures IsLive(Run(w, ops)) ==> LiveSince(w, ops)
  {
    hide Gated, LiveSince;
    if ops != [] {
      var n := |ops| - 1;
      var before, op := ops[..n], ops[n];
      LiveSinceActivation(w, before);
      FullStageIff(w, before);
      LiveStep(Run(w, before), op);
      if IsLive(Run(w, ops)) {
        assert before + [op] == ops;
        LiveSinceStep(w, before, op);
      }
    }
  }

  ghost predicate LiveSince(w: World, ops: seq<Op>) {
    exists i: nat | i < |ops| ::
      Activates(Before(w, ops, i), ops[i]) && forall j: nat | i < j <= |ops| :: IsLive(Before(w, ops, j))
  }

  lemma LiveStep(w: World, op: Op)
    requires Gated(w) && (IsLive(w) <==> w.settings.live.activated)
    ensures IsLive(Step(w, op)) <==> Step(w, op).settings.live.activated
    ensures IsLive(Step(w, op)) ==> IsLive(w) || Activates(w, op)
  {
  }

  lemma LiveSinceStep(w: World, ops: seq<Op>, op: Op)
    requires IsLive(Run(w, ops + [op]))
    requires LiveSince(w, ops) || Activates(Run(w, ops), op)
    ensures LiveSince(w, ops + [op])
  {
    hide Run, Activates, IsLive;
    var all, n := ops + [op], |ops|;
    forall j: nat | j <= n ensures Before(w, all, j) == Before(w, ops, j) { BeforeShorter(w, ops, op, j); }
    assert ops[..n] == ops && all[..n+1] == all;
    if Activates(Run(w, ops), op) {
      assert Activates(Before(w, all, n), all[n]);
    } else {
      var i: nat :| i < n && Activates(Before(w, ops, i), ops[i]) && forall j: nat | i < j <= n :: IsLive(Before(w, ops, j));
      assert Activates(Before(w, all, i), all[i]);
    }
  }

  /** An activation takes the phrase, the environment gate, both review marks and the rest of the checklist; else nothing changes. */
  lemma OnlyReadyActivates(w: World, op: Op)
    requires op.OpActivate?
    ensures Activates(w, op) <==>
              op.phraseOk && op.otherChecks && w.envAllowed && w.settings.live.paperCompleted && w.settings.live.shadowReviewed
    ensures !Activates(w, op) ==> Step(w, op) == w
  {
  }

  // --- what an operation changes -------------------------------------------------------------------

  /** An activation enters LIVE in the small test, in shadow mode, without auto-execution, and changes nothing else. */
  lemma ActivationChanges(w: World, op: Op)
    requires Activates(w, op)
    ensures var s, was := Step(w, op).settings, w.settings;
            && s.general.mode == Live && s.general.shadowMode && s.general.botEnabled == was.general.botEnabled
            && !s.trading.autoExecute && s.trading.(autoExecute := was.trading.autoExecute) == was.trading
            && s.live.activated && s.live.stage == SmallTest
            && s.live.paperCompleted == was.live.paperCompleted && s.live.shadowReviewed == was.live.shadowReviewed
            && s.live.smallTestStrategy == was.live.smallTestStrategy && s.live.smallTestRoute == was.live.smallTestRoute
            && s.risk == was.risk && s.gas == was.gas && s.slippage == was.slippage && s.flashLoan == was.flashLoan
            && Step(w, op).stored == Saved(s) && Step(w, op).envAllowed == w.envAllowed
  {
  }

  /** A patch of the settings route is taken unless it is refused, is invalid, or leads into LIVE without an activation. */
  predicate Applies(w: World, op: Op) {
    && op.OpPutSettings? && op.valid
    && op.patch.activated.None? && op.patch.stage.None? && op.patch.smallTestStrategy.None? && op.patch.smallTestRoute.None?
    && ((if op.patch.mode.Some? then op.patch.mode.value else w.settings.general.mode) == Live ==>
         w.settings.live.activated && w.envAllowed)
  }

  ghost predicate Takes<T(!new)>(patched: Option<T>, was: T, is_: T) {
    (patched.Some? ==> is_ == patched.value) && (patched.None? ==> is_ == was)
  }

  /** A patch that is taken sets what it names and nothing else; leaving LIVE also ends the activation. */
  lemma PatchSets(w: World, op: Op)
    requires op.OpPutSettings?
    ensures var s, was, p := Step(w, op).settings, w.settings, op.patch;
            if !Applies(w, op) then Step(w, op) == w
            else
              && Takes(p.mode, was.general.mode, s.general.mode) && Takes(p.shadowMode, was.general.shadowMode, s.general.shadowMode)
              && Takes(p.botEnabled, was.general.botEnabled, s.general.botEnabled)
              && Takes(p.trading, was.trading, s.trading) && Takes(p.risk, was.risk, s.risk) && Takes(p.gas, was.gas, s.gas)
              && Takes(p.slippage, was.slippage, s.slippage) && Takes(p.flashLoan, was.flashLoan, s.flashLoan)
              && Takes(p.paperCompleted, was.live.paperCompleted, s.live.paperCompleted)
              && Takes(p.shadowReviewed, was.live.shadowReviewed, s.live.shadowReviewed)
              && s.live.activated == (was.live.activated && !(was.general.mode == Live && s.general.mode != Live))
              && s.live.stage == was.live.stage && Step(w, op).stored == Saved(s) && Step(w, op).envAllowed == w.envAllowed
  {
  }

  /** The second activation changes the stage, leaving LIVE the mode and the activation; each nothing else. */
  lemma StageAndExitChange(w: World, op: Op)
    requires Gated(w)
    ensures Promotes(w, op) ==> Step(w, op).settings == w.settings.(live := w.settings.live.(stage := Full))
    ensures op.OpActivateFull? && !Promotes(w, op) ==> Step(w, op) == w
    ensures op.OpDeactivate? ==>
              Step(w, op).settings == w.settings.(general := w.settings.general.(mode := Paper), live := w.settings.live.(activated := false))
  {
  }

  /** A start finds its settings in the document, or the defaults in PAPER or simulation without one; only an unfounded LIVE is undone. */
  lemma StartFinds(doc: Doc, template: AppSettings, mode: Mode, env: bool)
    ensures var found := if doc.Saved? then doc.settings else template.(general := template.general.(mode := if mode == Live then Paper else mode),
                                                                       live := LiveState(false, false, false, SmallTest, CexCex, None));
            var s := Started(doc, Defaults(template, mode), env).settings;
            && (found.general.mode != Live || (found.live.activated && env) ==> s == found)
            && (found.general.mode == Live && !(found.live.activated && env) ==>
                 s.general.mode == Paper && !s.live.activated
                 && s.(general := s.general.(mode := Live), live := s.live.(activated := found.live.activated)) == found)
  {
  }

  /** The two switches between LIVE and real orders. */
  datatype Switch = ShadowOff | AutoOn

  predicate Armed(s: AppSettings, switch: Switch) {
    match switch case ShadowOff => !s.general.shadowMode case AutoOn => s.trading.autoExecute
  }

  /** A patch that is taken and sets the switch. */
  predicate Arms(w: World, op: Op, switch: Switch) {
    && Applies(w, op)
    && (match switch
        case ShadowOff => op.patch.shadowMode == Some(false)
        case AutoOn => op.patch.trading.Some? && op.patch.trading.value.autoExecute)
  }

  ghost predicate ArmedSince(w: World, ops: seq<Op>, switch: Switch) {
    exists i: nat | i < |ops| :: Arms(Before(w, ops, i), ops[i], switch) && NoActivationFrom(w, ops, i + 1)
  }

  lemma ArmedSinceStep(w: World, ops: seq<Op>, op: Op, switch: Switch)
    requires Arms(Run(w, ops), op, switch) || (ArmedSince(w, ops, switch) && !Activates(Run(w, ops), op))
    ensures ArmedSince(w, ops + [op], switch)
  {
    hide Run, Activates, Arms;
    var all, n := ops + [op], |ops|;
    forall j: nat | j <= n ensures Before(w, all, j) == Before(w, ops, j) { BeforeShorter(w, ops, op, j); }
    assert ops[..n] == ops;
    if Arms(Run(w, ops), op, switch) {
      assert Arms(Before(w, all, n), all[n], switch) && NoActivationFrom(w, all, n + 1);
    } else {
      var i: nat :| i < n && Arms(Before(w, ops, i), ops[i], switch) && NoActivationFrom(w, ops, i + 1);
      assert forall j | 0 <= j < n :: all[j] == ops[j];
      assert all[n] == op;
      assert Arms(Before(w, all, i), all[i], switch) && NoActivationFrom(w, all, i + 1);
    }
  }

  lemma ArmedStep(w: World, op: Op, switch: Switch)
    requires Gated(w) && (IsLive(w) <==> w.settings.live.activated)
    ensures IsLive(Step(w, op)) && Armed(Step(w, op).settings, switch) ==>
              Arms(w, op, switch) || (IsLive(w) && Armed(w.settings, switch) && !Activates(w, op))
  {
  }

  /**
   * From any start outside LIVE: whenever LIVE is on with shadow mode off, or with auto-execution on, a patch has set that
   * since the last activation. No activation submits real orders by itself.
   */
  lemma {:induction false} ArmedByPatch(w: World, ops: seq<Op>, switch: Switch)
    requires Gated(w) && !IsLive(w) && !w.settings.live.activated
    ensures IsLive(Run(w, ops)) && Armed(Run(w, ops).settings, switch) ==> ArmedSince(w, ops, switch)
  {
    hide Gated, Armed, Arms, ArmedSince, Activates, Step;
    if ops != [] {
      var n := |ops| - 1;
      var before, op := ops[..n], ops[n];
      assert before + [op] == ops;
      ArmedByPatch(w, before, switch);
      FullStageIff(w, before);
      LiveSinceActivation(w, before);
      ArmedStep(Run(w, before), op, switch);
      if IsLive(Run(w, ops)) && Armed(Run(w, ops).settings, switch) { ArmedSinceStep(w, before, op, switch); }
    }
  }

  // --- what can be approved -------------------------------------------------------------------

  /**
   * From any start outside full live: an evaluation that is clear in LIVE before the second activation is worth at
   * most $25, on the selected strategy and route, without a loan, under activation and environment gate.
   */
  lemma SafeBeforePromotionIsSmall(w: World, ops: seq<Op>, ctx: Opportunities.Context, cand: Opportunities.Candidate,
                                   m: Opportunities.Market, size: real)
    requires Gated(w) && w.settings.live.stage == SmallTest
    requires ctx.Priced() && ctx.settings == Run(w, ops).settings && IsLive(Run(w, ops)) && !PromotedSince(w, ops)
    ensures MayTradeLive(ctx.settings, Run(w, ops).envAllowed)
    ensures Opportunities.Clear(ctx, cand, m, size) ==>
              && Opportunities.Notional(ctx, size) <= 25.0
              && cand.strategy == ctx.settings.live.smallTestStrategy && !cand.flashLoan && cand.strategy != FlashLoan
              && ctx.settings.live.smallTestRoute == Some(m.buy.venue + "->" + m.sell.venue)
  {
    hide Opportunities.Clear, PromotedSince;
    FullStageIff(w, ops);
    Opportunities.SmallTestBounds(ctx, cand, m, size);
  }

  lemma {:induction false} RouteUnchanged(w: World, ops: seq<Op>)
    requires Gated(w)
    ensures Gated(Run(w, ops))
    ensures Run(w, ops).settings.live.smallTestRoute == w.settings.live.smallTestRoute
    ensures Run(w, ops).settings.live.smallTestStrategy == w.settings.live.smallTestStrategy
  {
    hide Gated;
    if ops != [] {
      RouteUnchanged(w, ops[..|ops|-1]);
      RouteStep(Run(w, ops[..|ops|-1]), ops[|ops|-1]);
      StepStaysGated(Run(w, ops[..|ops|-1]), ops[|ops|-1]);
    }
  }

  lemma RouteStep(w: World, op: Op)
    requires Gated(w)
    ensures Step(w, op).settings.live.smallTestRoute == w.settings.live.smallTestRoute
    ensures Step(w, op).settings.live.smallTestStrategy == w.settings.live.smallTestStrategy
  {
  }

  /**
   * No operation can select the small-test route. From any start in the small test whose settings name no route, a first
   * start without a document among them, LIVE therefore approves nothing at all before the second activation.
   */
  lemma SmallTestApprovesNothing(w: World, ops: seq<Op>, ctx: Opportunities.Context, cand: Opportunities.Candidate,
                                 m: Opportunities.Market, size: real)
    requires Gated(w) && w.settings.live.stage == SmallTest && w.settings.live.smallTestRoute.None?
    requires ctx.Priced() && ctx.settings == Run(w, ops).settings && IsLive(Run(w, ops)) && !PromotedSince(w, ops)
    ensures !Opportunities.Clear(ctx, cand, m, size)
  {
    hide Opportunities.Clear, PromotedSince;
    RouteUnchanged(w, ops);
    SafeBeforePromotionIsSmall(w, ops, ctx, cand, m, size);
  }

  /** A first start is such a start. */
  lemma FirstStartSelectsNoRoute(template: AppSettings, mode: Mode, env: bool)
    ensures var w := Started(NoDoc, Defaults(template, mode), env);
            Gated(w) && w.settings.live.stage == SmallTest && w.settings.live.smallTestRoute.None?
  {
    StartIsGated(NoDoc, Defaults(template, mode), env);
  }
}
