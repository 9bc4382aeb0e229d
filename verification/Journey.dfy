/**
 The founder journey of one project: its stage, status, cached progress, stage
 configurations, gates and event log, and the service calls that change them. A call either
 commits all its changes or, when it raises, none.
 */
module Journey {
  import opened Common
  import opened Progress
  import opened StageRules

  datatype Gate = Gate(stage: int, pending: bool, decision: Option<string>)

  datatype StageConfig = StageConfig(stage: int, milestones: seq<Milestone>)

  datatype StageEvent =
    | JourneyInitialized
    | GateCreated(gate: string, stage: int)
    | GateDecided(gate: string, decision: string, target: Option<int>, resetCount: nat)
    | Transition(from: Option<int>, to: int)
    | MilestoneReset(stage: int, keys: seq<string>)
    | MilestoneDone(stage: int, key: string, stageProgress: nat, globalProgress: nat)
    | ParkedAt(at: Option<int>)
    | UnparkedAt(at: Option<int>)
    | MvpBuilt(version: string)

  /** `stage` is None before the first transition. */
  datatype Project = Project(
    stage: Option<int>,
    status: ProjectStatus,
    progressPercent: nat,
    configs: seq<StageConfig>,
    gates: map<string, Gate>,
    events: seq<StageEvent>)

  datatype JourneyError = NoSuchGate | GateNotPending | NoSuchConfig | NoSuchMilestone | Rule(reason: RuleError)

  // ---------- Pieces ----------

  function Log(p: Project, e: StageEvent): Project {
    p.(events := p.events + [e])
  }

  function StageValue(stage: Option<int>): int {
    if stage.Some? then stage.value else 0
  }

  /** Index of the configuration of a stage. */
  function Find(configs: seq<StageConfig>, stage: int): (r: Option<nat>)
    ensures r.Some? ==> r.value < |configs| && configs[r.value].stage == stage
    ensures r.Some? ==> forall i :: 0 <= i < r.value ==> configs[i].stage != stage
    ensures r.None? ==> forall i :: 0 <= i < |configs| ==> configs[i].stage != stage
  {
    if configs == [] then None
    else if configs[0].stage == stage then Some(0)
    else match Find(configs[1..], stage)
         case None => None
         case Some(i) => Some(i + 1)
  }

  function Keys(ms: seq<Milestone>): seq<string> {
    seq(|ms|, i requires 0 <= i < |ms| => ms[i].key)
  }

  function Marked(ms: seq<Milestone>, keys: seq<string>, done: bool): seq<Milestone> {
    seq(|ms|, i requires 0 <= i < |ms| => if ms[i].key in keys then ms[i].(completed := done) else ms[i])
  }

  function MilestonesOf(configs: seq<StageConfig>): seq<seq<Milestone>> {
    seq(|configs|, i requires 0 <= i < |configs| => configs[i].milestones)
  }

  /** The percentage computed from the milestones now, as opposed to the cached one. */
  function Computed(p: Project): nat {
    Overall(MilestonesOf(p.configs))
  }

  function ResetStage(p: Project, stage: int, keys: seq<string>): Project {
    if keys == [] then p
    else match Find(p.configs, stage)
         case None => p
         case Some(i) =>
           var ms := Marked(p.configs[i].milestones, keys, false);
           Log(p.(configs := p.configs[i := p.configs[i].(milestones := ms)]), MilestoneReset(stage, keys))
  }

  function KeysOfStage(p: Project, stage: int): seq<string> {
    match Find(p.configs, stage)
    case None => []
    case Some(i) => Keys(p.configs[i].milestones)
  }

  /** Pivot's loop: every stage from `stage` to 5 is reset, and its keys are added to `done`. */
  function ResetFrom(p: Project, stage: nat, done: seq<string>): (Project, seq<string>)
    decreases 6 - stage, p
  {
    if stage > 5 then (p, done)
    else
      var keys := KeysOfStage(p, stage);
      ResetFrom(ResetStage(p, stage, keys), stage + 1, done + keys)
  }

  function TransitionStage(p: Project, target: int): Result<Project, JourneyError> {
    var current := StageValue(p.stage);
    if !IsStage(current) then Err(Rule(NotAStage))
    else if p.status == Deleted then Err(Rule(NotAStatus))
    else
      match ValidateTransition(current, target, p.status, ["proceed"])
      case Err(e) => Err(Rule(e))
      case Ok(to) => Ok(Log(p.(stage := Some(to)), Transition(if current == 0 then None else p.stage, to)))
  }

  // ---------- Calls ----------

  function Templates(n: nat): seq<StageConfig>
    requires n <= 5
  {
    seq(n, i requires 0 <= i < n => StageConfig(i + 1, Template(i + 1)))
  }

  function Initialized(p: Project): Project {
    if p.configs != [] then p else Log(p.(configs := Templates(5)), JourneyInitialized)
  }

  function WithGate(p: Project, gate: string, stage: int): Project {
    Log(p.(gates := p.gates[gate := Gate(stage, true, None)]), GateCreated(gate, stage))
  }

  /** The effect of a resolved decision on the project, and the milestones it reset. */
  function Applied(p: Project, decision: GateDecision, gateStage: int, target: Option<int>)
    : Result<(Project, seq<string>), JourneyError>
  {
    match decision
    case Proceed =>
      if target == None || target == Some(0) then Ok((p, []))
      else (match TransitionStage(p, target.value)
            case Err(e) => Err(e)
            case Ok(q) => Ok((q, [])))
    case Narrow =>
      var keys := KeysOfStage(p, gateStage);
      Ok((ResetStage(p, gateStage, keys), keys))
    case Pivot =>
      if THESIS_DEFINED < StageValue(p.stage) then
        match TransitionStage(p, THESIS_DEFINED)
        case Err(e) => Err(e)
        case Ok(q) => Ok(ResetFrom(q, 2, []))
      else Ok(ResetFrom(p, 2, []))
    case Park => Ok((Log(p.(status := Parked), ParkedAt(p.stage)), []))
  }

  /** A target of 0, the pre-stage, is falsy and reported as none. */
  function Shown(target: Option<int>): Option<int> {
    if target == Some(0) then None else target
  }

  /** What the caller of decide_gate is told. */
  datatype Report = Report(target: Option<int>, milestonesReset: seq<string>)

  function Closed(p: Project, gate: string, decision: string): Project
    requires gate in p.gates
  {
    p.(gates := p.gates[gate := p.gates[gate].(pending := false, decision := Some(decision))])
  }

  function Decided(p: Project, gate: string, decision: string): Result<(Project, Report), JourneyError> {
    if gate !in p.gates then Err(NoSuchGate)
    else if !p.gates[gate].pending then Err(GateNotPending)
    else
      var g := p.gates[gate];
      var q := Closed(p, gate, decision);
      match ParseDecision(decision)
      case Err(e) => Err(Rule(e))
      case Ok(d) =>
        if !IsStage(StageValue(p.stage)) then Err(Rule(NotAStage))
        else match ResolveTarget(d, StageValue(p.stage), g.stage)
             case Err(e) => Err(Rule(e))
             case Ok(target) =>
               match Applied(q, d, g.stage, target)
               case Err(e) => Err(e)
               case Ok((r, keys)) =>
                 Ok((Log(r, GateDecided(gate, decision, Shown(target), |keys|)), Report(Shown(target), keys)))
  }

  function Unparked(p: Project): Project {
    Log(p.(status := Active), UnparkedAt(p.stage))
  }

  function Completed(p: Project, stage: int, key: string): Result<Project, JourneyError> {
    match Find(p.configs, stage)
    case None => Err(NoSuchConfig)
    case Some(i) =>
      if key !in Keys(p.configs[i].milestones) then Err(NoSuchMilestone)
      else
        var ms := Marked(p.configs[i].milestones, [key], true);
        var q := p.(configs := p.configs[i := p.configs[i].(milestones := ms)]);
        Ok(Log(q.(progressPercent := Computed(q)), MilestoneDone(stage, key, StageProgress(ms), Computed(q))))
  }

  /** The hook a first successful build runs; it looks at the stage only, not at the status. */
  function MvpBuiltHook(p: Project, version: string): Project {
    if version != "build_v0_1" || StageValue(p.stage) >= 3 then p
    else Log(Log(p.(stage := Some(3)), Transition(p.stage, 3)), MvpBuilt(version))
  }

  datatype Call =
    | Initialize
    | CreateGate(gate: string, stage: int)
    | Decide(gate: string, decision: string)
    | Unpark
    | Complete(stage: int, key: string)
    | BuildHook(version: string)
    | Delete

  /** A call that raises leaves the project as it was. */
  function Exec(p: Project, c: Call): Project {
    match c
    case Initialize => Initialized(p)
    case CreateGate(gate, stage) => WithGate(p, gate, stage)
    case Decide(gate, decision) => (match Decided(p, gate, decision) case Ok((q, _)) => q case Err(_) => p)
    case Unpark => Unparked(p)
    case Complete(stage, key) => (match Completed(p, stage, key) case Ok(q) => q case Err(_) => p)
    case BuildHook(version) => MvpBuiltHook(p, version)
    case Delete => p.(status := Deleted)
  }

  function RunOf(p: Project, calls: seq<Call>): Project
    decreases |calls|
  {
    if calls == [] then p else RunOf(Exec(p, calls[0]), calls[1..])
  }

  // ---------- The event log determines the stage ----------

  function Replay(start: Option<int>, events: seq<StageEvent>): Option<int> {
    if events == [] then start
    else
      var last := events[|events| - 1];
      if last.Transition? then Some(last.to) else Replay(start, events[..|events| - 1])
  }

  /** Each transition event starts from the stage the events before it lead to. */
  ghost predicate Chained(start: Option<int>, events: seq<StageEvent>) {
    forall i :: 0 <= i < |events| && events[i].Transition? ==> events[i].from == Replay(start, events[..i])
  }

  ghost predicate Logged(start: Option<int>, p: Project) {
    Replay(start, p.events) == p.stage && Chained(start, p.events)
  }

  lemma ChainedAppend(start: Option<int>, events: seq<StageEvent>, e: StageEvent)
    requires Chained(start, events) && (e.Transition? ==> e.from == Replay(start, events))
    ensures Chained(start, events + [e])
    ensures Replay(start, events + [e]) == if e.Transition? then Some(e.to) else Replay(start, events)
  {
    var all := events + [e];
    assert all[..|events|] == events;
    forall i | 0 <= i < |all| && all[i].Transition? ensures all[i].from == Replay(start, all[..i]) {
      if i < |events| { assert all[i] == events[i] && all[..i] == events[..i]; }
    }
  }

  // ---------- Invariants ----------

  ghost predicate StageInRange(stage: Option<int>) {
    stage.Some? ==> 1 <= stage.value <= 4
  }

  /** No configurations yet, or one for each stage in order, with the template's keys and weights. */
  ghost predicate ConfigsShaped(configs: seq<StageConfig>) {
    && (configs == [] || |configs| == 5)
    && (forall i :: 0 <= i < |configs| ==>
          configs[i].stage == i + 1 && SameMilestones(configs[i].milestones, Template(i + 1)))
  }

  ghost predicate SameMilestones(a: seq<Milestone>, b: seq<Milestone>) {
    |a| == |b| && forall i :: 0 <= i < |a| ==> a[i].key == b[i].key && a[i].weight == b[i].weight
  }

  ghost predicate Inv(start: Option<int>, p: Project) {
    && Logged(start, p)
    && StageInRange(p.stage)
    && ConfigsShaped(p.configs)
    && Computed(p) <= p.progressPercent <= 100
  }

  /** Same configurations with at most fewer milestones completed. */
  ghost predicate OnlyReset(a: seq<StageConfig>, b: seq<StageConfig>) {
    && |a| == |b|
    && forall i :: 0 <= i < |a| ==>
         && a[i].stage == b[i].stage
         && SameMilestones(a[i].milestones, b[i].milestones)
         && Under(a[i].milestones, b[i].milestones)
  }

  /** What one step inside a call may do when it is not a transition: log, and reset. */
  ghost predicate Quiet(start: Option<int>, p: Project, q: Project) {
    && q.stage == p.stage && q.progressPercent == p.progressPercent
    && OnlyReset(q.configs, p.configs)
    && (Logged(start, p) ==> Logged(start, q))
  }

  lemma QuietTransitive(start: Option<int>, p: Project, q: Project, r: Project)
    requires Quiet(start, p, q) && Quiet(start, q, r)
    ensures Quiet(start, p, r)
  {
  }

  lemma QuietLog(start: Option<int>, p: Project, q: Project, e: StageEvent)
    requires q.events == p.events + [e] && !e.Transition?
    requires q.stage == p.stage && q.progressPercent == p.progressPercent && OnlyReset(q.configs, p.configs)
    ensures Quiet(start, p, q)
  {
    if Logged(start, p) { ChainedAppend(start, p.events, e); }
  }

  lemma QuietKeepsInv(start: Option<int>, p: Project, q: Project)
    requires Inv(start, p) && Quiet(start, p, q)
    ensures Inv(start, q)
  {
    forall i | 0 <= i < |q.configs| ensures SameMilestones(q.configs[i].milestones, Template(i + 1)) {
      assert SameMilestones(p.configs[i].milestones, Template(i + 1));
    }
    OverallMonotone(MilestonesOf(q.configs), MilestonesOf(p.configs));
  }

  lemma ResetIsQuiet(start: Option<int>, p: Project, stage: int, keys: seq<string>)
    ensures Quiet(start, p, ResetStage(p, stage, keys))
  {
    var q := ResetStage(p, stage, keys);
    if keys != [] && Find(p.configs, stage).Some? {
      QuietLog(start, p, q, MilestoneReset(stage, keys));
    }
  }

  lemma ResetFromIsQuiet(start: Option<int>, p: Project, stage: nat, done: seq<string>)
    ensures Quiet(start, p, ResetFrom(p, stage, done).0)
    decreases 6 - stage
  {
    if stage <= 5 {
      var keys := KeysOfStage(p, stage);
      var q := ResetStage(p, stage, keys);
      ResetIsQuiet(start, p, stage, keys);
      ResetFromIsQuiet(start, q, stage + 1, done + keys);
      QuietTransitive(start, p, q, ResetFrom(q, stage + 1, done + keys).0);
    }
  }

  /** The milestones and the cached percentage are untouched. */
  lemma StageChangeKeepsInv(start: Option<int>, p: Project, q: Project)
    requires Inv(start, p) && Logged(start, q) && StageInRange(q.stage)
    requires q.configs == p.configs && q.progressPercent == p.progressPercent
    ensures Inv(start, q)
  {
  }

  lemma TransitionShape(p: Project, target: int)
    requires StageInRange(p.stage) && 1 <= target <= 4
    ensures var r := TransitionStage(p, target);
            && (r.Ok? <==> p.status == Active && target != StageValue(p.stage))
            && (r.Ok? ==> r.value == p.(stage := Some(target), events := p.events + [Transition(p.stage, target)]))
  {
  }

  lemma TransitionKeepsInv(start: Option<int>, p: Project, target: int)
    requires Inv(start, p) && 1 <= target <= 4
    ensures var r := TransitionStage(p, target);
            && (r.Ok? <==> p.status == Active && target != StageValue(p.stage))
            && (r.Ok? ==> Inv(start, r.value) && r.value.stage == Some(target))
  {
    TransitionShape(p, target);
    ChainedAppend(start, p.events, Transition(p.stage, target));
    var q := p.(stage := Some(target), events := p.events + [Transition(p.stage, target)]);
    StageChangeKeepsInv(start, p, q);
  }

  lemma AppliedKeepsInv(start: Option<int>, p: Project, d: GateDecision, gateStage: int, target: Option<int>)
    requires Inv(start, p) && ResolveTarget(d, StageValue(p.stage), gateStage) == Ok(target)
    ensures var r := Applied(p, d, gateStage, target); r.Ok? ==> Inv(start, r.value.0)
  {
    match d
    case Proceed =>
      if target.Some? && target.value != 0 { TransitionKeepsInv(start, p, target.value); }
    case Narrow =>
      ResetIsQuiet(start, p, gateStage, KeysOfStage(p, gateStage));
      QuietKeepsInv(start, p, ResetStage(p, gateStage, KeysOfStage(p, gateStage)));
    case Pivot =>
      TransitionKeepsInv(start, p, 1);
      var q := if 1 < StageValue(p.stage) && TransitionStage(p, 1).Ok? then TransitionStage(p, 1).value else p;
      ResetFromIsQuiet(start, q, 2, []);
      QuietKeepsInv(start, q, ResetFrom(q, 2, []).0);
    case Park =>
      var q := Log(p.(status := Parked), ParkedAt(p.stage));
      QuietLog(start, p, q, ParkedAt(p.stage));
      QuietKeepsInv(start, p, q);
  }

  lemma DecideKeepsInv(start: Option<int>, p: Project, gate: string, decision: string)
    requires Inv(start, p) && Decided(p, gate, decision).Ok?
    ensures Inv(start, Decided(p, gate, decision).value.0)
  {
    DecidedIsApplied(p, gate, decision);
    var d, g, q := ParseDecision(decision).value, p.gates[gate], Closed(p, gate, decision);
    var target := ResolveTarget(d, StageValue(p.stage), g.stage).value;
    StageChangeKeepsInv(start, p, q);
    AppliedKeepsInv(start, q, d, g.stage, target);
    var (r, keys) := Applied(q, d, g.stage, target).value;
    var e := GateDecided(gate, decision, Shown(target), |keys|);
    QuietLog(start, r, Log(r, e), e);
    QuietKeepsInv(start, r, Log(r, e));
  }

  lemma MarkedKeepsShape(configs: seq<StageConfig>, i: nat, keys: seq<string>)
    requires ConfigsShaped(configs) && i < |configs|
    ensures ConfigsShaped(configs[i := configs[i].(milestones := Marked(configs[i].milestones, keys, true))])
  {
    forall k | 0 <= k < |configs| ensures SameMilestones(configs[k].milestones, Template(k + 1)) {
    }
  }

  lemma CompleteKeepsInv(start: Option<int>, p: Project, stage: int, key: string)
    requires Inv(start, p) && Completed(p, stage, key).Ok?
    ensures var q := Completed(p, stage, key).value; Inv(start, q) && q.progressPercent == Computed(q)
  {
    var i := Find(p.configs, stage).value;
    var q := Completed(p, stage, key).value;
    MarkedKeepsShape(p.configs, i, [key]);
    var e := MilestoneDone(stage, key, StageProgress(q.configs[i].milestones), q.progressPercent);
    assert q.events == p.events + [e];
    ChainedAppend(start, p.events, e);
    PercentAtMost100(MilestonesOf(q.configs));
  }

  lemma PercentAtMost100(stages: seq<seq<Milestone>>)
    ensures Overall(stages) <= 100
  {
    SumTruncation(stages);
    if AllWeight(stages) > 0 { TruncationIsUnderTwoPoints(stages); }
  }

  lemma {:induction false} NothingCompleted(ms: seq<Milestone>)
    requires forall i :: 0 <= i < |ms| ==> !ms[i].completed
    ensures CompletedWeight(ms) == 0
  {
    if ms != [] { NothingCompleted(ms[1..]); }
  }

  lemma {:induction false} NothingCompletedAnywhere(stages: seq<seq<Milestone>>)
    requires forall i :: 0 <= i < |stages| ==> CompletedWeight(stages[i]) == 0
    ensures CompletedOf(stages) == 0
  {
    if stages != [] { NothingCompletedAnywhere(stages[1..]); }
  }

  lemma {:induction false} OpenMeansZero(stages: seq<seq<Milestone>>)
    requires CompletedOf(stages) == 0
    ensures Overall(stages) == 0
  {
    SumTruncation(stages);
    if AllWeight(stages) > 0 { Quotient(WeightedOf(Filled(stages)), AllWeight(stages)); }
  }

  lemma TemplatesShaped()
    ensures ConfigsShaped(Templates(5))
  {
    var configs := Templates(5);
    forall i | 0 <= i < |configs|
      ensures configs[i].stage == i + 1 && SameMilestones(configs[i].milestones, Template(i + 1))
    {
    }
  }

  lemma TemplatesAreOpen()
    ensures Overall(MilestonesOf(Templates(5))) == 0
  {
    var all := MilestonesOf(Templates(5));
    forall i | 0 <= i < |all| ensures CompletedWeight(all[i]) == 0 {
      NothingCompleted(all[i]);
    }
    NothingCompletedAnywhere(all);
    OpenMeansZero(all);
  }

  /** Configurations with nothing completed may replace none at all. */
  lemma FreshConfigsKeepInv(start: Option<int>, p: Project, q: Project)
    requires Inv(start, p) && Logged(start, q) && q.stage == p.stage && q.progressPercent == p.progressPercent
    requires ConfigsShaped(q.configs) && Overall(MilestonesOf(q.configs)) == 0
    ensures Inv(start, q)
  {
  }

  lemma InitializeKeepsInv(start: Option<int>, p: Project)
    requires Inv(start, p)
    ensures Inv(start, Initialized(p))
    ensures p.configs != [] ==> Initialized(p) == p
    ensures p.configs == [] ==> Initialized(p).configs == Templates(5)
  {
    if p.configs == [] {
      ChainedAppend(start, p.events, JourneyInitialized);
      TemplatesShaped();
      TemplatesAreOpen();
      FreshConfigsKeepInv(start, p, Initialized(p));
    }
  }

  lemma HookKeepsInv(start: Option<int>, p: Project, version: string)
    requires Inv(start, p)
    ensures Inv(start, MvpBuiltHook(p, version))
  {
    if version == "build_v0_1" && StageValue(p.stage) < 3 {
      ChainedAppend(start, p.events, Transition(p.stage, 3));
      ChainedAppend(start, p.events + [Transition(p.stage, 3)], MvpBuilt(version));
      StageChangeKeepsInv(start, p, MvpBuiltHook(p, version));
    }
  }

  lemma QuietCallsKeepInv(start: Option<int>, p: Project, c: Call)
    requires Inv(start, p) && (c.Unpark? || c.CreateGate?)
    ensures Inv(start, Exec(p, c))
  {
    var q := Exec(p, c);
    QuietLog(start, p, q, if c.Unpark? then UnparkedAt(p.stage) else GateCreated(c.gate, c.stage));
    StageChangeKeepsInv(start, p, q);
  }

  lemma ExecKeepsInv(start: Option<int>, p: Project, c: Call)
    requires Inv(start, p)
    ensures Inv(start, Exec(p, c))
    ensures p.stage.Some? ==> Exec(p, c).stage.Some?
  {
    match c
    case Initialize => InitializeKeepsInv(start, p);
    case CreateGate(_, _) => QuietCallsKeepInv(start, p, c);
    case Unpark => QuietCallsKeepInv(start, p, c);
    case Decide(gate, decision) =>
      if Decided(p, gate, decision).Ok? {
        DecideKeepsInv(start, p, gate, decision);
        StageAfterDecide(start, p, gate, decision);
      }
    case Complete(stage, key) =>
      if Completed(p, stage, key).Ok? { CompleteKeepsInv(start, p, stage, key); }
    case BuildHook(version) => HookKeepsInv(start, p, version);
    case Delete => StageChangeKeepsInv(start, p, p.(status := Deleted));
  }

  /**
   Over any mix of gate decisions, resets, parks and build hooks: replaying the transition
   events gives the stage, each starts where the one before ended, the stage stays between 1
   and 4 once set, and the cached percentage never falls below the computed one.
   */
  lemma {:induction false} JourneySafety(start: Option<int>, p: Project, calls: seq<Call>)
    requires Inv(start, p)
    ensures Inv(start, RunOf(p, calls))
    ensures p.stage.Some? ==> RunOf(p, calls).stage.Some?
    decreases |calls|
  {
    if calls != [] {
      ExecKeepsInv(start, p, calls[0]);
      JourneySafety(start, Exec(p, calls[0]), calls[1..]);
    }
  }

  /** A new project satisfies the invariant. */
  lemma NewProjectIsSafe(stage: Option<int>)
    requires stage.None? || stage == Some(1)
    ensures Inv(stage, Project(stage, Active, 0, [], map[], []))
  {
  }

  // ---------- What each decision does ----------

  /** When a parsed decision goes through, for a project in the given stage and status. */
  predicate Allowed(d: GateDecision, status: ProjectStatus, current: int, gateStage: int) {
    match d
    case Proceed => gateStage == -1 || gateStage == 4
                    || (0 <= gateStage <= 3 && status == Active && gateStage + 1 != current)
    case Pivot => status == Active || current <= 1
    case Narrow => true
    case Park => true
  }

  lemma AppliedSucceedsIff(p: Project, d: GateDecision, gateStage: int)
    requires StageInRange(p.stage)
    ensures var target := ResolveTarget(d, StageValue(p.stage), gateStage);
            target.Ok? && Applied(p, d, gateStage, target.value).Ok?
            <==> Allowed(d, p.status, StageValue(p.stage), gateStage)
  {
    if d == Proceed && 0 <= gateStage <= 3 { TransitionShape(p, gateStage + 1); }
    if d == Pivot { TransitionShape(p, 1); }
  }

  /** Exactly when a decision goes through. */
  lemma DecideSucceedsIff(start: Option<int>, p: Project, gate: string, decision: string)
    requires Inv(start, p)
    ensures Decided(p, gate, decision).Ok? <==>
            && gate in p.gates && p.gates[gate].pending && ParseDecision(decision).Ok?
            && Allowed(ParseDecision(decision).value, p.status, StageValue(p.stage), p.gates[gate].stage)
  {
    if gate in p.gates && p.gates[gate].pending && ParseDecision(decision).Ok? {
      var g := p.gates[gate];
      var q := Closed(p, gate, decision);
      AppliedSucceedsIff(q, ParseDecision(decision).value, g.stage);
    }
  }

  /** A decision that goes through is the effect of its parsed form, plus an entry in the log. */
  lemma DecidedIsApplied(p: Project, gate: string, decision: string)
    requires Decided(p, gate, decision).Ok?
    ensures gate in p.gates && ParseDecision(decision).Ok?
    ensures var (d, g) := (ParseDecision(decision).value, p.gates[gate]);
            var target := ResolveTarget(d, StageValue(p.stage), g.stage);
            && target.Ok? && Applied(Closed(p, gate, decision), d, g.stage, target.value).Ok?
            && var (q, keys) := Applied(Closed(p, gate, decision), d, g.stage, target.value).value;
               Decided(p, gate, decision).value ==
               (Log(q, GateDecided(gate, decision, Shown(target.value), |keys|)), Report(Shown(target.value), keys))
  {
  }

  function StageAfter(d: GateDecision, stage: Option<int>, gateStage: int): Option<int> {
    match d
    case Proceed => if 0 <= gateStage <= 3 then Some(gateStage + 1) else stage
    case Pivot => if StageValue(stage) > 1 then Some(1) else stage
    case Narrow => stage
    case Park => stage
  }

  lemma StageAfterApplied(p: Project, d: GateDecision, gateStage: int, target: Option<int>)
    requires StageInRange(p.stage) && ResolveTarget(d, StageValue(p.stage), gateStage) == Ok(target)
    requires Applied(p, d, gateStage, target).Ok?
    ensures Applied(p, d, gateStage, target).value.0.stage == StageAfter(d, p.stage, gateStage)
  {
    match d
    case Proceed => if 0 <= gateStage <= 3 { TransitionShape(p, gateStage + 1); }
    case Narrow => ResetIsQuiet(None, p, gateStage, KeysOfStage(p, gateStage));
    case Pivot =>
      TransitionShape(p, 1);
      ResetFromIsQuiet(None, if 1 < StageValue(p.stage) then TransitionStage(p, 1).value else p, 2, []);
    case Park =>
  }

  /** The stage a decision leads to. */
  lemma StageAfterDecide(start: Option<int>, p: Project, gate: string, decision: string)
    requires Inv(start, p) && Decided(p, gate, decision).Ok?
    ensures gate in p.gates && ParseDecision(decision).Ok?
    ensures Decided(p, gate, decision).value.0.stage
            == StageAfter(ParseDecision(decision).value, p.stage, p.gates[gate].stage)
  {
    DecidedIsApplied(p, gate, decision);
    var (d, g) := (ParseDecision(decision).value, p.gates[gate]);
    StageAfterApplied(Closed(p, gate, decision), d, g.stage, ResolveTarget(d, StageValue(p.stage), g.stage).value);
  }

  /** Proceeding lowers the stage exactly when the project has moved past the gate's next stage. */
  lemma ProceedLowersIff(start: Option<int>, p: Project, gate: string)
    requires Inv(start, p) && Decided(p, gate, "proceed").Ok?
    ensures StageValue(Decided(p, gate, "proceed").value.0.stage) < StageValue(p.stage)
            <==> 0 <= p.gates[gate].stage <= 3 && p.gates[gate].stage + 1 < StageValue(p.stage)
  {
    StageAfterDecide(start, p, gate, "proceed");
  }

  /**
   While a project is parked or deleted only the build hook can move it, and then exactly on a
   first build below stage 3.
   */
  lemma ParkedStageMovesIff(start: Option<int>, p: Project, c: Call)
    requires Inv(start, p) && p.status != Active
    ensures Exec(p, c).stage != p.stage <==> c == BuildHook("build_v0_1") && StageValue(p.stage) < 3
  {
    if c.Decide? && Decided(p, c.gate, c.decision).Ok? {
      DecideSucceedsIff(start, p, c.gate, c.decision);
      StageAfterDecide(start, p, c.gate, c.decision);
    }
  }

  /** Parking and unparking gives back the stage, milestones and progress; only gate and log remember. */
  lemma ParkThenUnparkRestores(p: Project, gate: string)
    requires Decided(p, gate, "park").Ok?
    ensures var q := Unparked(Decided(p, gate, "park").value.0);
            && q.stage == p.stage && q.configs == p.configs && q.progressPercent == p.progressPercent
            && q.status == Active
            && Decided(p, gate, "park").value.0.status == Parked
            && q.events == p.events + [ParkedAt(p.stage), GateDecided(gate, "park", None, 0), UnparkedAt(p.stage)]
  {
  }

  lemma ResetKeepsShape(p: Project, stage: int, keys: seq<string>)
    requires ConfigsShaped(p.configs)
    ensures ConfigsShaped(ResetStage(p, stage, keys).configs)
  {
    var q := ResetStage(p, stage, keys);
    ResetIsQuiet(None, p, stage, keys);
    forall i | 0 <= i < |q.configs| ensures SameMilestones(q.configs[i].milestones, Template(i + 1)) {
      assert SameMilestones(p.configs[i].milestones, Template(i + 1));
    }
  }

  ghost predicate Cleared(ms: seq<Milestone>) {
    forall k :: 0 <= k < |ms| ==> !ms[k].completed
  }

  lemma ResetClearsStage(p: Project, stage: int)
    requires ConfigsShaped(p.configs) && p.configs != [] && 1 <= stage <= 5
    ensures var q := ResetStage(p, stage, KeysOfStage(p, stage));
            && |q.configs| == 5 && Cleared(q.configs[stage - 1].milestones)
            && (forall i :: 0 <= i < 5 && i != stage - 1 ==> q.configs[i] == p.configs[i])
  {
    assert p.configs[stage - 1].stage == stage;
    var i := Find(p.configs, stage).value;
    assert i == stage - 1;
    var ms := p.configs[i].milestones;
    var cleared := Marked(ms, Keys(ms), false);
    forall k | 0 <= k < |cleared| ensures !cleared[k].completed {
      assert Keys(ms)[k] == ms[k].key;
    }
    if Keys(ms) == [] { assert ms == []; }
  }

  function KeysFrom(p: Project, stage: nat): seq<string>
    decreases 6 - stage, p
  {
    if stage > 5 then [] else KeysOfStage(p, stage) + KeysFrom(p, stage + 1)
  }

  lemma KeysWhenShaped(p: Project, stage: nat)
    requires ConfigsShaped(p.configs) && 1 <= stage <= 5
    ensures KeysOfStage(p, stage) == if p.configs == [] then [] else Keys(p.configs[stage - 1].milestones)
  {
    if p.configs != [] { assert p.configs[stage - 1].stage == stage; }
  }

  predicate SameFrom(p: Project, q: Project, stage: nat) {
    |q.configs| == |p.configs| && forall i :: 0 <= i < |p.configs| && i + 1 >= stage ==> q.configs[i] == p.configs[i]
  }

  lemma {:induction false} SameLaterKeys(p: Project, q: Project, stage: nat)
    requires ConfigsShaped(p.configs) && ConfigsShaped(q.configs) && SameFrom(p, q, stage) && 1 <= stage
    ensures KeysFrom(q, stage) == KeysFrom(p, stage)
    decreases 6 - stage
  {
    if stage <= 5 {
      KeysWhenShaped(p, stage);
      KeysWhenShaped(q, stage);
      SameLaterKeys(p, q, stage + 1);
    }
  }

  ghost predicate ClearedFrom(p: Project, q: Project, stage: nat) {
    && |q.configs| == |p.configs|
    && (forall i :: 0 <= i < |p.configs| && i + 1 < stage ==> q.configs[i] == p.configs[i])
    && (forall i :: 0 <= i < |q.configs| && i + 1 >= stage ==> Cleared(q.configs[i].milestones))
  }

  /** What one round of pivot's loop does. */
  ghost predicate OneCleared(p: Project, q: Project, stage: nat)
    requires 1 <= stage
  {
    && ConfigsShaped(q.configs) && |q.configs| == |p.configs| && SameFrom(p, q, stage + 1)
    && (forall i :: 0 <= i < |p.configs| && i + 1 < stage ==> q.configs[i] == p.configs[i])
    && (stage <= |p.configs| ==> Cleared(q.configs[stage - 1].milestones))
  }

  lemma OneRoundClears(p: Project, stage: nat)
    requires ConfigsShaped(p.configs) && 1 <= stage <= 5
    ensures OneCleared(p, ResetStage(p, stage, KeysOfStage(p, stage)), stage)
  {
    var keys := KeysOfStage(p, stage);
    ResetKeepsShape(p, stage, keys);
    ResetIsQuiet(None, p, stage, keys);
    if p.configs != [] { ResetClearsStage(p, stage); }
  }

  lemma ThenTheRest(p: Project, q: Project, r: Project, stage: nat, done: seq<string>)
    requires ConfigsShaped(p.configs) && 1 <= stage <= 5
    requires OneCleared(p, q, stage) && ClearedFrom(q, r, stage + 1)
    ensures ClearedFrom(p, r, stage)
    ensures (done + KeysOfStage(p, stage)) + KeysFrom(q, stage + 1) == done + KeysFrom(p, stage)
  {
    SameLaterKeys(p, q, stage + 1);
    Regroup(done, KeysOfStage(p, stage), KeysFrom(p, stage + 1));
  }

  lemma {:induction false} ResetFromClears(p: Project, stage: nat, done: seq<string>)
    requires ConfigsShaped(p.configs) && 1 <= stage
    ensures ClearedFrom(p, ResetFrom(p, stage, done).0, stage)
    ensures ResetFrom(p, stage, done).1 == done + KeysFrom(p, stage)
    decreases 6 - stage
  {
    if stage <= 5 {
      var keys := KeysOfStage(p, stage);
      var q := ResetStage(p, stage, keys);
      OneRoundClears(p, stage);
      ResetFromClears(q, stage + 1, done + keys);
      var r := ResetFrom(q, stage + 1, done + keys);
      assert ResetFrom(p, stage, done) == r;
      ThenTheRest(p, q, r.0, stage, done);
    }
  }

  lemma AppliedPivotClears(p: Project, gateStage: int)
    requires ConfigsShaped(p.configs) && StageInRange(p.stage) && Applied(p, Pivot, gateStage, Some(1)).Ok?
    ensures var (q, keys) := Applied(p, Pivot, gateStage, Some(1)).value;
            ClearedFrom(p, q, 2) && keys == KeysFrom(p, 2)
  {
    TransitionShape(p, 1);
    var r := if 1 < StageValue(p.stage) then TransitionStage(p, 1).value else p;
    ResetFromClears(r, 2, []);
    SameLaterKeys(p, r, 2);
  }

  /** After a pivot nothing of stages 2 to 5 is completed, their keys are reported, and stage 1 is as it was. */
  lemma PivotClearsLaterStages(start: Option<int>, p: Project, gate: string)
    requires Inv(start, p) && Decided(p, gate, "pivot").Ok?
    ensures var (q, report) := Decided(p, gate, "pivot").value;
            ClearedFrom(p, q, 2) && report.milestonesReset == KeysFrom(p, 2)
  {
    DecidedIsApplied(p, gate, "pivot");
    var closed := Closed(p, gate, "pivot");
    AppliedPivotClears(closed, p.gates[gate].stage);
    SameLaterKeys(p, closed, 2);
  }
}
