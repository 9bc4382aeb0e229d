/**
 What each call does to a project, part by part: which milestones, gates, percentages and log
 entries it changes, and what it leaves alone.
 */
module JourneyEffects {
  import opened Common
  import opened Progress
  import opened StageRules
  import opened Journey

  /** Everything but the milestones and the log. */
  predicate SameButMilestones(p: Project, q: Project) {
    q == p.(configs := q.configs, events := q.events)
  }

  // ---------- Narrowing ----------

  /** The keys of the milestones, in their order. */
  predicate Lists(keys: seq<string>, ms: seq<Milestone>) {
    |keys| == |ms| && forall k :: 0 <= k < |ms| ==> keys[k] == ms[k].key
  }

  /** The same milestones, all of them open. */
  predicate Reopened(before: seq<Milestone>, after: seq<Milestone>) {
    |after| == |before| && forall k :: 0 <= k < |before| ==> after[k] == before[k].(completed := false)
  }

  /** One stage is reopened and its keys are listed; the others are as they were. */
  ghost predicate StageReopened(before: seq<StageConfig>, after: seq<StageConfig>, stage: int, keys: seq<string>) {
    && |after| == |before|
    && (forall i :: 0 <= i < |before| ==> after[i].stage == before[i].stage)
    && (forall i :: 0 <= i < |before| && before[i].stage != stage ==> after[i] == before[i])
    && (forall i :: 0 <= i < |before| && before[i].stage == stage ==>
          Reopened(before[i].milestones, after[i].milestones) && Lists(keys, before[i].milestones))
    && ((forall i :: 0 <= i < |before| ==> before[i].stage != stage) ==> keys == [])
  }

  lemma ReopenedAll(ms: seq<Milestone>)
    ensures Reopened(ms, Marked(ms, Keys(ms), false)) && Lists(Keys(ms), ms)
  {
    forall k | 0 <= k < |ms| ensures Marked(ms, Keys(ms), false)[k] == ms[k].(completed := false) {
      assert Keys(ms)[k] == ms[k].key;
    }
  }

  lemma ResetReopens(p: Project, stage: int)
    requires ConfigsShaped(p.configs)
    ensures var keys := KeysOfStage(p, stage); var q := ResetStage(p, stage, keys);
            && StageReopened(p.configs, q.configs, stage, keys) && SameButMilestones(p, q)
            && q.events == p.events + (if keys == [] then [] else [MilestoneReset(stage, keys)])
  {
    var found := Find(p.configs, stage);
    if found.Some? {
      var i := found.value;
      var ms := p.configs[i].milestones;
      ReopenedAll(ms);
      assert forall j :: 0 <= j < |p.configs| && p.configs[j].stage == stage ==> j == i;
      if Keys(ms) == [] { assert ms == []; }
    }
  }

  /**
   After narrowing no milestone of the gate's stage is completed, the keys reported are those
   of that stage in order, and every other stage is as it was.
   */
  lemma NarrowReopensItsStage(start: Option<int>, p: Project, gate: string)
    requires Inv(start, p) && Decided(p, gate, "narrow").Ok?
    ensures gate in p.gates
    ensures var (q, report) := Decided(p, gate, "narrow").value;
            var stage, keys := p.gates[gate].stage, report.milestonesReset;
            && StageReopened(p.configs, q.configs, stage, keys)
            && q.events == p.events + (if keys == [] then [] else [MilestoneReset(stage, keys)])
                           + [GateDecided(gate, "narrow", report.target, |keys|)]
  {
    DecidedIsApplied(p, gate, "narrow");
    ResetReopens(Closed(p, gate, "narrow"), p.gates[gate].stage);
  }

  // ---------- Every decision ----------

  lemma {:induction false} ResetFromKeepsRest(p: Project, stage: nat, done: seq<string>)
    ensures SameButMilestones(p, ResetFrom(p, stage, done).0)
    decreases 6 - stage
  {
    if stage <= 5 {
      var keys := KeysOfStage(p, stage);
      ResetFromKeepsRest(ResetStage(p, stage, keys), stage + 1, done + keys);
    }
  }

  /** The parts a decision may change, apart from milestones, log and stage. */
  lemma AppliedTouches(p: Project, d: GateDecision, gateStage: int, target: Option<int>)
    requires Applied(p, d, gateStage, target).Ok?
    ensures var (q, keys) := Applied(p, d, gateStage, target).value;
            && q.gates == p.gates && q.progressPercent == p.progressPercent
            && q.status == (if d == Park then Parked else p.status)
            && (d == Proceed || d == Park ==> q.configs == p.configs && keys == [])
  {
    if d == Pivot {
      var r := if 1 < StageValue(p.stage) then TransitionStage(p, 1).value else p;
      ResetFromKeepsRest(r, 2, []);
    }
  }

  /** The stage a decision asks for, none when it asks for none or for the pre-stage. */
  function TargetOf(d: GateDecision, stage: int, gateStage: int): Option<int> {
    match d
    case Proceed => if 0 <= gateStage <= 3 then Some(gateStage + 1) else None
    case Narrow => if stage == 0 then None else Some(stage)
    case Pivot => Some(1)
    case Park => None
  }

  /**
   A successful decision closes its gate with the decision on record, reports and logs its
   target and the number of milestones reset, and leaves the other gates and the cached
   percentage alone; only parking changes the status, and only narrowing and pivoting reset.
   */
  lemma DecisionSays(start: Option<int>, p: Project, gate: string, decision: string)
    requires Inv(start, p) && Decided(p, gate, decision).Ok?
    ensures gate in p.gates && p.gates[gate].pending && ParseDecision(decision).Ok?
    ensures var (q, report) := Decided(p, gate, decision).value; var d := ParseDecision(decision).value;
            && q.gates == p.gates[gate := Gate(p.gates[gate].stage, false, Some(decision))]
            && q.progressPercent == p.progressPercent
            && q.status == (if d == Park then Parked else p.status)
            && (d == Proceed || d == Park ==> q.configs == p.configs && report.milestonesReset == [])
            && report.target == TargetOf(d, StageValue(p.stage), p.gates[gate].stage)
            && q.events != []
            && q.events[|q.events| - 1] == GateDecided(gate, decision, report.target, |report.milestonesReset|)
  {
    DecideSucceedsIff(start, p, gate, decision);
    DecidedIsApplied(p, gate, decision);
    var (d, g) := (ParseDecision(decision).value, p.gates[gate]);
    AppliedTouches(Closed(p, gate, decision), d, g.stage, ResolveTarget(d, StageValue(p.stage), g.stage).value);
  }

  /** What a decision that cannot be taken is told; the first reason counts. */
  lemma DecisionRefused(start: Option<int>, p: Project, gate: string, decision: string)
    requires Inv(start, p)
    ensures gate !in p.gates ==> Decided(p, gate, decision) == Err(NoSuchGate)
    ensures gate in p.gates && !p.gates[gate].pending ==> Decided(p, gate, decision) == Err(GateNotPending)
    ensures gate in p.gates && p.gates[gate].pending && decision !in ["proceed", "narrow", "pivot", "park"]
            ==> Decided(p, gate, decision) == Err(Rule(UnknownDecision))
  {
  }

  // ---------- A gate is decided once ----------

  /** Creating a gate makes it pending at that stage, and touches nothing else. */
  lemma CreatedGateIsPending(p: Project, gate: string, stage: int)
    ensures var q := Exec(p, CreateGate(gate, stage));
            && q == p.(gates := q.gates, events := p.events + [GateCreated(gate, stage)])
            && q.gates == p.gates[gate := Gate(stage, true, None)]
  {
  }

  lemma DecidedCloses(p: Project, gate: string, decision: string)
    requires Decided(p, gate, decision).Ok?
    ensures gate in p.gates
    ensures Decided(p, gate, decision).value.0.gates
            == p.gates[gate := Gate(p.gates[gate].stage, false, Some(decision))]
  {
    DecidedIsApplied(p, gate, decision);
    var (d, g) := (ParseDecision(decision).value, p.gates[gate]);
    AppliedTouches(Closed(p, gate, decision), d, g.stage, ResolveTarget(d, StageValue(p.stage), g.stage).value);
  }

  predicate Recreates(c: Call, gate: string) {
    c.CreateGate? && c.gate == gate
  }

  lemma StaysClosed(p: Project, c: Call, gate: string)
    requires gate in p.gates && !p.gates[gate].pending && !Recreates(c, gate)
    ensures gate in Exec(p, c).gates && Exec(p, c).gates[gate] == p.gates[gate]
  {
    if c.Decide? && Decided(p, c.gate, c.decision).Ok? { DecidedCloses(p, c.gate, c.decision); }
  }

  /** A closed gate stays as it is, and every further decision of it fails, until it is created anew. */
  lemma {:induction false} ClosedGateFails(p: Project, gate: string, calls: seq<Call>, again: string)
    requires gate in p.gates && !p.gates[gate].pending
    requires forall c :: c in calls ==> !Recreates(c, gate)
    ensures var q := RunOf(p, calls);
            gate in q.gates && q.gates[gate] == p.gates[gate] && Decided(q, gate, again) == Err(GateNotPending)
    decreases |calls|
  {
    if calls != [] {
      assert calls[0] in calls;
      StaysClosed(p, calls[0], gate);
      ClosedGateFails(Exec(p, calls[0]), gate, calls[1..], again);
    }
  }

  /** A gate is decided at most once. */
  lemma DecidedOnce(p: Project, gate: string, decision: string, calls: seq<Call>, again: string)
    requires Decided(p, gate, decision).Ok? && forall c :: c in calls ==> !Recreates(c, gate)
    ensures Decided(RunOf(Decided(p, gate, decision).value.0, calls), gate, again) == Err(GateNotPending)
  {
    DecidedCloses(p, gate, decision);
    ClosedGateFails(Decided(p, gate, decision).value.0, gate, calls, again);
  }

  // ---------- Completing a milestone ----------

  /** The milestones of that key are completed; the others are as they were. */
  predicate OneCompleted(before: seq<Milestone>, after: seq<Milestone>, key: string) {
    && |after| == |before|
    && forall k :: 0 <= k < |before| ==>
         after[k] == if before[k].key == key then before[k].(completed := true) else before[k]
  }

  ghost predicate HasMilestone(p: Project, stage: int, key: string) {
    exists i, k :: 0 <= i < |p.configs| && 0 <= k < |p.configs[i].milestones|
                   && p.configs[i].stage == stage && p.configs[i].milestones[k].key == key
  }

  lemma KeyIn(ms: seq<Milestone>, key: string)
    ensures key in Keys(ms) <==> exists k :: 0 <= k < |ms| && ms[k].key == key
  {
    if key in Keys(ms) {
      var k :| 0 <= k < |Keys(ms)| && Keys(ms)[k] == key;
      assert ms[k].key == key;
    }
    forall k | 0 <= k < |ms| ensures ms[k].key in Keys(ms) {
      assert Keys(ms)[k] == ms[k].key;
    }
  }

  /** Completing succeeds exactly for a milestone of a configured stage. */
  lemma CompleteSucceedsIff(start: Option<int>, p: Project, stage: int, key: string)
    requires Inv(start, p)
    ensures Completed(p, stage, key).Ok? <==> HasMilestone(p, stage, key)
  {
    var found := Find(p.configs, stage);
    if found.Some? {
      KeyIn(p.configs[found.value].milestones, key);
      assert forall j :: 0 <= j < |p.configs| && p.configs[j].stage == stage ==> j == found.value;
    }
  }

  lemma MarkedOne(ms: seq<Milestone>, key: string)
    ensures OneCompleted(ms, Marked(ms, [key], true), key)
  {
  }

  lemma CompletedAt(start: Option<int>, p: Project, stage: int, key: string) returns (i: nat)
    requires Inv(start, p) && Completed(p, stage, key).Ok?
    ensures i < |p.configs| && p.configs[i].stage == stage
    ensures forall j :: 0 <= j < |p.configs| && p.configs[j].stage == stage ==> j == i
    ensures var q := Completed(p, stage, key).value; var ms := Marked(p.configs[i].milestones, [key], true);
            && q == p.(configs := p.configs[i := p.configs[i].(milestones := ms)],
                       progressPercent := Computed(q), events := q.events)
            && q.events == p.events + [MilestoneDone(stage, key, StageProgress(ms), Computed(q))]
  {
    i := Find(p.configs, stage).value;
  }

  /**
   On success exactly the milestones of that key in that stage are completed; every other
   milestone, the gates, the stage and the status are as before, and neither percentage falls.
   */
  lemma CompletionSays(start: Option<int>, p: Project, stage: int, key: string)
    requires Inv(start, p) && Completed(p, stage, key).Ok?
    ensures var q := Completed(p, stage, key).value;
            && |q.configs| == |p.configs|
            && (forall i :: 0 <= i < |p.configs| && p.configs[i].stage != stage ==> q.configs[i] == p.configs[i])
            && (forall i :: 0 <= i < |p.configs| && p.configs[i].stage == stage ==>
                  && q.configs[i].stage == stage
                  && OneCompleted(p.configs[i].milestones, q.configs[i].milestones, key)
                  && StageProgress(p.configs[i].milestones) <= StageProgress(q.configs[i].milestones))
            && q.gates == p.gates && q.stage == p.stage && q.status == p.status
            && Computed(p) <= Computed(q) == q.progressPercent
  {
    var i := CompletedAt(start, p, stage, key);
    var q := Completed(p, stage, key).value;
    CompletingMarks(p.configs[i].milestones, key);
    CompletingRaises(p, q, i, key);
  }

  lemma CompletingMarks(ms: seq<Milestone>, key: string)
    ensures var after := Marked(ms, [key], true);
            OneCompleted(ms, after, key) && StageProgress(ms) <= StageProgress(after)
  {
    MarkedOne(ms, key);
    StageProgressMonotone(ms, Marked(ms, [key], true));
  }

  lemma CompletingRaises(p: Project, q: Project, i: nat, key: string)
    requires i < |p.configs|
    requires var ms := Marked(p.configs[i].milestones, [key], true);
             q.configs == p.configs[i := p.configs[i].(milestones := ms)]
    ensures Computed(p) <= Computed(q)
  {
    forall j | 0 <= j < |p.configs| ensures Under(MilestonesOf(p.configs)[j], MilestonesOf(q.configs)[j]) {
    }
    OverallMonotone(MilestonesOf(p.configs), MilestonesOf(q.configs));
  }

  const FIRST_DONE := [Milestone("brief_generated", 40, true), Milestone("gate_proceed", 30, false),
                       Milestone("risks_identified", 30, false)]

  lemma FirstDone()
    ensures Marked(Template(1), ["brief_generated"], true) == FIRST_DONE
    ensures "brief_generated" in Keys(Template(1)) && StageProgress(FIRST_DONE) == 40
  {
    assert Keys(Template(1))[0] == "brief_generated";
    Weighs(FIRST_DONE);
  }

  lemma JourneyWithFirstDone()
    ensures Overall([FIRST_DONE, Template(2), Template(3), Template(4), Template(5)]) == 10
  {
    var all := [FIRST_DONE, Template(2), Template(3), Template(4), Template(5)];
    FirstDone();
    Weighs(FIRST_DONE);
    OpenTemplate(2);
    OpenTemplate(3);
    OpenTemplate(4);
    OpenTemplate(5);
    FilledUnfold(all);
    assert TotalOf(Filled(all)) == 400 && WeightedOf(Filled(all)) == 4000;
  }

  lemma OpenTemplate(n: nat)
    requires 2 <= n <= 5
    ensures StageProgress(Template(n)) == 0 && TotalWeight(Template(n)) == if n == 5 then 0 else 100
  {
    TemplatesWeigh();
    var ms := Template(n);
    assert CompletedWeight(ms) == 0;
  }

  /** On a freshly initialised project the first milestone is worth 40 percent of stage 1, and 10 of the journey. */
  lemma FirstMilestone(p: Project)
    requires p.configs == []
    ensures var r := Completed(Initialized(p), 1, "brief_generated");
            && r.Ok? && r.value.configs[0].milestones == FIRST_DONE && r.value.progressPercent == 10
    ensures StageProgress(FIRST_DONE) == 40
  {
    var q := Initialized(p);
    FirstDone();
    assert Find(q.configs, 1) == Some(0);
    var r := Completed(q, 1, "brief_generated").value;
    assert MilestonesOf(r.configs) == [FIRST_DONE, Template(2), Template(3), Template(4), Template(5)];
    JourneyWithFirstDone();
  }

  lemma Weighs(ms: seq<Milestone>)
    requires |ms| == 3
    ensures TotalWeight(ms) == ms[0].weight + ms[1].weight + ms[2].weight
    ensures CompletedWeight(ms)
            == (if ms[0].completed then ms[0].weight else 0) + (if ms[1].completed then ms[1].weight else 0)
               + (if ms[2].completed then ms[2].weight else 0)
  {
    var (b, c) := (ms[1..], ms[2..]);
    assert b[1..] == c && c[1..] == [] && b[0] == ms[1] && c[0] == ms[2];
    assert TotalWeight(c) == c[0].weight && CompletedWeight(c) == if c[0].completed then c[0].weight else 0;
    assert TotalWeight(b) == b[0].weight + TotalWeight(c);
    assert CompletedWeight(b) == (if b[0].completed then b[0].weight else 0) + CompletedWeight(c);
  }

  /** Every template but the last weighs 100, and starts with nothing completed. */
  lemma TemplatesWeigh()
    ensures forall n :: 1 <= n <= 5 ==>
              && TotalWeight(Template(n)) == (if n == 5 then 0 else 100)
              && CompletedWeight(Template(n)) == 0
  {
    forall n | 1 <= n <= 5
      ensures TotalWeight(Template(n)) == (if n == 5 then 0 else 100) && CompletedWeight(Template(n)) == 0
    {
      var ms := Template(n);
      if |ms| == 3 { Weighs(ms); }
      if |ms| == 4 {
        Weighs(ms[1..]);
      }
    }
  }

  /** The keys and weights a journey starts with. */
  lemma TemplateTable()
    ensures Keys(Template(1)) == ["brief_generated", "gate_proceed", "risks_identified"]
    ensures Keys(Template(2)) == ["direction_chosen", "validation_complete", "scope_narrowed", "gate_proceed"]
    ensures Keys(Template(3)) == ["build_started", "build_complete", "tests_passing", "preview_live"]
    ensures Keys(Template(4)) == ["feedback_collected", "iteration_planned", "iteration_shipped", "gate_proceed"]
    ensures Keys(Template(5)) == []
    ensures WeightsOf(Template(1)) == [40, 30, 30] && WeightsOf(Template(2)) == [25, 35, 20, 20]
    ensures WeightsOf(Template(3)) == [15, 35, 20, 30] && WeightsOf(Template(4)) == [30, 25, 25, 20]
  {
  }

  function WeightsOf(ms: seq<Milestone>): seq<nat> {
    seq(|ms|, i requires 0 <= i < |ms| => ms[i].weight)
  }

  /** No template lists a key twice. */
  lemma TemplateKeysAreDistinct(n: nat, i: nat, j: nat)
    requires 1 <= n <= 5 && i < j < |Template(n)|
    ensures Template(n)[i].key != Template(n)[j].key
  {
  }

  lemma FilledUnfold(all: seq<seq<Milestone>>)
    requires |all| == 5
    ensures TotalOf(Filled(all)) == TotalWeight(all[0]) + TotalWeight(all[1]) + TotalWeight(all[2])
                                    + TotalWeight(all[3]) + TotalWeight(all[4])
    ensures WeightedOf(Filled(all)) == StageProgress(all[0]) * TotalWeight(all[0])
                                       + StageProgress(all[1]) * TotalWeight(all[1])
                                       + StageProgress(all[2]) * TotalWeight(all[2])
                                       + StageProgress(all[3]) * TotalWeight(all[3])
                                       + StageProgress(all[4]) * TotalWeight(all[4])
  {
    var (b, c, d, e) := (all[1..], all[2..], all[3..], all[4..]);
    assert b[1..] == c && c[1..] == d && d[1..] == e && e[1..] == [];
    FilledOne(all);
    FilledOne(b);
    FilledOne(c);
    FilledOne(d);
    FilledOne(e);
    assert TotalOf(Filled([])) == 0 == WeightedOf(Filled([]));
  }

  lemma FilledOne(all: seq<seq<Milestone>>)
    requires all != []
    ensures TotalOf(Filled(all)) == TotalWeight(all[0]) + TotalOf(Filled(all[1..]))
    ensures WeightedOf(Filled(all)) == StageProgress(all[0]) * TotalWeight(all[0]) + WeightedOf(Filled(all[1..]))
  {
    assert Filled(all)[1..] == Filled(all[1..]);
  }

  // ---------- Initialising, unparking, deleting ----------

  /** Initialising configures the five stages once and logs it; with configurations present it does nothing. */
  lemma InitializeSays(p: Project)
    ensures var q := Exec(p, Initialize);
            && (p.configs != [] ==> q == p)
            && (p.configs == [] ==>
                  q == p.(configs := q.configs, events := p.events + [JourneyInitialized])
                  && |q.configs| == 5
                  && forall i :: 0 <= i < 5 ==> q.configs[i] == StageConfig(i + 1, Template(i + 1)))
  {
  }

  /** Unparking and deleting set the status, whatever it was; only unparking is logged. */
  lemma StatusCallsSay(p: Project)
    ensures Exec(p, Unpark) == p.(status := Active, events := p.events + [UnparkedAt(p.stage)])
    ensures Exec(p, Delete) == p.(status := Deleted)
  {
  }

  // ---------- The build hook ----------

  /** The first build moves a project below stage 3 to stage 3 and logs both, and does nothing else. */
  lemma HookSays(p: Project, version: string)
    ensures var q := Exec(p, BuildHook(version));
            && q == p.(stage := q.stage, events := q.events)
            && (version == "build_v0_1" && StageValue(p.stage) < 3 ==>
                  q.stage == Some(3) && q.events == p.events + [Transition(p.stage, 3), MvpBuilt(version)])
            && (version != "build_v0_1" || StageValue(p.stage) >= 3 ==> q == p)
  {
  }
}
