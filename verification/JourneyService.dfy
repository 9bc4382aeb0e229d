/**
 The service over a database session: changes go to the session's copy of the project and
 are committed at the end of a call; a call that raises rolls them back.
 */
module JourneyServices {
  import opened Common
  import opened Progress
  import opened StageRules
  import opened Journey

  lemma {:induction false} FilledAppend(a: seq<seq<Milestone>>, ms: seq<Milestone>)
    ensures Filled(a + [ms]) == Filled(a) + [StageData(ms, StageProgress(ms))]
  {
    if a == [] {
      assert a + [ms] == [ms];
      assert Filled([ms][1..]) == [];
    } else {
      assert (a + [ms])[1..] == a[1..] + [ms];
      FilledAppend(a[1..], ms);
    }
  }

  class JourneyService {
    var committed: Project
    var session: Project

    constructor (p: Project)
      ensures committed == p && session == p
    {
      committed := p;
      session := p;
    }

    method Commit()
      modifies this
      ensures committed == old(session) && session == old(session)
    {
      committed := session;
    }

    method Rollback()
      modifies this
      ensures committed == old(committed) && session == old(committed)
    {
      session := committed;
    }

    method InitializeJourney()
      requires session == committed
      modifies this
      ensures session == committed == Initialized(old(committed))
    {
      if session.configs != [] {
        return;
      }
      for n := 1 to 6
        invariant session == old(session).(configs := Templates(n - 1))
        invariant committed == old(committed)
      {
        session := session.(configs := session.configs + [StageConfig(n, Template(n))]);
      }
      session := Log(session, JourneyInitialized);
      Commit();
    }

    method CreateGate(gate: string, stage: int)
      requires session == committed
      modifies this
      ensures session == committed == WithGate(old(committed), gate, stage)
    {
      session := session.(gates := session.gates[gate := Gate(stage, true, None)]);
      session := Log(session, GateCreated(gate, stage));
      Commit();
    }

    method DecideGate(gate: string, decision: string) returns (r: Result<Report, JourneyError>)
      requires session == committed
      modifies this
      ensures session == committed == Exec(old(committed), Decide(gate, decision))
      ensures match Decided(old(committed), gate, decision)
              case Ok((_, report)) => r == Ok(report)
              case Err(e) => r == Err(e)
    {
      if gate !in session.gates {
        return Err(NoSuchGate);
      }
      var g := session.gates[gate];
      if !g.pending {
        return Err(GateNotPending);
      }
      session := session.(gates := session.gates[gate := g.(pending := false, decision := Some(decision))]);
      var parsed := ParseDecision(decision);
      if parsed.Err? {
        Rollback();
        return Err(Rule(parsed.error));
      }
      var current := StageValue(session.stage);
      if !IsStage(current) {
        Rollback();
        return Err(Rule(NotAStage));
      }
      var resolved := ResolveTarget(parsed.value, current, g.stage);
      if resolved.Err? {
        Rollback();
        return Err(Rule(resolved.error));
      }
      var target := resolved.value;
      var applied := Apply(parsed.value, g.stage, target);
      if applied.Err? {
        Rollback();
        return Err(applied.error);
      }
      session := Log(session, GateDecided(gate, decision, Shown(target), |applied.value|));
      Commit();
      return Ok(Report(Shown(target), applied.value));
    }

    /** The branch on the decision; returns the milestones reset. */
    method Apply(decision: GateDecision, gateStage: int, target: Option<int>)
      returns (r: Result<seq<string>, JourneyError>)
      modifies this`session
      ensures match Applied(old(session), decision, gateStage, target)
              case Err(e) => r == Err(e)
              case Ok((p, keys)) => r == Ok(keys) && session == p
    {
      match decision
      case Proceed =>
        if target.Some? && target.value != 0 {
          var moved := MoveTo(target.value);
          return if moved.Err? then Err(moved.error) else Ok([]);
        }
        return Ok([]);
      case Narrow =>
        var keys := KeysOfStage(session, gateStage);
        ResetMilestones(gateStage, keys);
        return Ok(keys);
      case Pivot =>
        if THESIS_DEFINED < StageValue(session.stage) {
          var moved := MoveTo(THESIS_DEFINED);
          if moved.Err? {
            return Err(moved.error);
          }
        }
        var keys := ResetLaterStages();
        return Ok(keys);
      case Park =>
        session := session.(status := Parked);
        session := Log(session, ParkedAt(session.stage));
        return Ok([]);
    }

    method ResetLaterStages() returns (reset: seq<string>)
      modifies this`session
      ensures (session, reset) == ResetFrom(old(session), THESIS_DEFINED + 1, [])
    {
      reset := [];
      for n := THESIS_DEFINED + 1 to 6
        invariant ResetFrom(session, n, reset) == ResetFrom(old(session), THESIS_DEFINED + 1, [])
      {
        var keys := KeysOfStage(session, n);
        ResetMilestones(n, keys);
        reset := reset + keys;
      }
    }

    method MoveTo(target: int) returns (r: Result<(), JourneyError>)
      modifies this`session
      ensures match TransitionStage(old(session), target)
              case Err(e) => r == Err(e) && session == old(session)
              case Ok(p) => r.Ok? && session == p
    {
      var current := StageValue(session.stage);
      if !IsStage(current) {
        return Err(Rule(NotAStage));
      }
      if session.status == Deleted {
        return Err(Rule(NotAStatus));
      }
      var allowed := ValidateTransition(current, target, session.status, ["proceed"]);
      if allowed.Err? {
        return Err(Rule(allowed.error));
      }
      var from := if current == 0 then None else session.stage;
      session := session.(stage := Some(target));
      session := Log(session, Transition(from, target));
      return Ok(());
    }

    method ResetMilestones(stage: int, keys: seq<string>)
      modifies this`session
      ensures session == ResetStage(old(session), stage, keys)
    {
      if keys == [] {
        return;
      }
      var found := Find(session.configs, stage);
      if found.None? {
        return;
      }
      var config := session.configs[found.value];
      var ms := config.milestones;
      for i := 0 to |keys|
        invariant ms == Marked(config.milestones, keys[..i], false)
      {
        if keys[i] in Keys(ms) {
          ms := Marked(ms, [keys[i]], false);
        } else {
          assert forall k :: 0 <= k < |ms| ==> Keys(ms)[k] == ms[k].key;
        }
        assert keys[..i + 1] == keys[..i] + [keys[i]];
        assert ms == Marked(config.milestones, keys[..i + 1], false);
      }
      assert keys[..|keys|] == keys;
      session := session.(configs := session.configs[found.value := config.(milestones := ms)]);
      session := Log(session, MilestoneReset(stage, keys));
    }

    method UnparkProject()
      requires session == committed
      modifies this
      ensures session == committed == Unparked(old(committed))
    {
      session := session.(status := Active);
      session := Log(session, UnparkedAt(session.stage));
      Commit();
    }

    method CompleteMilestone(stage: int, key: string) returns (r: Result<nat, JourneyError>)
      requires session == committed
      modifies this
      ensures session == committed == Exec(old(committed), Complete(stage, key))
      ensures match Completed(old(committed), stage, key)
              case Err(e) => r == Err(e)
              case Ok(p) =>
                && Find(p.configs, stage).Some?
                && r == Ok(StageProgress(p.configs[Find(p.configs, stage).value].milestones))
      ensures r.Ok? ==> committed.progressPercent == Computed(committed)
    {
      var found := Find(session.configs, stage);
      if found.None? {
        return Err(NoSuchConfig);
      }
      var config := session.configs[found.value];
      if key !in Keys(config.milestones) {
        return Err(NoSuchMilestone);
      }
      var ms := Marked(config.milestones, [key], true);
      session := session.(configs := session.configs[found.value := config.(milestones := ms)]);
      var stageProgress := StageProgress(ms);
      var globalProgress, _ := GetProjectProgress();
      session := session.(progressPercent := globalProgress);
      session := Log(session, MilestoneDone(stage, key, stageProgress, globalProgress));
      assert forall i :: 0 <= i < |session.configs| ==>
        session.configs[i].stage == old(session).configs[i].stage;
      Commit();
      return Ok(stageProgress);
    }

    /** Computed on demand; the cached percentage is not read. */
    method GetProjectProgress() returns (percent: nat, stages: seq<StageData>)
      ensures percent == Computed(session) && stages == Filled(MilestonesOf(session.configs))
    {
      stages := [];
      var all := MilestonesOf(session.configs);
      for i := 0 to |session.configs|
        invariant stages == Filled(all[..i])
      {
        var ms := session.configs[i].milestones;
        FilledAppend(all[..i], ms);
        assert all[..i + 1] == all[..i] + [ms];
        stages := stages + [StageData(ms, StageProgress(ms))];
      }
      assert all[..|all|] == all;
      percent := ComputeGlobalProgress(stages);
    }
  }
}
