/**
 The state-machine skeleton of a build: which status transitions a pipeline makes before it
 returns or raises. Sandboxes, runners and narration only decide where it raises.
 */
module GenerationPipeline {
  import opened QueueSchemas
  import opened RedisStore
  import opened JobLifecycle

  /**
   Where the pipeline raises, or is interrupted: after how many of its five transitions, or
   never. An interruption, an asyncio cancellation, passes through every handler for exceptions.
   */
  datatype Fate = Completes | RaisesAfter(stages: nat) | InterruptedAfter(stages: nat)

  datatype Ending = Returned | Raised | Interrupted

  const STAGES: seq<JobStatus> := [Starting, Scaffold, Code, Deps, Checks]

  predicate Raises(fate: Fate) {
    fate.RaisesAfter? && fate.stages <= |STAGES|
  }

  predicate Interrupts(fate: Fate) {
    fate.InterruptedAfter? && fate.stages <= |STAGES|
  }

  function EndingOf(fate: Fate): Ending {
    if Raises(fate) then Raised else if Interrupts(fate) then Interrupted else Returned
  }

  /** How many transitions are made. */
  function Reached(fate: Fate): nat {
    if Raises(fate) || Interrupts(fate) then fate.stages else |STAGES|
  }

  predicate Stops(fate: Fate, n: nat) {
    !fate.Completes? && fate.stages == n
  }

  /** The status of a queued job after that many transitions. */
  function StatusAfter(n: nat): JobStatus
    requires n <= |STAGES|
  {
    if n == 0 then Queued else STAGES[n - 1]
  }

  function Staged(jobs: map<JobId, Job>, id: JobId, n: nat): map<JobId, Job>
    requires n <= |STAGES|
  {
    if n == 0 then jobs else Transitioned(Staged(jobs, id, n - 1), id, STAGES[n - 1]).0
  }

  /** The job table after the pipeline, the FAILED transition of a raising one included. */
  function Built(jobs: map<JobId, Job>, id: JobId, fate: Fate): map<JobId, Job> {
    var staged := Staged(jobs, id, Reached(fate));
    if Raises(fate) then Transitioned(staged, id, Failed).0 else staged
  }

  lemma {:induction false} StagedFromQueued(jobs: map<JobId, Job>, id: JobId, n: nat)
    requires id in jobs && jobs[id].status == Queued && n <= |STAGES|
    ensures Staged(jobs, id, n) == jobs[id := jobs[id].(status := StatusAfter(n))]
  {
    if n == 0 {
      assert jobs[id := jobs[id].(status := Queued)] == jobs;
    } else {
      StagedFromQueued(jobs, id, n - 1);
      assert STAGES[n - 1] in Successors(StatusAfter(n - 1));
    }
  }

  /** The transitions of a job that was settled meanwhile are all refused. */
  lemma {:induction false} StagedFromTerminal(jobs: map<JobId, Job>, id: JobId, n: nat)
    requires id in jobs && Terminal(jobs[id].status) && n <= |STAGES|
    ensures Staged(jobs, id, n) == jobs
  {
    if n > 0 { StagedFromTerminal(jobs, id, n - 1); }
  }

  /**
   A queued job is in CHECKS after a pipeline that returns, FAILED after one that raises,
   wherever it raised, and where it had got to after one that is interrupted.
   */
  lemma BuiltFromQueued(jobs: map<JobId, Job>, id: JobId, fate: Fate)
    requires id in jobs && jobs[id].status == Queued
    ensures Built(jobs, id, fate)
            == jobs[id := jobs[id].(status := if Raises(fate) then Failed else StatusAfter(Reached(fate)))]
  {
    StagedFromQueued(jobs, id, Reached(fate));
  }

  class GenerationService {
    const machine: JobStateMachine

    constructor (machine: JobStateMachine)
      ensures this.machine == machine
    {
      this.machine := machine;
    }

    /** The body of the try block. */
    method RunStages(id: JobId, fate: Fate) returns (end: Ending)
      modifies machine.redis
      ensures end == EndingOf(fate)
      ensures machine.redis.db == old(machine.redis.db).(jobs := Staged(old(machine.redis.db).jobs, id, Reached(fate)))
    {
      ghost var jobs := machine.redis.db.jobs;
      if Stops(fate, 0) { return EndingOf(fate); }
      var _ := machine.Transition(id, Starting);
      assert machine.redis.db.jobs == Staged(jobs, id, 1);
      if Stops(fate, 1) { return EndingOf(fate); }
      var _ := machine.Transition(id, Scaffold);
      assert machine.redis.db.jobs == Staged(jobs, id, 2);
      if Stops(fate, 2) { return EndingOf(fate); }
      var _ := machine.Transition(id, Code);
      assert machine.redis.db.jobs == Staged(jobs, id, 3);
      if Stops(fate, 3) { return EndingOf(fate); }
      var _ := machine.Transition(id, Deps);
      assert machine.redis.db.jobs == Staged(jobs, id, 4);
      if Stops(fate, 4) { return EndingOf(fate); }
      var _ := machine.Transition(id, Checks);
      assert machine.redis.db.jobs == Staged(jobs, id, 5);
      if Stops(fate, 5) { return EndingOf(fate); }
      return Returned;
    }

    method ExecuteBuild(id: JobId, fate: Fate) returns (end: Ending)
      modifies machine.redis
      ensures end == EndingOf(fate)
      ensures machine.redis.db == old(machine.redis.db).(jobs := Built(old(machine.redis.db).jobs, id, fate))
    {
      end := RunStages(id, fate);
      if end == Raised {
        var _ := machine.Transition(id, Failed);
      }
    }

    /**
     The iteration build adds one failure: when the health check fails the job is failed at
     once, and the handler recognises the tagged exception and does not fail it again.
     */
    method ExecuteIterationBuild(id: JobId, fate: Fate, checkPassed: bool) returns (end: Ending)
      modifies machine.redis
      ensures end == if EndingOf(fate) == Returned && !checkPassed then Raised else EndingOf(fate)
      ensures machine.redis.db == old(machine.redis.db).(
        jobs := Built(old(machine.redis.db).jobs, id,
                      if EndingOf(fate) == Returned && !checkPassed then RaisesAfter(5) else fate))
    {
      end := RunStages(id, fate);
      var tagged := false;
      if end == Returned && !checkPassed {
        var _ := machine.Transition(id, Failed);
        tagged, end := true, Raised;
      }
      if end == Raised && !tagged {
        var _ := machine.Transition(id, Failed);
      }
    }
  }
}
