/**
 Calls that run without interruption, one after the other, while other processes may be
 stalled with jobs in hand: each is one particular run of the protocol, and what a sequence
 of them loses is known exactly.
 */
module WholeCalls {
  import opened QueueSchemas
  import opened RedisStore
  import opened JobQueue
  import opened Semaphores
  import opened JobLifecycle
  import opened Scheduler
  import opened GenerationPipeline
  import opened Worker
  import opened Routes
  import opened WorkerProtocol

  // ---------- A whole call of the worker is one of these interleavings ----------

  /** The n-th step of a pipeline, with the heartbeats of the simulated one. */
  function OneStage(id: JobId, w: World, n: nat): seq<Action> {
    if w.hasRunner || n <= 1 then [Advance(id)] else [Advance(id), Beat(id, true), Beat(id, false)]
  }

  function Advances(id: JobId, w: World, n: nat): seq<Action> {
    if n == 0 then [] else Advances(id, w, n - 1) + OneStage(id, w, n)
  }

  function BuiltTo(db: Db, job: Job, id: JobId, w: World, n: nat): Db
    requires n <= |STAGES|
  {
    if w.hasRunner then db.(jobs := Staged(db.jobs, id, n)) else Simulated(db, job, id, n)
  }

  /** How the try statement is left: with the READY transition and the row, by an exception, or interrupted. */
  function Ending(id: JobId, w: World): seq<Action> {
    if Interrupts(w.fate) then [Interrupt(id)]
    else if Raises(w.fate) then [Fail(id), WriteRow(id, w.tableUp)]
    else match w.late
         case NoLateFault => [Advance(id), WriteRow(id, w.tableUp), Close(id)]
         case BeforePersist => [Advance(id), Fail(id), WriteRow(id, w.tableUp)]
         case AfterPersist => [Advance(id), WriteRow(id, w.tableUp), Fail(id)] + [WriteRow(id, w.tableUp)]
  }

  function BuildScript(id: JobId, w: World): seq<Action> {
    Advances(id, w, Reached(w.fate)) + Ending(id, w)
  }

  /** The actions of one worker that runs alone. */
  function Script(db: Db, w: World): seq<Action> {
    var (queue, popped) := Dequeued(db.queue);
    if popped.None? || popped.value !in db.jobs then [Claim]
    else
      var id := popped.value;
      var job := db.jobs[id];
      var (s1, gotUser) := Acquired(db.sems, UserSlot(job, id), UserLimit(job.tier));
      if !gotUser then [Claim, TakeUser(id), Requeue(id)]
      else if !Acquired(s1, ProjectSlot(job, id), ProjectLimit(job.tier)).1
      then [Claim, TakeUser(id), TakeProject(id), GiveBack(id), Requeue(id)]
      else
        [Claim, TakeUser(id), TakeProject(id)] + BuildScript(id, w) + [FreeUser(id), FreeProject(id)]
  }

  /** A job in hand and what becomes of it: the others are as they were. */
  lemma FlightNeutral(flight: map<JobId, Phase>, id: JobId, p: Phase, q: Phase)
    ensures flight[id := p][id := q] == flight[id := q]
    ensures id !in flight ==> flight[id := q] - {id} == flight
  {
  }

  lemma {:induction false} StagedKeepsOwner(jobs: map<JobId, Job>, id: JobId, n: nat)
    requires id in jobs && n <= |STAGES|
    ensures id in Staged(jobs, id, n)
    ensures Staged(jobs, id, n)[id] == jobs[id].(status := Staged(jobs, id, n)[id].status)
  {
    if n > 0 { StagedKeepsOwner(jobs, id, n - 1); }
  }

  lemma BothBeats(s: State, id: JobId, job: Job)
    requires InBuild(s, id) && s.db.jobs[id].userId == job.userId && s.db.jobs[id].projectId == job.projectId
    ensures Acted(Acted(s, Beat(id, true)), Beat(id, false))
            == s.(db := s.db.(sems := BothRefreshed(s.db.sems, job, id)))
  {
  }

  lemma StageRuns(s: State, db: Db, id: JobId, w: World, n: nat)
    requires 0 < n <= |STAGES| && id in db.jobs && s.db == BuiltTo(db, db.jobs[id], id, w, n - 1)
    requires id in s.flight && s.flight[id] == Building(n - 1)
    ensures RunOf(s, OneStage(id, w, n))
            == s.(db := BuiltTo(db, db.jobs[id], id, w, n), flight := s.flight[id := Building(n)])
  {
    var job := db.jobs[id];
    SimulatedIsStaged(db, job, id, n - 1);
    StagedKeepsOwner(db.jobs, id, n - 1);
    StagedKeepsOwner(db.jobs, id, n);
    var t := Tried(s, id, STAGES[n - 1], Building(n));
    assert Acted(s, Advance(id)) == t;
    if w.hasRunner || n <= 1 {
      RunOne(s, Advance(id));
    } else {
      RunThree(s, Advance(id), Beat(id, true), Beat(id, false));
      SimulatedIsStaged(db, job, id, n);
      assert t.db.jobs == Staged(db.jobs, id, n);
      BothBeats(t, id, job);
    }
  }

  lemma {:induction false} AdvancesBuild(s: State, id: JobId, w: World, n: nat)
    requires n <= |STAGES| && id in s.db.jobs && id in s.flight && s.flight[id] == Building(0)
    ensures RunOf(s, Advances(id, w, n))
            == s.(db := BuiltTo(s.db, s.db.jobs[id], id, w, n), flight := s.flight[id := Building(n)])
  {
    if n == 0 {
      assert s.flight[id := Building(0)] == s.flight;
    } else {
      AdvancesBuild(s, id, w, n - 1);
      var t := RunOf(s, Advances(id, w, n - 1));
      RunAppend(s, Advances(id, w, n - 1), OneStage(id, w, n));
      StageRuns(t, s.db, id, w, n);
      FlightNeutral(s.flight, id, Building(n - 1), Building(n));
    }
  }

  /** What leaving the try statement makes of the database. */
  function Ended(d: Db, id: JobId, w: World): Db {
    if Interrupts(w.fate) then d
    else if Raises(w.fate) then d.(jobs := Transitioned(d.jobs, id, Failed).0)
    else
      var ready := Transitioned(d.jobs, id, Ready).0;
      d.(jobs := if w.late.NoLateFault? then ready else Transitioned(ready, id, Failed).0)
  }

  lemma ExecutedIsEnded(db: Db, job: Job, id: JobId, w: World)
    ensures Executed(db, job, id, w) == Ended(BuiltTo(db, job, id, w, Reached(w.fate)), id, w)
  {
  }

  lemma ReadyRuns(s: State, id: JobId, up: bool)
    requires id in s.db.jobs && id in s.flight && s.flight[id] == Building(|STAGES|)
    ensures var t := Tried(s, id, Ready, Writing(Ready));
            && Acted(s, Advance(id)) == t && InPhase(t, id, Writing(Ready))
            && Acted(t, WriteRow(id, up))
               == t.(rows := Persisted(s.rows, id, Ready, up), flight := s.flight[id := Archiving])
  {
    FlightNeutral(s.flight, id, Writing(Ready), Archiving);
  }

  lemma FailRuns(s: State, id: JobId, up: bool)
    requires CanFail(s, id)
    ensures Acted(Acted(s, Fail(id)), WriteRow(id, up))
            == State(s.db.(jobs := Transitioned(s.db.jobs, id, Failed).0), s.flight[id := Releasing],
                     Persisted(s.rows, id, Failed, up))
  {
    FlightNeutral(s.flight, id, Writing(Failed), Releasing);
  }

  lemma ClosedRuns(s: State, id: JobId, up: bool)
    requires id in s.db.jobs && id in s.flight && s.flight[id] == Building(|STAGES|)
    ensures RunOf(s, [Advance(id), WriteRow(id, up), Close(id)])
            == State(s.db.(jobs := Transitioned(s.db.jobs, id, Ready).0), s.flight[id := Releasing],
                     Persisted(s.rows, id, Ready, up))
  {
    RunThree(s, Advance(id), WriteRow(id, up), Close(id));
    ReadyRuns(s, id, up);
    var t := Tried(s, id, Ready, Writing(Ready));
    CloseRuns(t.(rows := Persisted(s.rows, id, Ready, up)), s.flight, id);
  }

  lemma CloseRuns(s: State, flight: map<JobId, Phase>, id: JobId)
    requires id in s.db.jobs
    ensures Acted(s.(flight := flight[id := Archiving]), Close(id)) == s.(flight := flight[id := Releasing])
  {
    FlightNeutral(flight, id, Archiving, Releasing);
  }

  lemma FaultBeforeRow(s: State, id: JobId, up: bool)
    requires id in s.db.jobs && id in s.flight && s.flight[id] == Building(|STAGES|)
    ensures RunOf(s, [Advance(id), Fail(id), WriteRow(id, up)])
            == State(s.db.(jobs := Transitioned(Transitioned(s.db.jobs, id, Ready).0, id, Failed).0),
                     s.flight[id := Releasing], Persisted(s.rows, id, Failed, up))
  {
    RunThree(s, Advance(id), Fail(id), WriteRow(id, up));
    ReadyRuns(s, id, up);
    FailRuns(Tried(s, id, Ready, Writing(Ready)), id, up);
    FlightNeutral(s.flight, id, Writing(Ready), Releasing);
  }

  lemma FaultAfterRow(s: State, id: JobId, up: bool)
    requires id in s.db.jobs && id in s.flight && s.flight[id] == Building(|STAGES|)
    ensures RunOf(s, [Advance(id), WriteRow(id, up), Fail(id)] + [WriteRow(id, up)])
            == State(s.db.(jobs := Transitioned(Transitioned(s.db.jobs, id, Ready).0, id, Failed).0),
                     s.flight[id := Releasing], Persisted(Persisted(s.rows, id, Ready, up), id, Failed, up))
  {
    ReadyRuns(s, id, up);
    var u := Acted(Tried(s, id, Ready, Writing(Ready)), WriteRow(id, up));
    RunAppend(s, [Advance(id), WriteRow(id, up), Fail(id)], [WriteRow(id, up)]);
    RunThree(s, Advance(id), WriteRow(id, up), Fail(id));
    RunOne(Acted(u, Fail(id)), WriteRow(id, up));
    FailRuns(u, id, up);
    FlightNeutral(s.flight, id, Archiving, Releasing);
  }

  lemma EndingRuns(s: State, id: JobId, w: World)
    requires id in s.db.jobs && id in s.flight && s.flight[id] == Building(Reached(w.fate))
    ensures RunOf(s, Ending(id, w))
            == State(Ended(s.db, id, w), s.flight[id := Releasing], Recorded(s.rows, id, w))
  {
    if Interrupts(w.fate) {
      RunOne(s, Interrupt(id));
    } else if Raises(w.fate) {
      RunTwo(s, Fail(id), WriteRow(id, w.tableUp));
      FailRuns(s, id, w.tableUp);
    } else {
      match w.late
      case NoLateFault => ClosedRuns(s, id, w.tableUp);
      case BeforePersist => FaultBeforeRow(s, id, w.tableUp);
      case AfterPersist => FaultAfterRow(s, id, w.tableUp);
    }
  }

  lemma BuildScriptExecutes(s: State, id: JobId, w: World)
    requires id in s.db.jobs && id in s.flight && s.flight[id] == Building(0)
    ensures RunOf(s, BuildScript(id, w))
            == State(Executed(s.db, s.db.jobs[id], id, w), s.flight[id := Releasing], Recorded(s.rows, id, w))
  {
    var n := Reached(w.fate);
    var t := s.(db := BuiltTo(s.db, s.db.jobs[id], id, w, n), flight := s.flight[id := Building(n)]);
    AdvancesBuild(s, id, w, n);
    RunAppend(s, Advances(id, w, n), Ending(id, w));
    SimulatedIsStaged(s.db, s.db.jobs[id], id, n);
    StagedKeepsOwner(s.db.jobs, id, n);
    EndingRuns(t, id, w);
    ExecutedIsEnded(s.db, s.db.jobs[id], id, w);
    FlightNeutral(s.flight, id, Building(n), Releasing);
  }

  lemma ClaimNext(s: State)
    requires Inv(s) && s.db.queue.pending != []
    ensures var id := s.db.queue.pending[0].member;
            && id in s.db.jobs && QueuedOrFailed(s.db.jobs[id].status) && id !in s.flight
            && Acted(s, Claim) == s.(db := s.db.(queue := Dequeued(s.db.queue).0), flight := s.flight[id := Claimed])
  {
    DequeueTidy(s.db.queue);
  }

  lemma UserRefusedScript(s: State, id: JobId, job: Job)
    requires Inv(s) && s.db.queue.pending != [] && id == s.db.queue.pending[0].member
    requires id in s.db.jobs && job == s.db.jobs[id] && !Acquired(s.db.sems, UserSlot(job, id), UserLimit(job.tier)).1
    ensures RunOf(s, [Claim, TakeUser(id), Requeue(id)])
            == s.(db := s.db.(queue := Enqueued(Dequeued(s.db.queue).0, id, job.tier).0))
  {
    ClaimNext(s);
    RunThree(s, Claim, TakeUser(id), Requeue(id));
    FlightNeutral(s.flight, id, Claimed, Requeueing);
    UserRefused(s.(db := s.db.(queue := Dequeued(s.db.queue).0)), id);
  }

  lemma UserRefused(s: State, id: JobId)
    requires id in s.db.jobs && id !in s.flight
    requires var job := s.db.jobs[id]; !Acquired(s.db.sems, UserSlot(job, id), UserLimit(job.tier)).1
    ensures Acted(Acted(s.(flight := s.flight[id := Claimed]), TakeUser(id)), Requeue(id))
            == s.(db := s.db.(queue := Enqueued(s.db.queue, id, s.db.jobs[id].tier).0))
  {
    var c, d := s.(flight := s.flight[id := Claimed]), s.(flight := s.flight[id := Requeueing]);
    FlightNeutral(s.flight, id, Claimed, Requeueing);
    assert Taken(c, id, true) == d;
    assert Acted(c, TakeUser(id)) == d;
    assert Acted(d, Requeue(id)) == Put(d, id);
  }

  /** Claim and both acquires, up to the answer about the project slot. */
  lemma UserGrantedScript(s: State, id: JobId, job: Job)
    requires Inv(s) && s.db.queue.pending != [] && id == s.db.queue.pending[0].member
    requires id in s.db.jobs && job == s.db.jobs[id] && Acquired(s.db.sems, UserSlot(job, id), UserLimit(job.tier)).1
    ensures var s1 := Acquired(s.db.sems, UserSlot(job, id), UserLimit(job.tier)).0;
            var (s2, ok) := Acquired(s1, ProjectSlot(job, id), ProjectLimit(job.tier));
            RunOf(s, [Claim, TakeUser(id), TakeProject(id)])
            == s.(db := s.db.(queue := Dequeued(s.db.queue).0, sems := s2),
                  flight := s.flight[id := if ok then Building(0) else Bounced])
  {
    ClaimNext(s);
    RunThree(s, Claim, TakeUser(id), TakeProject(id));
    var d := s.(db := s.db.(queue := Dequeued(s.db.queue).0));
    UserTaken(d, id);
    var s1 := Acquired(s.db.sems, UserSlot(job, id), UserLimit(job.tier)).0;
    ProjectTaken(d.(db := d.db.(sems := s1)), id);
  }

  lemma UserTaken(s: State, id: JobId)
    requires id in s.db.jobs
    requires var job := s.db.jobs[id]; Acquired(s.db.sems, UserSlot(job, id), UserLimit(job.tier)).1
    ensures var job := s.db.jobs[id]; var s1 := Acquired(s.db.sems, UserSlot(job, id), UserLimit(job.tier)).0;
            Acted(s.(flight := s.flight[id := Claimed]), TakeUser(id))
            == s.(db := s.db.(sems := s1), flight := s.flight[id := UserHeld])
  {
    var c := s.(flight := s.flight[id := Claimed]);
    FlightNeutral(s.flight, id, Claimed, UserHeld);
    assert Acted(c, TakeUser(id)) == Taken(c, id, true);
  }

  lemma ProjectTaken(s: State, id: JobId)
    requires id in s.db.jobs
    ensures var job := s.db.jobs[id]; var (s2, ok) := Acquired(s.db.sems, ProjectSlot(job, id), ProjectLimit(job.tier));
            Acted(s.(flight := s.flight[id := UserHeld]), TakeProject(id))
            == s.(db := s.db.(sems := s2), flight := s.flight[id := if ok then Building(0) else Bounced])
  {
    var c := s.(flight := s.flight[id := UserHeld]);
    FlightNeutral(s.flight, id, UserHeld, Building(0));
    FlightNeutral(s.flight, id, UserHeld, Bounced);
    assert Acted(c, TakeProject(id)) == Taken(c, id, false);
  }

  lemma BouncedClosing(s: State, id: JobId)
    requires id in s.db.jobs && id !in s.flight
    ensures RunOf(s.(flight := s.flight[id := Bounced]), [GiveBack(id), Requeue(id)])
            == s.(db := s.db.(sems := Released(s.db.sems, UserSlot(s.db.jobs[id], id)),
                              queue := Enqueued(s.db.queue, id, s.db.jobs[id].tier).0))
  {
    var u := s.(flight := s.flight[id := Bounced]);
    RunTwo(u, GiveBack(id), Requeue(id));
    FlightNeutral(s.flight, id, Bounced, Requeueing);
    var v := UserGiven(u, id, Requeueing);
    assert Acted(u, GiveBack(id)) == v;
    assert Acted(v, Requeue(id)) == Put(v, id);
  }

  /** process_next_job on the whole state, with the row it leaves. */
  function ProcessedState(s: State, w: World): State {
    var (db, admitted) := Processed(s.db, w);
    s.(db := db, rows := if admitted && s.db.queue.pending != []
                         then Recorded(s.rows, s.db.queue.pending[0].member, w) else s.rows)
  }

  lemma RefusedScript(s: State, w: World)
    requires Inv(s) && s.db.queue.pending != [] && !Processed(s.db, w).1
    ensures RunOf(s, Script(s.db, w)) == ProcessedState(s, w)
  {
    ClaimNext(s);
    var id := s.db.queue.pending[0].member;
    var job := s.db.jobs[id];
    var (s1, gotUser) := Acquired(s.db.sems, UserSlot(job, id), UserLimit(job.tier));
    if !gotUser {
      UserRefusedScript(s, id, job);
    } else {
      var open, close := [Claim, TakeUser(id), TakeProject(id)], [GiveBack(id), Requeue(id)];
      assert Script(s.db, w) == open + close;
      RunAppend(s, open, close);
      UserGrantedScript(s, id, job);
      BouncedClosing(s.(db := s.db.(queue := Dequeued(s.db.queue).0, sems := s1)), id);
    }
  }

  lemma Closing(s: State, job: Job, id: JobId)
    requires id in s.db.jobs && s.db.jobs[id].userId == job.userId && s.db.jobs[id].projectId == job.projectId
    requires id !in s.flight
    ensures RunOf(s.(flight := s.flight[id := Releasing]), [FreeUser(id), FreeProject(id)])
            == s.(db := s.db.(sems := BothReleased(s.db.sems, job, id)))
  {
    var v := s.(flight := s.flight[id := Releasing]);
    RunTwo(v, FreeUser(id), FreeProject(id));
    FlightNeutral(s.flight, id, Releasing, HalfReleased);
    var u := UserGiven(v, id, HalfReleased);
    assert Acted(v, FreeUser(id)) == u;
    assert Acted(u, FreeProject(id)) == ProjectGiven(u, id);
  }

  /** The status is all that execution changes in the job. */
  lemma ExecutedKeepsOwner(d: Db, id: JobId, w: World)
    requires id in d.jobs && QueuedOrFailed(d.jobs[id].status)
    ensures var e := Executed(d, d.jobs[id], id, w);
            id in e.jobs && e.jobs[id].userId == d.jobs[id].userId && e.jobs[id].projectId == d.jobs[id].projectId
  {
    ExecutedSettles(d, id, w);
  }

  lemma AdmittedScript(s: State, w: World)
    requires Inv(s) && s.db.queue.pending != [] && Processed(s.db, w).1
    ensures RunOf(s, Script(s.db, w)) == ProcessedState(s, w)
  {
    ClaimNext(s);
    var id := s.db.queue.pending[0].member;
    var job := s.db.jobs[id];
    var open, close := [Claim, TakeUser(id), TakeProject(id)], [FreeUser(id), FreeProject(id)];
    assert Script(s.db, w) == open + BuildScript(id, w) + close;
    RunAppend(s, open + BuildScript(id, w), close);
    RunAppend(s, open, BuildScript(id, w));
    UserGrantedScript(s, id, job);
    AdmissionShape(s.db, w);
    var d := Admitted(s.db.(queue := Dequeued(s.db.queue).0), job, id).0;
    BuildScriptExecutes(s.(db := d, flight := s.flight[id := Building(0)]), id, w);
    FlightNeutral(s.flight, id, Building(0), Releasing);
    ExecutedKeepsOwner(d, id, w);
    Closing(s.(db := Executed(d, job, id, w), rows := Recorded(s.rows, id, w)), job, id);
  }

  /**
   process_next_job, run without interruption whatever other workers have in hand, is the
   run of the protocol its script names, the row it writes included.
   */
  lemma WholeCallIsARun(s: State, w: World)
    requires Inv(s)
    ensures RunOf(s, Script(s.db, w)) == ProcessedState(s, w)
  {
    if s.db.queue.pending == [] {
      RunOne(s, Claim);
    } else if Processed(s.db, w).1 {
      AdmittedScript(s, w);
    } else {
      RefusedScript(s, w);
    }
  }

  // ---------- A move of the re-scheduler is one of these interleavings ----------

  function MoveScript(db: Db, id: JobId): seq<Action> {
    if |db.queue.pending| < GLOBAL_QUEUE_CAP then [Promote(id), PromoteEnqueue(id)]
    else [Promote(id), PromoteEnqueue(id), RollBack(id)]
  }

  lemma PromotedShape(s: State, id: JobId)
    requires Inv(s) && id in ScheduledJobs(s.db)
    ensures id !in s.flight && id !in Jobs(s.db.queue)
    ensures Acted(s, Promote(id))
            == s.(db := s.db.(jobs := s.db.jobs[id := s.db.jobs[id].(status := Queued)]),
                  flight := s.flight[id := Promoting])
  {
  }

  lemma RolledBack(s: State, id: JobId, job: Job)
    requires id !in s.flight && job.status == Scheduled && id in s.db.jobs && s.db.jobs[id] == job.(status := Queued)
    ensures Acted(s.(flight := s.flight[id := RollingBack]), RollBack(id))
            == s.(db := s.db.(jobs := s.db.jobs[id := job]))
  {
    assert s.flight[id := RollingBack] - {id} == s.flight;
    assert s.db.jobs[id].(status := Scheduled) == job;
  }

  /** One job of process_scheduled_jobs, moved without interruption, is a run of the protocol. */
  lemma WholeMoveIsARun(s: State, id: JobId)
    requires Inv(s) && id in ScheduledJobs(s.db)
    ensures RunOf(s, MoveScript(s.db, id)) == s.(db := Scheduler.Moved(s.db, id).0)
  {
    PromotedShape(s, id);
    if |s.db.queue.pending| < GLOBAL_QUEUE_CAP {
      RunTwo(s, Promote(id), PromoteEnqueue(id));
      MovedIn(s, id);
    } else {
      RunThree(s, Promote(id), PromoteEnqueue(id), RollBack(id));
      MovedNowhere(s, id);
    }
  }

  lemma MovedIn(s: State, id: JobId)
    requires Inv(s) && id in ScheduledJobs(s.db) && |s.db.queue.pending| < GLOBAL_QUEUE_CAP
    ensures Acted(Acted(s, Promote(id)), PromoteEnqueue(id)) == s.(db := Scheduler.Moved(s.db, id).0)
  {
    PromotedShape(s, id);
    PromotePutCases(Acted(s, Promote(id)), id);
    FlightNeutral(s.flight, id, Promoting, Promoting);
  }

  lemma MovedNowhere(s: State, id: JobId)
    requires Inv(s) && id in ScheduledJobs(s.db) && |s.db.queue.pending| == GLOBAL_QUEUE_CAP
    ensures Acted(Acted(Acted(s, Promote(id)), PromoteEnqueue(id)), RollBack(id))
            == s.(db := Scheduler.Moved(s.db, id).0)
  {
    PromotedShape(s, id);
    var u, job := Acted(s, Promote(id)), s.db.jobs[id];
    PromotePutCases(u, id);
    var _ := MovedCases(s.db, id);
    FlightNeutral(s.flight, id, Promoting, RollingBack);
    RolledBack(u.(flight := s.flight), id, job);
    assert u.db.jobs[id := job] == s.db.jobs;
  }

  // ---------- What whole calls lose ----------

  datatype Call =
    | Submit(id: JobId, userId: string, projectId: string, tier: string, overLimit: bool)
    | Generate(id: JobId, userId: string, projectId: string)
    | Cancel(id: JobId, userId: string)
    | Process(world: World)
    | Reschedule(ids: seq<JobId>)

  /** The state after a call, with the same jobs in hand; the id of a new job is fresh. */
  function Called(s: State, c: Call): State {
    match c
    case Submit(id, user, project, tier, overLimit) =>
      if id in s.db.jobs then s else s.(db := Submitted(s.db, id, user, project, tier, overLimit))
    case Generate(id, user, project) =>
      if id in s.db.jobs then s else s.(db := Generated(s.db, id, user, project))
    case Cancel(id, user) => s.(db := Cancelled(s.db, id, user))
    case Process(w) => ProcessedState(s, w)
    case Reschedule(ids) => s.(db := MovedAll(s.db, ids).0)
  }

  function CallRun(s: State, calls: seq<Call>): State
    decreases |calls|
  {
    if calls == [] then s else CallRun(Called(s, calls[0]), calls[1..])
  }

  /** A generation that meets a full queue loses its job, and so does a build that is interrupted. */
  function CallLoss(s: State, c: Call): set<JobId> {
    match c
    case Generate(id, _, _) => if id !in s.db.jobs && |s.db.queue.pending| >= GLOBAL_QUEUE_CAP then {id} else {}
    case Process(w) =>
      if Processed(s.db, w).1 && s.db.queue.pending != [] && Interrupts(w.fate)
         && Unsettled(s, s.db.queue.pending[0].member)
      then {s.db.queue.pending[0].member} else {}
    case _ => {}
  }

  /** The job a user's cancellation settles. */
  function CallSave(s: State, c: Call): set<JobId> {
    match c
    case Cancel(id, user) => if CancelAnswer(s.db, id, user).Ok? && Unsettled(s, id) then {id} else {}
    case _ => {}
  }

  function CallLosses(s: State, calls: seq<Call>): set<JobId>
    decreases |calls|
  {
    if calls == [] then {} else CallLoss(s, calls[0]) + CallLosses(Called(s, calls[0]), calls[1..])
  }

  function CallSaves(s: State, calls: seq<Call>): set<JobId>
    decreases |calls|
  {
    if calls == [] then {} else CallSave(s, calls[0]) + CallSaves(Called(s, calls[0]), calls[1..])
  }

  ghost predicate CallFits(s: State, c: Call) {
    Fits(s, Called(s, c), CallLoss(s, c), CallSave(s, c))
  }

  /** A job created by a request, and what becomes of it when nobody interrupts. */
  lemma CreatedShape(s: State, a: Action)
    requires Inv(s) && a.Create? && a.id !in s.db.jobs
    ensures a.id !in s.flight && s.flight[a.id := Submitting] - {a.id} == s.flight
    ensures Acted(s, a) == s.(db := s.db.(jobs := s.db.jobs[a.id := Job(Queued, a.userId, a.projectId, a.tier)]),
                              flight := s.flight[a.id := Submitting])
    ensures Loss(s, a) == {} == Aborted(s, a)
  {
  }

  lemma CreateThenEnqueue(s: State, a: Action)
    requires Inv(s) && a.Create? && a.id !in s.db.jobs
    ensures var created := s.db.jobs[a.id := Job(Queued, a.userId, a.projectId, a.tier)];
            Fits(s, s.(db := s.db.(jobs := created, queue := Enqueued(s.db.queue, a.id, a.tier).0)),
                 if |s.db.queue.pending| < GLOBAL_QUEUE_CAP then {} else {a.id}, {})
  {
    CreatedShape(s, a);
    CreateFits(s, a);
    var t := Acted(s, a);
    PutFits(t, a.id);
    FitsThen(s, t, Put(t, a.id), {}, {}, PutLoss(t, a.id), {});
  }

  lemma CreateThenDefer(s: State, a: Action)
    requires Inv(s) && a.Create? && a.id !in s.db.jobs
    ensures var created := s.db.jobs[a.id := Job(Queued, a.userId, a.projectId, a.tier)];
            Fits(s, s.(db := s.db.(jobs := Transitioned(created, a.id, Scheduled).0)), {}, {})
  {
    CreatedShape(s, a);
    CreateFits(s, a);
    var t := Acted(s, a);
    SetAsideFits(t, a.id);
    FitsThen(s, t, SetAside(t, a.id), {}, {}, {}, {});
  }

  lemma RequestFits(s: State, c: Call)
    requires Inv(s) && (c.Submit? || c.Generate?)
    ensures CallFits(s, c)
  {
    NothingFits(s);
    if c.id !in s.db.jobs {
      var a := Create(c.id, c.userId, c.projectId, if c.Submit? then c.tier else "bootstrapper");
      if c.Submit? && c.overLimit { CreateThenDefer(s, a); } else { CreateThenEnqueue(s, a); }
    }
  }

  lemma CancelFits(s: State, c: Call)
    requires Inv(s) && c.Cancel?
    ensures CallFits(s, c)
  {
    NothingFits(s);
    if CancelAnswer(s.db, c.id, c.userId).Ok? {
      if Unsettled(s, c.id) { AbortFits(s, c.id); } else { AbortRefused(s, c.id); }
    }
  }

  /** A job out of the queue, settled or left half-done; nobody else is touched. */
  lemma TakenOut(s: State, t: State, id: JobId)
    requires Inv(s) && Inv(t) && t.flight == s.flight && id in Jobs(s.db.queue) && id in t.db.jobs
    requires t.db.jobs == s.db.jobs[id := t.db.jobs[id]] && Jobs(t.db.queue) == Jobs(s.db.queue) - {id}
    requires t.db.jobs[id].status != Scheduled
    ensures Fits(s, t, if Terminal(t.db.jobs[id].status) then {} else {id}, {})
  {
  }

  lemma PutBack(s: State, t: State)
    requires Inv(s) && Inv(t) && t.flight == s.flight
    requires t.db.jobs == s.db.jobs && Jobs(t.db.queue) == Jobs(s.db.queue)
    ensures Fits(s, t, {}, {})
  {
  }

  lemma EndStatusCases(from: JobStatus, fate: Fate)
    requires QueuedOrFailed(from)
    ensures EndStatus(from, fate) != Scheduled
    ensures Terminal(EndStatus(from, fate)) <==> from == Failed || !Interrupts(fate)
  {
  }

  lemma AdmittedFits(s: State, w: World)
    requires Inv(s) && Processed(s.db, w).1 && Inv(ProcessedState(s, w))
    ensures CallFits(s, Process(w))
  {
    AdmissionShape(s.db, w);
    ClaimNext(s);
    var id := s.db.queue.pending[0].member;
    DequeueTidy(s.db.queue);
    AdmittedJobIsSettled(s.db, w);
    EndStatusCases(s.db.jobs[id].status, w.fate);
    TakenOut(s, ProcessedState(s, w), id);
  }

  lemma RefusedFits(s: State, w: World)
    requires Inv(s) && s.db.queue.pending != [] && !Processed(s.db, w).1 && Inv(ProcessedState(s, w))
    ensures Fits(s, ProcessedState(s, w), {}, {})
  {
    ClaimNext(s);
    var id := s.db.queue.pending[0].member;
    RefusalShape(s.db, w);
    DequeueTidy(s.db.queue);
    EnqueueTidy(Dequeued(s.db.queue).0, id, s.db.jobs[id].tier);
    PutBack(s, ProcessedState(s, w));
  }

  lemma ProcessFits(s: State, w: World)
    requires Inv(s)
    ensures CallFits(s, Process(w))
  {
    WholeCallIsARun(s, w);
    LostExactlyWhenDropped(s, Script(s.db, w));
    NothingFits(s);
    if s.db.queue.pending != [] {
      if Processed(s.db, w).1 { AdmittedFits(s, w); } else { RefusedFits(s, w); }
    } else {
      assert ProcessedState(s, w) == s;
    }
  }

  lemma MoveFits(s: State, id: JobId)
    requires Inv(s)
    ensures Fits(s, s.(db := Scheduler.Moved(s.db, id).0), {}, {})
  {
    NothingFits(s);
    if id in ScheduledJobs(s.db) {
      WholeMoveIsARun(s, id);
      LostExactlyWhenDropped(s, MoveScript(s.db, id));
      MoveDropsNothing(s, id);
    } else {
      assert Scheduler.Moved(s.db, id).0 == s.db;
    }
  }

  predicate Moving(a: Action) {
    a.Promote? || a.PromoteEnqueue? || a.RollBack?
  }

  lemma {:induction false} MovingDropsNothing(s: State, actions: seq<Action>)
    requires forall a :: a in actions ==> Moving(a)
    ensures Losses(s, actions) == {} == Aborts(s, actions)
    decreases |actions|
  {
    if actions != [] {
      assert actions[0] in actions;
      MovingDropsNothing(Acted(s, actions[0]), actions[1..]);
    }
  }

  lemma MoveDropsNothing(s: State, id: JobId)
    ensures Losses(s, MoveScript(s.db, id)) == {} == Aborts(s, MoveScript(s.db, id))
  {
    MovingDropsNothing(s, MoveScript(s.db, id));
  }

  lemma {:induction false} RescheduleFits(s: State, ids: seq<JobId>)
    requires Inv(s)
    ensures Fits(s, s.(db := MovedAll(s.db, ids).0), {}, {})
  {
    if ids == [] {
      NothingFits(s);
    } else {
      var before := ids[..|ids| - 1];
      RescheduleFits(s, before);
      var t := s.(db := MovedAll(s.db, before).0);
      MoveFits(t, ids[|ids| - 1]);
      FitsThen(s, t, s.(db := MovedAll(s.db, ids).0), {}, {}, {}, {});
    }
  }

  /** What one uninterrupted call loses and saves, whatever stalled or crashed processes keep in hand. */
  lemma CallLosesExactly(s: State, c: Call)
    requires Inv(s)
    ensures CallFits(s, c)
  {
    match c
    case Submit(_, _, _, _, _) => RequestFits(s, c);
    case Generate(_, _, _) => RequestFits(s, c);
    case Cancel(_, _) => CancelFits(s, c);
    case Process(w) => ProcessFits(s, w);
    case Reschedule(ids) => RescheduleFits(s, ids);
  }

  // ---------- Runs of whole calls ----------

  lemma {:induction false} MovedKeepsSettled(db: Db, ids: seq<JobId>, id: JobId)
    requires id in db.jobs && Terminal(db.jobs[id].status)
    ensures var after := MovedAll(db, ids).0; id in after.jobs && after.jobs[id] == db.jobs[id]
  {
    if ids != [] { MovedKeepsSettled(db, ids[..|ids| - 1], id); }
  }

  lemma CallKeepsSettled(s: State, c: Call, id: JobId)
    requires Inv(s) && id in s.db.jobs && Terminal(s.db.jobs[id].status)
    ensures var t := Called(s, c); id in t.db.jobs && Terminal(t.db.jobs[id].status)
    ensures id !in CallLoss(s, c)
  {
    match c
    case Process(w) =>
      WholeCallIsARun(s, w);
      RunGrows(s, Script(s.db, w));
    case Reschedule(ids) => MovedKeepsSettled(s.db, ids, id);
    case _ =>
  }

  lemma {:induction false} SettledIsSafeFromCalls(s: State, calls: seq<Call>, id: JobId)
    requires Inv(s) && id in s.db.jobs && Terminal(s.db.jobs[id].status)
    ensures id !in CallLosses(s, calls)
    decreases |calls|
  {
    if calls != [] {
      CallKeepsSettled(s, calls[0], id);
      CallLosesExactly(s, calls[0]);
      SettledIsSafeFromCalls(Called(s, calls[0]), calls[1..], id);
    }
  }

  lemma SaveSettles(s: State, c: Call, id: JobId)
    requires id in CallSave(s, c)
    ensures var t := Called(s, c); id in t.db.jobs && Terminal(t.db.jobs[id].status)
  {
    assert Failed in Successors(s.db.jobs[id].status);
  }

  /**
   Over any run of uninterrupted calls the jobs lost are exactly those of generations that met
   a full queue and of interrupted builds, except those their users cancelled.
   */
  lemma {:induction false} WholeCallsLoseExactly(s: State, calls: seq<Call>)
    requires Inv(s)
    ensures Fits(s, CallRun(s, calls), CallLosses(s, calls), CallSaves(s, calls))
    decreases |calls|
  {
    if calls == [] {
      NothingFits(s);
    } else {
      var c, t := calls[0], Called(s, calls[0]);
      CallLosesExactly(s, c);
      WholeCallsLoseExactly(t, calls[1..]);
      forall id | id in CallSave(s, c) ensures id !in CallLosses(t, calls[1..]) {
        SaveSettles(s, c, id);
        SettledIsSafeFromCalls(t, calls[1..], id);
      }
      FitsThen(s, t, CallRun(t, calls[1..]), CallLoss(s, c), CallSave(s, c),
               CallLosses(t, calls[1..]), CallSaves(t, calls[1..]));
    }
  }

  predicate Harmless(c: Call) {
    !c.Generate? && (c.Process? ==> !Interrupts(c.world.fate))
  }

  lemma {:induction false} HarmlessCalls(s: State, calls: seq<Call>)
    requires forall c :: c in calls ==> Harmless(c)
    ensures CallLosses(s, calls) == {}
    decreases |calls|
  {
    if calls != [] {
      assert calls[0] in calls;
      HarmlessCalls(Called(s, calls[0]), calls[1..]);
    }
  }

  /**
   Without generations and interruptions, runs of uninterrupted calls lose nothing: every job
   not lost before is waiting, withdrawn, put away, in hand, or finished and out of every slot
   set.
   */
  lemma WholeCallsLoseNothing(s: State, calls: seq<Call>)
    requires Inv(s) && forall c :: c in calls ==> Harmless(c)
    ensures Fits(s, CallRun(s, calls), {}, CallSaves(s, calls))
    ensures var t := CallRun(s, calls);
            forall id :: id in t.db.jobs && !Lost(s, id) ==>
              Waiting(t, id) || Withdrawn(t, id) || PutAway(t, id) || id in t.flight || Finished(t, id)
  {
    WholeCallsLoseExactly(s, calls);
    HarmlessCalls(s, calls);
    var t := CallRun(s, calls);
    forall id | id in t.db.jobs && !Lost(s, id)
      ensures Waiting(t, id) || Withdrawn(t, id) || PutAway(t, id) || id in t.flight || Finished(t, id)
    {
      OnePlace(t, id);
    }
  }

  /** The generation route, run alone from any sound state, loses its job iff it meets a full queue. */
  lemma GenerationLosesIff(s: State, id: JobId, userId: string, projectId: string)
    requires Inv(s) && id !in s.db.jobs
    ensures Stranded(Called(s, Generate(id, userId, projectId)), id) <==> |s.db.queue.pending| == GLOBAL_QUEUE_CAP
  {
    CallLosesExactly(s, Generate(id, userId, projectId));
    assert id !in s.flight && id !in Jobs(s.db.queue);
    assert !Lost(s, id);
  }
}
