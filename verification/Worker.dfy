/**
 process_next_job as one step: take the first job, take a user slot and a project slot,
 build, settle the terminal status, record it, and give both slots back on every path.
 */
module Worker {
  import opened Common
  import opened QueueSchemas
  import opened RedisStore
  import opened JobQueue
  import opened Semaphores
  import opened JobLifecycle
  import opened GenerationPipeline

  /**
   An exception after the READY transition, before or after the row is written. An interruption
   there writes no row, like a table that is down.
   */
  datatype LateFault = NoLateFault | BeforePersist | AfterPersist

  /** What the world decides during one call. */
  datatype World = World(hasRunner: bool, fate: Fate, late: LateFault, tableUp: bool)

  /** The Postgres jobs table: one row per job, written with the terminal status. */
  class JobTable {
    var rows: map<JobId, JobStatus>

    constructor ()
      ensures rows == map[]
    {
      rows := map[];
    }

    /** A failing insert, a duplicate key included, is logged and swallowed. */
    method Persist(id: JobId, status: JobStatus, up: bool)
      modifies this
      ensures rows == Persisted(old(rows), id, status, up)
      ensures forall other :: other in old(rows) ==> other in rows && rows[other] == old(rows)[other]
      ensures !up ==> rows == old(rows)
      ensures up ==> id in rows && (id !in old(rows) ==> rows[id] == status)
    {
      if up && id !in rows {
        rows := rows[id := status];
      }
    }
  }

  function Persisted(rows: map<JobId, JobStatus>, id: JobId, status: JobStatus, up: bool): map<JobId, JobStatus> {
    if up && id !in rows then rows[id := status] else rows
  }

  datatype Write = Write(id: JobId, status: JobStatus, up: bool)

  function PersistedAll(rows: map<JobId, JobStatus>, writes: seq<Write>): map<JobId, JobStatus>
    decreases |writes|
  {
    if writes == [] then rows
    else PersistedAll(Persisted(rows, writes[0].id, writes[0].status, writes[0].up), writes[1..])
  }

  /** The status of the first write of a job that reached the table. */
  function FirstWritten(writes: seq<Write>, id: JobId): Option<JobStatus> {
    if writes == [] then None
    else if writes[0].id == id && writes[0].up then Some(writes[0].status)
    else FirstWritten(writes[1..], id)
  }

  /** Over any writes of any workers: a row never changes, and a new one holds the first status that got through. */
  lemma {:induction false} FirstWriteWins(rows: map<JobId, JobStatus>, writes: seq<Write>, id: JobId)
    ensures var after := PersistedAll(rows, writes);
            if id in rows then id in after && after[id] == rows[id]
            else (if id in after then Some(after[id]) else None) == FirstWritten(writes, id)
    decreases |writes|
  {
    if writes != [] {
      FirstWriteWins(Persisted(rows, writes[0].id, writes[0].status, writes[0].up), writes[1..], id);
    }
  }

  // ---------- The call on values ----------

  function UserSlot(job: Job, id: JobId): Slot {
    Slot(UserKey(job.userId), id)
  }

  function ProjectSlot(job: Job, id: JobId): Slot {
    Slot(ProjectKey(job.projectId), id)
  }

  function BothRefreshed(s: Leases, job: Job, id: JobId): Leases {
    Refreshed(Refreshed(s, UserSlot(job, id)), ProjectSlot(job, id))
  }

  /** The simulated build: the same transitions, and after each but the first both leases are extended. */
  function Simulated(db: Db, job: Job, id: JobId, n: nat): Db
    requires n <= |STAGES|
  {
    if n == 0 then db
    else
      var d := Simulated(db, job, id, n - 1);
      var d' := d.(jobs := Transitioned(d.jobs, id, STAGES[n - 1]).0);
      if n == 1 then d' else d'.(sems := BothRefreshed(d'.sems, job, id))
  }

  /** From both slots held to the terminal status, or to where an interruption leaves the job. */
  function Executed(db: Db, job: Job, id: JobId, w: World): Db {
    var n := Reached(w.fate);
    var d := if w.hasRunner then db.(jobs := Staged(db.jobs, id, n)) else Simulated(db, job, id, n);
    if Interrupts(w.fate) then d
    else if Raises(w.fate) then d.(jobs := Transitioned(d.jobs, id, Failed).0)
    else
      var ready := Transitioned(d.jobs, id, Ready).0;
      d.(jobs := if w.late.NoLateFault? then ready else Transitioned(ready, id, Failed).0)
  }

  function Recorded(rows: map<JobId, JobStatus>, id: JobId, w: World): map<JobId, JobStatus> {
    if Interrupts(w.fate) then rows
    else if Raises(w.fate) || w.late.BeforePersist? then Persisted(rows, id, Failed, w.tableUp)
    else if w.late.NoLateFault? then Persisted(rows, id, Ready, w.tableUp)
    else Persisted(Persisted(rows, id, Ready, w.tableUp), id, Failed, w.tableUp)
  }

  /** Both slots taken, or the store as the refusal leaves it. */
  function Admitted(db: Db, job: Job, id: JobId): (Db, bool) {
    var (s1, gotUser) := Acquired(db.sems, UserSlot(job, id), UserLimit(job.tier));
    if !gotUser then (db.(sems := s1, queue := Enqueued(db.queue, id, job.tier).0), false)
    else
      var (s2, gotProject) := Acquired(s1, ProjectSlot(job, id), ProjectLimit(job.tier));
      if gotProject then (db.(sems := s2), true)
      else (db.(sems := Released(s2, UserSlot(job, id)), queue := Enqueued(db.queue, id, job.tier).0), false)
  }

  function BothReleased(s: Leases, job: Job, id: JobId): Leases {
    Released(Released(s, UserSlot(job, id)), ProjectSlot(job, id))
  }

  function Processed(db: Db, w: World): (Db, bool) {
    var (queue, popped) := Dequeued(db.queue);
    if popped.None? || popped.value !in db.jobs then (db.(queue := queue), false)
    else
      var id := popped.value;
      var job := db.jobs[id];
      var (d, ok) := Admitted(db.(queue := queue), job, id);
      if !ok then (d, false)
      else
        var e := Executed(d, job, id, w);
        (e.(sems := BothReleased(e.sems, job, id)), true)
  }

  // ---------- Properties of one call ----------

  lemma {:induction false} SimulatedIsStaged(db: Db, job: Job, id: JobId, n: nat)
    requires n <= |STAGES|
    ensures Simulated(db, job, id, n).jobs == Staged(db.jobs, id, n)
    ensures Simulated(db, job, id, n).queue == db.queue
    ensures Simulated(db, job, id, n).sems.slots == db.sems.slots
  {
    if n > 0 { SimulatedIsStaged(db, job, id, n - 1); }
  }

  /** With or without a runner, a build makes the same status changes and leaves queue and slot sets alone. */
  lemma ExecutedShape(db: Db, job: Job, id: JobId, w: World)
    ensures var e := Executed(db, job, id, w); var built := Built(db.jobs, id, w.fate);
            && e.queue == db.queue && e.sems.slots == db.sems.slots
            && e.jobs == (if Raises(w.fate) || Interrupts(w.fate) then built
                          else if w.late.NoLateFault? then Transitioned(built, id, Ready).0
                          else Transitioned(Transitioned(built, id, Ready).0, id, Failed).0)
  {
    SimulatedIsStaged(db, job, id, Reached(w.fate));
  }

  /** The slot sets after a call are the slot sets before it, for every job and on every path. */
  lemma SlotsAreConserved(db: Db, w: World)
    ensures Processed(db, w).0.sems.slots == db.sems.slots
  {
    var (queue, popped) := Dequeued(db.queue);
    if popped.Some? && popped.value in db.jobs {
      var id := popped.value;
      var job := db.jobs[id];
      var (d, ok) := Admitted(db.(queue := queue), job, id);
      if ok {
        ExecutedShape(d, job, id, w);
        assert UserSlot(job, id) !in db.sems.slots && ProjectSlot(job, id) !in db.sems.slots;
        assert d.sems.slots == db.sems.slots + {UserSlot(job, id)} + {ProjectSlot(job, id)};
      }
    }
  }

  /** An admitted job is taken out of the queue and executed; the slot sets aside, that is all. */
  lemma AdmissionShape(db: Db, w: World)
    requires Processed(db, w).1
    ensures db.queue.pending != [] && db.queue.pending[0].member in db.jobs
    ensures var id := db.queue.pending[0].member; var after := Processed(db, w).0;
            var d := Admitted(db.(queue := Dequeued(db.queue).0), db.jobs[id], id).0;
            && d.jobs == db.jobs && d.queue == Dequeued(db.queue).0
            && after.jobs == Executed(d, db.jobs[id], id, w).jobs
            && after.queue == Executed(d, db.jobs[id], id, w).queue
  {
  }

  /** A job its user has cancelled stays FAILED, whatever its build does. */
  function EndStatus(from: JobStatus, fate: Fate): JobStatus {
    if from == Failed || Raises(fate) then Failed else if Interrupts(fate) then StatusAfter(fate.stages) else Ready
  }

  predicate QueuedOrFailed(status: JobStatus) {
    status == Queued || status == Failed
  }

  lemma ExecutedSettles(db: Db, id: JobId, w: World)
    requires id in db.jobs && QueuedOrFailed(db.jobs[id].status)
    ensures var e := Executed(db, db.jobs[id], id, w); var job := db.jobs[id];
            e.queue == db.queue && e.jobs == db.jobs[id := job.(status := EndStatus(job.status, w.fate))]
  {
    if db.jobs[id].status == Queued { ExecutedFromQueued(db, id, w); } else { ExecutedInVain(db, id, w); }
  }

  lemma ExecutedFromQueued(db: Db, id: JobId, w: World)
    requires id in db.jobs && db.jobs[id].status == Queued
    ensures var e := Executed(db, db.jobs[id], id, w);
            e.queue == db.queue && e.jobs == db.jobs[id := db.jobs[id].(status := EndStatus(Queued, w.fate))]
  {
    ExecutedShape(db, db.jobs[id], id, w);
    BuiltFromQueued(db.jobs, id, w.fate);
  }

  lemma ExecutedInVain(db: Db, id: JobId, w: World)
    requires id in db.jobs && Terminal(db.jobs[id].status)
    ensures var e := Executed(db, db.jobs[id], id, w); e.queue == db.queue && e.jobs == db.jobs
    ensures db.jobs[id := db.jobs[id].(status := db.jobs[id].status)] == db.jobs
  {
    ExecutedShape(db, db.jobs[id], id, w);
    StagedFromTerminal(db.jobs, id, Reached(w.fate));
  }

  /**
   A job that is admitted leaves the queue. A queued one ends READY, or FAILED when its build
   raised, or where it had got to when its build was interrupted; one that its user cancelled
   while it was queued is built all the same and stays FAILED.
   */
  lemma AdmittedJobIsSettled(db: Db, w: World)
    requires Tidy(db.queue) && Processed(db, w).1
    requires QueuedOrFailed(db.jobs[db.queue.pending[0].member].status)
    ensures var id := db.queue.pending[0].member; var (after, _) := Processed(db, w); var job := db.jobs[id];
            && after.jobs == db.jobs[id := job.(status := EndStatus(job.status, w.fate))]
            && Jobs(after.queue) == Jobs(db.queue) - {id}
  {
    AdmissionShape(db, w);
    DequeueTidy(db.queue);
    var id := db.queue.pending[0].member;
    ExecutedSettles(Admitted(db.(queue := Dequeued(db.queue).0), db.jobs[id], id).0, id, w);
  }

  /** A refusal changes nothing but the queue, where the job is enqueued again. */
  lemma RefusalShape(db: Db, w: World)
    requires db.queue.pending != [] && db.queue.pending[0].member in db.jobs && !Processed(db, w).1
    ensures var id := db.queue.pending[0].member; var after := Processed(db, w).0;
            && after.jobs == db.jobs
            && after.queue == Enqueued(Dequeued(db.queue).0, id, db.jobs[id].tier).0
  {
  }

  /**
   A refused job goes back into the queue, at the end of the lane of its tier, and nothing
   else about it changes: its own dequeue freed the place it needs.
   */
  lemma RefusedJobGoesToTheBack(db: Db, w: World)
    requires Ranked(db.queue) && db.queue.counter < COUNTER_LIMIT
    requires db.queue.pending != [] && db.queue.pending[0].member in db.jobs && !Processed(db, w).1
    ensures var id := db.queue.pending[0].member; var after := Processed(db, w).0;
            && after.jobs == db.jobs
            && Jobs(after.queue) == Jobs(db.queue) && |after.queue.pending| == |db.queue.pending|
            && LanesOf(after.queue)
               == LaneAppend(LaneRemove(LanePop(LanesOf(db.queue)), id), id, db.jobs[id].tier)
  {
    RefusalShape(db, w);
    var id := db.queue.pending[0].member;
    BackOfTheLane(db.queue, id, db.jobs[id].tier);
  }

  lemma BackOfTheLane(q: Queue, id: JobId, tier: string)
    requires Ranked(q) && q.counter < COUNTER_LIMIT && q.pending != [] && id == q.pending[0].member
    ensures var q' := Enqueued(Dequeued(q).0, id, tier).0;
            && Jobs(q') == Jobs(q) && |q'.pending| == |q.pending|
            && LanesOf(q') == LaneAppend(LaneRemove(LanePop(LanesOf(q)), id), id, tier)
  {
    DequeueTidy(q);
    DequeueRanked(q);
    EnqueueTidy(Dequeued(q).0, id, tier);
    EnqueueRanked(Dequeued(q).0, id, tier);
  }

  /**
   Is there a row for an admitted job, with the status the job hash ends with? For a job that
   has no row yet: exactly if the table took the write, the build was not interrupted, and
   either it raised, or the job was still queued, not cancelled by its user, exactly if no
   exception struck between the READY transition and the write.
   */
  lemma StoresAgreeIff(db: Db, rows: map<JobId, JobStatus>, w: World)
    requires Tidy(db.queue) && Processed(db, w).1
    requires var id := db.queue.pending[0].member; QueuedOrFailed(db.jobs[id].status) && id !in rows
    ensures var id := db.queue.pending[0].member; var rows' := Recorded(rows, id, w);
            && id in Processed(db, w).0.jobs
            && (id in rows' && rows'[id] == Processed(db, w).0.jobs[id].status
                <==> && w.tableUp && !Interrupts(w.fate)
                     && (Raises(w.fate) || (db.jobs[id].status == Queued <==> !w.late.BeforePersist?)))
  {
    AdmittedJobIsSettled(db, w);
  }

  /** The witness without any fault: a job cancelled in the queue is recorded READY. */
  lemma CancelledJobIsRecordedReady(db: Db, rows: map<JobId, JobStatus>, hasRunner: bool)
    requires Tidy(db.queue) && Processed(db, World(hasRunner, Completes, NoLateFault, true)).1
    requires var id := db.queue.pending[0].member; db.jobs[id].status == Failed && id !in rows
    ensures var id := db.queue.pending[0].member; var w := World(hasRunner, Completes, NoLateFault, true);
            && id in Processed(db, w).0.jobs && Processed(db, w).0.jobs[id].status == Failed
            && Recorded(rows, id, w) == rows[id := Ready]
  {
    AdmittedJobIsSettled(db, World(hasRunner, Completes, NoLateFault, true));
  }

  // ---------- The call over Redis ----------

  method ProcessNextJob(redis: Redis, table: JobTable, w: World) returns (processed: bool, interrupted: bool)
    requires table as object != redis
    modifies redis, table
    ensures processed || interrupted <==> Processed(old(redis.db), w).1
    ensures interrupted <==> Processed(old(redis.db), w).1 && Interrupts(w.fate)
    ensures !(processed && interrupted)
    ensures redis.db == Processed(old(redis.db), w).0
    ensures redis.db.sems.slots == old(redis.db).sems.slots
    ensures table.rows == if !Processed(old(redis.db), w).1 then old(table.rows)
                          else Recorded(old(table.rows), old(redis.db).queue.pending[0].member, w)
  {
    ghost var db := redis.db;
    SlotsAreConserved(db, w);
    var queue := new QueueManager(redis);
    var machine := new JobStateMachine(redis);

    var popped := queue.Dequeue();
    if popped.None? {
      return false, false;
    }
    var id := popped.value;
    var found := machine.GetJob(id);
    if found.None? {
      return false, false;
    }
    var job := found.value;

    var userSem := UserSemaphore(redis, job.userId, job.tier);
    var projectSem := ProjectSemaphore(redis, job.projectId, job.tier);

    var userAcquired := userSem.Acquire(id);
    if !userAcquired {
      var _ := queue.Enqueue(id, job.tier);
      return false, false;
    }
    var projectAcquired := projectSem.Acquire(id);
    if !projectAcquired {
      userSem.Release(id);
      var _ := queue.Enqueue(id, job.tier);
      return false, false;
    }

    interrupted := Execute(redis, table, machine, userSem, projectSem, job, id, w);
    userSem.Release(id);
    projectSem.Release(id);
    return !interrupted, interrupted;
  }

  /** The try statement, with its except clause, which an interruption passes by. */
  method Execute(redis: Redis, table: JobTable, machine: JobStateMachine,
                 userSem: RedisSemaphore, projectSem: RedisSemaphore, job: Job, id: JobId, w: World)
    returns (interrupted: bool)
    requires table as object != redis && machine.redis == redis
    requires userSem.redis == redis && userSem.key == UserKey(job.userId)
    requires projectSem.redis == redis && projectSem.key == ProjectKey(job.projectId)
    modifies redis, table
    ensures interrupted <==> Interrupts(w.fate)
    ensures redis.db == Executed(old(redis.db), job, id, w)
    ensures table.rows == Recorded(old(table.rows), id, w)
  {
    var end: Ending;
    var tagged := false;
    if w.hasRunner {
      var service := new GenerationService(machine);
      end := service.ExecuteBuild(id, w.fate);
      tagged := end == Raised;
    } else {
      end := Simulate(redis, machine, userSem, projectSem, job, id, w.fate);
    }
    if end == Interrupted {
      return true;
    }
    var raised := end == Raised;
    if !raised {
      var _ := machine.Transition(id, Ready);
      if w.late.BeforePersist? {
        raised := true;
      } else {
        table.Persist(id, Ready, w.tableUp);
        raised := w.late.AfterPersist?;
      }
    }
    if raised {
      if !tagged {
        var _ := machine.Transition(id, Failed);
      }
      table.Persist(id, Failed, w.tableUp);
    }
    return false;
  }

  /** The loop used when no runner is injected. */
  method Simulate(redis: Redis, machine: JobStateMachine, userSem: RedisSemaphore, projectSem: RedisSemaphore,
                  job: Job, id: JobId, fate: Fate) returns (end: Ending)
    requires machine.redis == redis
    requires userSem.redis == redis && userSem.key == UserKey(job.userId)
    requires projectSem.redis == redis && projectSem.key == ProjectKey(job.projectId)
    modifies redis
    ensures end == EndingOf(fate)
    ensures redis.db == Simulated(old(redis.db), job, id, Reached(fate))
  {
    if Stops(fate, 0) { return EndingOf(fate); }
    var _ := machine.Transition(id, Starting);
    if Stops(fate, 1) { return EndingOf(fate); }
    for i := 1 to |STAGES|
      invariant !fate.Completes? ==> fate.stages > i
      invariant redis.db == Simulated(old(redis.db), job, id, i)
    {
      var _ := machine.Transition(id, STAGES[i]);
      userSem.Heartbeat(id);
      projectSem.Heartbeat(id);
      if Stops(fate, i + 1) { return EndingOf(fate); }
    }
    return Returned;
  }
}
