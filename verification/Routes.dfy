/** The API routes that create, start and cancel jobs. A new job's id is a fresh UUID. */
module Routes {
  import opened Common
  import opened QueueSchemas
  import opened RedisStore
  import opened JobQueue
  import opened JobLifecycle

  /**
   The submission route puts a job off to the next day when the daily limit is reached, and
   answers 503 without creating anything when the queue is full.
   */
  function Submitted(db: Db, id: JobId, userId: string, projectId: string, tier: string, overLimit: bool): Db {
    var created := db.(jobs := db.jobs[id := Job(Queued, userId, projectId, tier)]);
    if overLimit then created.(jobs := Transitioned(created.jobs, id, Scheduled).0)
    else if |db.queue.pending| >= GLOBAL_QUEUE_CAP then db
    else created.(queue := Enqueued(db.queue, id, tier).0)
  }

  /** The generation route creates its job first and does not look at the answer of enqueue. */
  function Generated(db: Db, id: JobId, userId: string, projectId: string): Db {
    db.(jobs := db.jobs[id := Job(Queued, userId, projectId, "bootstrapper")],
        queue := Enqueued(db.queue, id, "bootstrapper").0)
  }

  /** Only the job `id` differs, and it is new. */
  predicate Adds(before: Db, after: Db, id: JobId, job: Job) {
    after.jobs == before.jobs[id := job] && after.sems == before.sems
  }

  /** The job is new at the end of the lane of its tier. */
  ghost predicate JoinsLane(before: Db, after: Db, id: JobId, tier: string) {
    && Jobs(after.queue) == Jobs(before.queue) + {id}
    && LanesOf(after.queue) == LaneAppend(LaneRemove(LanesOf(before.queue), id), id, tier)
  }

  /** A submitted job is put off over the limit, queued when there is room, and otherwise never existed. */
  lemma SubmissionSays(db: Db, id: JobId, userId: string, projectId: string, tier: string, overLimit: bool)
    requires Ranked(db.queue) && db.queue.counter < COUNTER_LIMIT
    ensures var after, full := Submitted(db, id, userId, projectId, tier, overLimit), |db.queue.pending| == 100;
            && (overLimit ==> Adds(db, after, id, Job(Scheduled, userId, projectId, tier)) && after.queue == db.queue)
            && (!overLimit && full ==> after == db)
            && (!overLimit && !full ==>
                  Adds(db, after, id, Job(Queued, userId, projectId, tier)) && JoinsLane(db, after, id, tier))
  {
    EnqueueTidy(db.queue, id, tier);
    if !overLimit && |db.queue.pending| < GLOBAL_QUEUE_CAP { EnqueueRanked(db.queue, id, tier); }
  }

  /** A generation always creates its job, but queues it only when there is room. */
  lemma GenerationSays(db: Db, id: JobId, userId: string, projectId: string)
    requires Ranked(db.queue) && db.queue.counter < COUNTER_LIMIT
    ensures var after, full := Generated(db, id, userId, projectId), |db.queue.pending| == 100;
            && Adds(db, after, id, Job(Queued, userId, projectId, "bootstrapper"))
            && (full ==> after.queue == db.queue)
            && (!full ==> JoinsLane(db, after, id, "bootstrapper"))
  {
    EnqueueTidy(db.queue, id, "bootstrapper");
    if |db.queue.pending| < GLOBAL_QUEUE_CAP { EnqueueRanked(db.queue, id, "bootstrapper"); }
  }

  datatype CancelError = NotFound | AlreadyTerminal

  function CancelAnswer(db: Db, id: JobId, userId: string): Result<(), CancelError> {
    if id !in db.jobs || db.jobs[id].userId != userId then Err(NotFound)
    else if Terminal(db.jobs[id].status) then Err(AlreadyTerminal)
    else Ok(())
  }

  /** Neither the queue nor a worker learns of a cancellation. */
  function Cancelled(db: Db, id: JobId, userId: string): Db {
    if CancelAnswer(db, id, userId).Err? then db else db.(jobs := Transitioned(db.jobs, id, Failed).0)
  }

  /** The route answers "cancelled", yet a job put off to the next day is not cancelled; every other one is. */
  lemma CancelledIff(db: Db, id: JobId, userId: string)
    requires CancelAnswer(db, id, userId).Ok?
    ensures var after := Cancelled(db, id, userId);
            && id in after.jobs
            && (after.jobs[id].status == Failed <==> db.jobs[id].status != Scheduled)
            && (db.jobs[id].status == Scheduled ==> after == db)
            && after == db.(jobs := db.jobs[id := after.jobs[id]])
  {
    if db.jobs[id].status != Scheduled {
      assert Failed in Successors(db.jobs[id].status);
    } else {
      assert db.jobs[id := db.jobs[id]] == db.jobs;
    }
  }

  /** Nobody but the owner can cancel a job, or learn that it exists. */
  lemma StrangersChangeNothing(db: Db, id: JobId, userId: string)
    requires id in db.jobs ==> db.jobs[id].userId != userId
    ensures CancelAnswer(db, id, userId) == Err(NotFound) && Cancelled(db, id, userId) == db
  {
  }

  method SubmitJob(redis: Redis, id: JobId, userId: string, projectId: string, tier: string, overLimit: bool)
    returns (created: bool)
    modifies redis
    ensures redis.db == Submitted(old(redis.db), id, userId, projectId, tier, overLimit)
    ensures created <==> overLimit || |old(redis.db).queue.pending| < GLOBAL_QUEUE_CAP
  {
    var machine := new JobStateMachine(redis);
    if overLimit {
      machine.CreateJob(id, userId, projectId, tier);
      var _ := machine.Transition(id, Scheduled);
      return true;
    }
    var queue := new QueueManager(redis);
    var length := queue.GetLength();
    if length >= GLOBAL_QUEUE_CAP {
      return false;
    }
    machine.CreateJob(id, userId, projectId, tier);
    var _ := queue.Enqueue(id, tier);
    return true;
  }

  method StartGeneration(redis: Redis, id: JobId, userId: string, projectId: string)
    modifies redis
    ensures redis.db == Generated(old(redis.db), id, userId, projectId)
  {
    var machine := new JobStateMachine(redis);
    machine.CreateJob(id, userId, projectId, "bootstrapper");
    var queue := new QueueManager(redis);
    var _ := queue.Enqueue(id, "bootstrapper");
  }

  method CancelGeneration(redis: Redis, id: JobId, userId: string) returns (r: Result<(), CancelError>)
    modifies redis
    ensures r == CancelAnswer(old(redis.db), id, userId)
    ensures redis.db == Cancelled(old(redis.db), id, userId)
  {
    var machine := new JobStateMachine(redis);
    var job := machine.GetJob(id);
    if job.None? || job.value.userId != userId {
      return Err(NotFound);
    }
    if Terminal(job.value.status) {
      return Err(AlreadyTerminal);
    }
    var _ := machine.Transition(id, Failed);
    return Ok(());
  }
}
