/** The midnight re-scheduler: moves jobs put off to the next day back into the queue. */
module Scheduler {
  import opened Common
  import opened QueueSchemas
  import opened RedisStore
  import opened JobQueue
  import opened JobLifecycle

  /** One scheduled job: to QUEUED, into the queue, and back to SCHEDULED when the queue is full. */
  function Moved(db: Db, id: JobId): (Db, bool) {
    if id !in db.jobs then (db, false)
    else
      var (jobs, ok) := Transitioned(db.jobs, id, Queued);
      if !ok then (db, false)
      else
        var (queue, r) := Enqueued(db.queue, id, db.jobs[id].tier);
        if r.Rejected? then (db.(jobs := Transitioned(jobs, id, Scheduled).0, queue := queue), false)
        else (db.(jobs := jobs, queue := queue), true)
  }

  function MovedAll(db: Db, ids: seq<JobId>): (Db, nat) {
    if ids == [] then (db, 0)
    else
      var (d, n) := MovedAll(db, ids[..|ids| - 1]);
      var (d', ok) := Moved(d, ids[|ids| - 1]);
      (d', if ok then n + 1 else n)
  }

  /** The part of a key after "job:". */
  function IdPart(key: string): string {
    if "job:" <= key then key[4..] else ""
  }

  /** The ids, among the keys SCAN returns, of scheduled jobs; auxiliary keys have ':' in the id part. */
  function Picked(jobs: map<JobId, Job>, keys: seq<string>): seq<JobId> {
    if keys == [] then []
    else
      var rest := Picked(jobs, keys[..|keys| - 1]);
      var id := IdPart(keys[|keys| - 1]);
      if ':' !in id && id in jobs && jobs[id].status == Scheduled then rest + [id] else rest
  }

  function Flatten(batches: seq<seq<string>>): seq<string> {
    if batches == [] then []
    else Flatten(batches[..|batches| - 1]) + batches[|batches| - 1]
  }

  function ScheduledJobs(db: Db): set<JobId> {
    set id | id in db.jobs && db.jobs[id].status == Scheduled
  }

  function Elements(ids: seq<JobId>): set<JobId> {
    set id | id in ids
  }

  /** What SCAN promises: every existing hash at least once, however often. Job ids hold no ':'. */
  ghost predicate ScanOf(db: Db, batches: seq<seq<string>>) {
    forall id :: id in db.jobs ==> ':' !in id && "job:" + id in Flatten(batches)
  }

  /** Scheduled jobs wait outside the queue. */
  ghost predicate Promotable(db: Db) {
    Tidy(db.queue) && ScheduledJobs(db) !! Jobs(db.queue)
  }

  /**
   `before` after exactly the jobs in `up`, all of them scheduled, have been queued:
   everything else, other jobs and the slot sets included, is as it was.
   */
  ghost predicate Promoted(before: Db, after: Db, up: set<JobId>) {
    && up <= ScheduledJobs(before)
    && after.jobs.Keys == before.jobs.Keys
    && (forall id :: id in before.jobs ==>
          after.jobs[id] == if id in up then before.jobs[id].(status := Queued) else before.jobs[id])
    && Tidy(after.queue)
    && Jobs(after.queue) == Jobs(before.queue) + up
    && |after.queue.pending| == |before.queue.pending| + |up|
    && after.sems == before.sems
  }

  lemma PromoteOne(before: Db, db: Db, id: JobId, up: set<JobId>, queue: Queue)
    requires id in ScheduledJobs(before) && id !in up && Promoted(before, db, up)
    requires Tidy(queue) && Jobs(queue) == Jobs(db.queue) + {id}
    requires |queue.pending| == |db.queue.pending| + 1
    ensures Promoted(before, db.(jobs := db.jobs[id := db.jobs[id].(status := Queued)], queue := queue), up + {id})
  {
    PromotedJobs(before.jobs, db.jobs, id, up);
    assert Jobs(queue) == Jobs(before.queue) + (up + {id});
  }

  lemma PromotedJobs(before: map<JobId, Job>, jobs: map<JobId, Job>, id: JobId, up: set<JobId>)
    requires jobs.Keys == before.Keys && id in jobs && id !in up
    requires forall x :: x in before ==> jobs[x] == if x in up then before[x].(status := Queued) else before[x]
    ensures var after := jobs[id := jobs[id].(status := Queued)];
            && after.Keys == before.Keys
            && (forall x :: x in before ==>
                  after[x] == if x in up + {id} then before[x].(status := Queued) else before[x])
  {
  }

  /** The two ways a scheduled job can go, in terms of the queue it joins. */
  lemma MovedCases(db: Db, id: JobId) returns (queue: Queue)
    requires id in ScheduledJobs(db) && Tidy(db.queue) && id !in Jobs(db.queue)
    ensures |db.queue.pending| == GLOBAL_QUEUE_CAP ==> Moved(db, id) == (db, false)
    ensures |db.queue.pending| < GLOBAL_QUEUE_CAP ==>
              && Moved(db, id) == (db.(jobs := db.jobs[id := db.jobs[id].(status := Queued)], queue := queue), true)
              && Tidy(queue) && Jobs(queue) == Jobs(db.queue) + {id}
              && |queue.pending| == |db.queue.pending| + 1
  {
    queue := Enqueued(db.queue, id, db.jobs[id].tier).0;
    EnqueueTidy(db.queue, id, db.jobs[id].tier);
    var jobs := Transitioned(db.jobs, id, Queued).0;
    assert Transitioned(jobs, id, Scheduled).0 == db.jobs;
  }

  lemma MoveAgain(before: Db, db: Db, id: JobId, up: set<JobId>)
    requires id in up && Promoted(before, db, up)
    ensures Moved(db, id) == (db, false)
  {
  }

  lemma StillScheduled(before: Db, db: Db, id: JobId, up: set<JobId>)
    requires Promotable(before) && id in ScheduledJobs(before) && Promoted(before, db, up) && id !in up
    ensures id in ScheduledJobs(db) && Tidy(db.queue) && id !in Jobs(db.queue)
  {
  }

  lemma MoveNew(before: Db, db: Db, id: JobId, up: set<JobId>)
    requires Promotable(before) && id in ScheduledJobs(before) && Promoted(before, db, up) && id !in up
    ensures |db.queue.pending| == GLOBAL_QUEUE_CAP ==> Moved(db, id) == (db, false)
    ensures |db.queue.pending| < GLOBAL_QUEUE_CAP ==>
              Moved(db, id).1 && Promoted(before, Moved(db, id).0, up + {id})
  {
    StillScheduled(before, db, id, up);
    var queue := MovedCases(db, id);
    if |db.queue.pending| < GLOBAL_QUEUE_CAP { PromoteOne(before, db, id, up, queue); }
  }

  lemma MoveOneExact(before: Db, db: Db, id: JobId, up: set<JobId>)
    requires Promotable(before) && id in ScheduledJobs(before) && Promoted(before, db, up)
    ensures Moved(db, id).1 <==> id !in up && |db.queue.pending| < GLOBAL_QUEUE_CAP
    ensures Promoted(before, Moved(db, id).0, if Moved(db, id).1 then up + {id} else up)
  {
    if id in up { MoveAgain(before, db, id, up); } else { MoveNew(before, db, id, up); }
  }

  /** How many of a set of jobs are up, when a full queue is the only reason for one not to be. */
  ghost predicate AsManyAsFit(all: set<JobId>, up: set<JobId>, length: nat) {
    && up <= all
    && |up| + length <= GLOBAL_QUEUE_CAP
    && (|up| + length < GLOBAL_QUEUE_CAP ==> up == all)
  }

  lemma AsManyAsFitIsMin(all: set<JobId>, up: set<JobId>, length: nat)
    requires AsManyAsFit(all, up, length)
    ensures |up| == Min(|all|, GLOBAL_QUEUE_CAP - length)
  {
    SubsetSize(up, all);
  }

  lemma OneMoreFits(all: set<JobId>, up: set<JobId>, length: nat, id: JobId)
    requires AsManyAsFit(all, up, length)
    ensures id !in up && |up| + length < GLOBAL_QUEUE_CAP ==> AsManyAsFit(all + {id}, up + {id}, length)
    ensures id in up || |up| + length == GLOBAL_QUEUE_CAP ==> AsManyAsFit(all + {id}, up, length)
  {
    if id in up { assert all + {id} == all; }
  }

  /**
   Under any repetition of ids, min(distinct, room) jobs are queued, each once; the others
   are still scheduled and outside the queue.
   */
  lemma {:induction false} MoveAllExact(db: Db, ids: seq<JobId>) returns (up: set<JobId>)
    requires Promotable(db) && Elements(ids) <= ScheduledJobs(db)
    ensures |up| == MovedAll(db, ids).1 == Min(|Elements(ids)|, GLOBAL_QUEUE_CAP - |db.queue.pending|)
    ensures Promoted(db, MovedAll(db, ids).0, up) && AsManyAsFit(Elements(ids), up, |db.queue.pending|)
  {
    if ids == [] {
      up := {};
      assert Elements(ids) == {};
    } else {
      var n := |ids| - 1;
      assert Elements(ids) == Elements(ids[..n]) + {ids[n]};
      up := MoveAllExact(db, ids[..n]);
      MoveOneExact(db, MovedAll(db, ids[..n]).0, ids[n], up);
      OneMoreFits(Elements(ids[..n]), up, |db.queue.pending|, ids[n]);
      if Moved(MovedAll(db, ids[..n]).0, ids[n]).1 { up := up + {ids[n]}; }
    }
    AsManyAsFitIsMin(Elements(ids), up, |db.queue.pending|);
  }

  lemma {:induction false} PickedElements(jobs: map<JobId, Job>, keys: seq<string>)
    ensures forall id :: id in Picked(jobs, keys) ==> id in jobs && jobs[id].status == Scheduled && ':' !in id
    ensures forall key | key in keys && ':' !in IdPart(key) ::
              IdPart(key) in jobs && jobs[IdPart(key)].status == Scheduled ==> IdPart(key) in Picked(jobs, keys)
  {
    if keys != [] {
      var n := |keys| - 1;
      PickedElements(jobs, keys[..n]);
      assert keys == keys[..n] + [keys[n]];
    }
  }

  /** A complete SCAN, however often it repeats a key, picks exactly the scheduled jobs. */
  lemma ScanPicksScheduled(db: Db, batches: seq<seq<string>>)
    requires ScanOf(db, batches)
    ensures Elements(Picked(db.jobs, Flatten(batches))) == ScheduledJobs(db)
  {
    PickedElements(db.jobs, Flatten(batches));
    forall id | id in ScheduledJobs(db) ensures id in Picked(db.jobs, Flatten(batches)) {
      assert IdPart("job:" + id) == id;
    }
  }

  lemma {:induction false} PickedAppend(jobs: map<JobId, Job>, a: seq<string>, b: seq<string>)
    ensures Picked(jobs, a + b) == Picked(jobs, a) + Picked(jobs, b)
  {
    if b == [] {
      assert a + b == a;
    } else {
      var n := |b| - 1;
      assert (a + b)[..|a + b| - 1] == a + b[..n];
      PickedAppend(jobs, a, b[..n]);
    }
  }

  /**
   `batches` are the key lists SCAN returns until its cursor is 0 again. The returned count
   is min(scheduled jobs, room in the queue).
   */
  method ProcessScheduledJobs(redis: Redis, batches: seq<seq<string>>) returns (moved: nat)
    requires ScanOf(redis.db, batches) && Promotable(redis.db)
    modifies redis
    ensures moved == Min(|ScheduledJobs(old(redis.db))|, GLOBAL_QUEUE_CAP - |old(redis.db).queue.pending|)
    ensures exists up: set<JobId> :: |up| == moved && Promoted(old(redis.db), redis.db, up)
    ensures redis.db == MovedAll(old(redis.db), Picked(old(redis.db).jobs, Flatten(batches))).0
  {
    ghost var db := redis.db;
    var scheduled: seq<JobId> := [];
    var b := 0;
    while b < |batches|
      invariant 0 <= b <= |batches|
      invariant redis.db == db
      invariant scheduled == Picked(db.jobs, Flatten(batches[..b]))
    {
      assert batches[..b + 1][..b] == batches[..b];
      var found := CollectScheduled(redis, batches[b]);
      PickedAppend(db.jobs, Flatten(batches[..b]), batches[b]);
      scheduled := scheduled + found;
      b := b + 1;
    }
    assert batches[..b] == batches;
    ScanPicksScheduled(db, batches);

    moved := MoveToQueue(redis, scheduled);
    ghost var up := MoveAllExact(db, scheduled);
  }

  /** The second loop: every id found, repeated ids included. */
  method MoveToQueue(redis: Redis, scheduled: seq<JobId>) returns (moved: nat)
    modifies redis
    ensures (redis.db, moved) == MovedAll(old(redis.db), scheduled)
  {
    var machine := new JobStateMachine(redis);
    var queue := new QueueManager(redis);
    moved := 0;
    for i := 0 to |scheduled|
      invariant (redis.db, moved) == MovedAll(old(redis.db), scheduled[..i])
    {
      assert scheduled[..i + 1][..i] == scheduled[..i];
      var id := scheduled[i];
      var job := machine.GetJob(id);
      if job.None? {
        continue;
      }
      var success := machine.Transition(id, Queued);
      if success {
        var result := queue.Enqueue(id, job.value.tier);
        if result.Rejected? {
          var back := machine.Transition(id, Scheduled);
          continue;
        }
        moved := moved + 1;
      }
    }
    assert scheduled[..|scheduled|] == scheduled;
  }

  /** One batch of the scan. */
  method CollectScheduled(redis: Redis, keys: seq<string>) returns (ids: seq<JobId>)
    ensures ids == Picked(redis.db.jobs, keys)
  {
    ids := [];
    for i := 0 to |keys|
      invariant ids == Picked(redis.db.jobs, keys[..i])
    {
      assert keys[..i + 1][..i] == keys[..i];
      var id := IdPart(keys[i]);
      if ':' in id {
        continue;
      }
      var status := redis.HgetStatus(id);
      if status == Some(Scheduled) {
        ids := ids + [id];
      }
    }
    assert keys[..|keys|] == keys;
  }
}
