/**
 The part of the shared Redis database the build queue uses. Each method of the class is
 one Redis command, which Redis executes atomically.
 */
module RedisStore {
  import opened Common
  import opened QueueSchemas
  import opened SortedSet

  /** `queue:pending` and `queue:counter` */
  datatype Queue = Queue(pending: ZSet, counter: nat)

  /** The hash `job:{id}` */
  datatype Job = Job(status: JobStatus, userId: string, projectId: string, tier: string)

  datatype SemKey = UserKey(id: string) | ProjectKey(id: string)

  /** A member of the slot set of one semaphore; also the name of that member's lease key. */
  datatype Slot = Slot(key: SemKey, job: JobId)

  /** All slot sets, all lease keys with their expiry times, and the server clock. */
  datatype Leases = Leases(slots: set<Slot>, expiry: map<Slot, int>, now: int)

  datatype Db = Db(jobs: map<JobId, Job>, queue: Queue, sems: Leases)

  /** A lease key exists until its expiry time is reached. */
  predicate Live(s: Leases, x: Slot) {
    x in s.expiry && s.expiry[x] > s.now
  }

  function Holders(s: Leases, k: SemKey): set<JobId> {
    set x | x in s.slots && x.key == k :: x.job
  }

  class Redis {
    var db: Db

    constructor (db: Db)
      ensures this.db == db
    {
      this.db := db;
    }

    method HgetStatus(job: JobId) returns (status: Option<JobStatus>)
      ensures status == if job in db.jobs then Some(db.jobs[job].status) else None
    {
      if job in db.jobs { status := Some(db.jobs[job].status); } else { status := None; }
    }

    method Hgetall(job: JobId) returns (hash: Option<Job>)
      ensures hash == if job in db.jobs then Some(db.jobs[job]) else None
    {
      if job in db.jobs { hash := Some(db.jobs[job]); } else { hash := None; }
    }

    method HsetJob(job: JobId, hash: Job)
      modifies this
      ensures db == old(db).(jobs := old(db).jobs[job := hash])
    {
      db := db.(jobs := db.jobs[job := hash]);
    }

    method HsetStatus(job: JobId, status: JobStatus)
      requires job in db.jobs
      modifies this
      ensures db == old(db).(jobs := old(db).jobs[job := old(db).jobs[job].(status := status)])
    {
      db := db.(jobs := db.jobs[job := db.jobs[job].(status := status)]);
    }

    method Zcard() returns (n: nat)
      ensures n == |db.queue.pending|
    {
      n := |db.queue.pending|;
    }

    method Incr() returns (n: nat)
      modifies this
      ensures n == old(db).queue.counter + 1
      ensures db == old(db).(queue := old(db).queue.(counter := n))
    {
      n := db.queue.counter + 1;
      db := db.(queue := db.queue.(counter := n));
    }

    method Zadd(member: string, score: int)
      modifies this
      ensures db == old(db).(queue := old(db).queue.(pending := ZAdd(old(db).queue.pending, member, score)))
    {
      db := db.(queue := db.queue.(pending := ZAdd(db.queue.pending, member, score)));
    }

    method Zpopmin() returns (entry: Option<Entry>)
      modifies this
      ensures old(db).queue.pending == [] ==> entry == None && db == old(db)
      ensures old(db).queue.pending != [] ==>
                && entry == Some(old(db).queue.pending[0])
                && db == old(db).(queue := old(db).queue.(pending := old(db).queue.pending[1..]))
    {
      if db.queue.pending == [] {
        entry := None;
      } else {
        entry := Some(db.queue.pending[0]);
        db := db.(queue := db.queue.(pending := db.queue.pending[1..]));
      }
    }

    method Zrank(member: string) returns (rank: Option<nat>)
      ensures rank == Rank(db.queue.pending, member)
    {
      rank := Rank(db.queue.pending, member);
    }

    method Zrem(member: string)
      modifies this
      ensures db == old(db).(queue := old(db).queue.(pending := Without(old(db).queue.pending, member)))
    {
      db := db.(queue := db.queue.(pending := Without(db.queue.pending, member)));
    }

    method Scard(k: SemKey) returns (n: nat)
      ensures n == |Holders(db.sems, k)|
    {
      n := |Holders(db.sems, k)|;
    }

    method Smembers(k: SemKey) returns (members: set<JobId>)
      ensures members == Holders(db.sems, k)
    {
      members := Holders(db.sems, k);
    }

    method Sadd(x: Slot) returns (added: bool)
      modifies this
      ensures added <==> x !in old(db).sems.slots
      ensures db == old(db).(sems := old(db).sems.(slots := old(db).sems.slots + {x}))
    {
      added := x !in db.sems.slots;
      db := db.(sems := db.sems.(slots := db.sems.slots + {x}));
    }

    method Srem(x: Slot)
      modifies this
      ensures db == old(db).(sems := old(db).sems.(slots := old(db).sems.slots - {x}))
    {
      db := db.(sems := db.sems.(slots := db.sems.slots - {x}));
    }

    method Setex(x: Slot, ttl: nat)
      modifies this
      ensures db == old(db).(sems := old(db).sems.(expiry := old(db).sems.expiry[x := old(db).sems.now + ttl]))
    {
      db := db.(sems := db.sems.(expiry := db.sems.expiry[x := db.sems.now + ttl]));
    }

    /** DEL of a lease key. */
    method DeleteLease(x: Slot)
      modifies this
      ensures db == old(db).(sems := old(db).sems.(expiry := old(db).sems.expiry - {x}))
    {
      db := db.(sems := db.sems.(expiry := db.sems.expiry - {x}));
    }

    /** EXPIRE does nothing to a key that is absent or already expired. */
    method Expire(x: Slot, ttl: nat)
      modifies this
      ensures Live(old(db).sems, x) ==>
                db == old(db).(sems := old(db).sems.(expiry := old(db).sems.expiry[x := old(db).sems.now + ttl]))
      ensures !Live(old(db).sems, x) ==> db == old(db)
    {
      if Live(db.sems, x) {
        db := db.(sems := db.sems.(expiry := db.sems.expiry[x := db.sems.now + ttl]));
      }
    }

    method Exists(x: Slot) returns (there: bool)
      ensures there <==> Live(db.sems, x)
    {
      there := Live(db.sems, x);
    }
  }
}
