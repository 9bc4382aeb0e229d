/**
 Counting semaphores with leases: a set of slot holders, and for each holder a key that
 expires unless it is refreshed. Every method of the class is one atomic step.
 */
module Semaphores {
  import opened Common
  import opened QueueSchemas
  import opened RedisStore

  /** Lease time in seconds, the constructor's default, which both factories keep. */
  const LEASE_TTL := 3600

  function Acquired(s: Leases, x: Slot, limit: nat): (Leases, bool) {
    if |Holders(s, x.key)| >= limit || x in s.slots then (s, false)
    else (s.(slots := s.slots + {x}, expiry := s.expiry[x := s.now + LEASE_TTL]), true)
  }

  function Released(s: Leases, x: Slot): Leases {
    s.(slots := s.slots - {x}, expiry := s.expiry - {x})
  }

  function Refreshed(s: Leases, x: Slot): Leases {
    if Live(s, x) then s.(expiry := s.expiry[x := s.now + LEASE_TTL]) else s
  }

  function Cleaned(s: Leases, k: SemKey): Leases {
    s.(slots := set x | x in s.slots && (x.key == k ==> Live(s, x)))
  }

  // ---------- Runs ----------

  datatype Event =
    | EvAcquire(slot: Slot, limit: nat)
    | EvRelease(slot: Slot)
    | EvHeartbeat(slot: Slot)
    | EvCleanup(key: SemKey)
    | EvTick(seconds: nat)

  function Apply(s: Leases, e: Event): Leases {
    match e
    case EvAcquire(x, limit) => Acquired(s, x, limit).0
    case EvRelease(x) => Released(s, x)
    case EvHeartbeat(x) => Refreshed(s, x)
    case EvCleanup(k) => Cleaned(s, k)
    case EvTick(d) => s.(now := s.now + d)
  }

  function RunEvents(s: Leases, es: seq<Event>): Leases
    decreases |es|
  {
    if es == [] then s else RunEvents(Apply(s, es[0]), es[1..])
  }

  function Elapsed(es: seq<Event>): nat {
    if es == [] then 0
    else (if es[0].EvTick? then es[0].seconds else 0) + Elapsed(es[1..])
  }

  /** A live lease belongs to a slot holder, and no lease outlasts a full term from now. */
  ghost predicate Sound(s: Leases) {
    && (forall x :: Live(s, x) ==> x in s.slots)
    && (forall x :: x in s.expiry ==> s.expiry[x] <= s.now + LEASE_TTL)
  }

  ghost predicate LimitedTo(es: seq<Event>, k: SemKey, limit: nat) {
    forall e :: e in es && e.EvAcquire? && e.slot.key == k ==> e.limit <= limit
  }

  lemma HoldersAfterAcquire(s: Leases, x: Slot, limit: nat, k: SemKey)
    requires Acquired(s, x, limit).1
    ensures Holders(Acquired(s, x, limit).0, k) == Holders(s, k) + (if x.key == k then {x.job} else {})
    ensures x.key == k ==> x.job !in Holders(s, k)
  {
    assert forall y :: y in s.slots && y.key == x.key && y.job == x.job ==> y == x;
    var s' := Acquired(s, x, limit).0;
    forall j ensures j in Holders(s', k) <==> j in Holders(s, k) + (if x.key == k then {x.job} else {}) {
      assert j in Holders(s', k) <==> Slot(k, j) in s'.slots;
      assert j in Holders(s, k) <==> Slot(k, j) in s.slots;
    }
  }

  lemma ApplyKeepsLimit(s: Leases, e: Event, k: SemKey, limit: nat)
    requires |Holders(s, k)| <= limit
    requires e.EvAcquire? && e.slot.key == k ==> e.limit <= limit
    ensures |Holders(Apply(s, e), k)| <= limit
  {
    if e.EvAcquire? && Acquired(s, e.slot, e.limit).1 {
      HoldersAfterAcquire(s, e.slot, e.limit, k);
    } else {
      SubsetSize(Holders(Apply(s, e), k), Holders(s, k));
    }
  }

  /**
   Capacity: under any mix of acquire, release, heartbeat, clock ticks, crashed holders
   (holders that simply stop calling) and cleanup, the slot set stays within the limit.
   */
  lemma {:induction false} CapacityHolds(s: Leases, es: seq<Event>, k: SemKey, limit: nat)
    requires |Holders(s, k)| <= limit && LimitedTo(es, k, limit)
    ensures |Holders(RunEvents(s, es), k)| <= limit
    decreases |es|
  {
    if es != [] {
      assert es[0] in es;
      ApplyKeepsLimit(s, es[0], k, limit);
      CapacityHolds(Apply(s, es[0]), es[1..], k, limit);
    }
  }

  lemma {:induction false} LeasesStaySound(s: Leases, es: seq<Event>)
    requires Sound(s)
    ensures Sound(RunEvents(s, es))
    decreases |es|
  {
    if es != [] {
      LeasesStaySound(Apply(s, es[0]), es[1..]);
    }
  }

  ghost predicate Silent(es: seq<Event>, x: Slot) {
    forall e :: e in es && (e.EvAcquire? || e.EvRelease? || e.EvHeartbeat?) ==> e.slot != x
  }

  lemma {:induction false} SilentLease(s: Leases, es: seq<Event>, x: Slot)
    requires Silent(es, x)
    ensures var s' := RunEvents(s, es);
            && s'.now == s.now + Elapsed(es)
            && (x in s'.expiry <==> x in s.expiry)
            && (x in s.expiry ==> s'.expiry[x] == s.expiry[x])
    decreases |es|
  {
    if es != [] {
      assert es[0] in es;
      SilentLease(Apply(s, es[0]), es[1..], x);
    }
  }

  lemma {:induction false} RunThenCleanup(s: Leases, es: seq<Event>, k: SemKey)
    ensures RunEvents(s, es + [EvCleanup(k)]) == Cleaned(RunEvents(s, es), k)
    decreases |es|
  {
    var all := es + [EvCleanup(k)];
    if es == [] {
      assert RunEvents(s, all) == RunEvents(Apply(s, all[0]), []);
    } else {
      assert all[1..] == es[1..] + [EvCleanup(k)];
      RunThenCleanup(Apply(s, es[0]), es[1..], k);
    }
  }

  /** The slot of a crashed holder is free after its term and one cleanup, whatever others did. */
  lemma CrashedSlotIsRecovered(s: Leases, es: seq<Event>, x: Slot)
    requires Sound(s) && Silent(es, x) && Elapsed(es) >= LEASE_TTL
    ensures x !in RunEvents(s, es + [EvCleanup(x.key)]).slots
  {
    SilentLease(s, es, x);
    RunThenCleanup(s, es, x.key);
  }

  /** A holder that does not release keeps its slot for as long as its lease had left. */
  lemma {:induction false} LiveHolderKeepsSlot(s: Leases, es: seq<Event>, x: Slot)
    requires x in s.slots && x in s.expiry && s.expiry[x] <= s.now + LEASE_TTL
    requires Elapsed(es) < s.expiry[x] - s.now
    requires forall e :: e in es && e.EvRelease? ==> e.slot != x
    ensures x in RunEvents(s, es).slots && Live(RunEvents(s, es), x)
    decreases |es|
  {
    if es != [] {
      assert es[0] in es;
      LiveHolderKeepsSlot(Apply(s, es[0]), es[1..], x);
    }
  }

  /** A beat in time gives the holder a full term from now, whatever was left of the lease. */
  lemma HeartbeatRenews(s: Leases, es: seq<Event>, x: Slot)
    requires x in s.slots && Live(s, x) && Elapsed(es) < 3600
    requires forall e :: e in es && e.EvRelease? ==> e.slot != x
    ensures var s' := RunEvents(s, [EvHeartbeat(x)] + es); x in s'.slots && Live(s', x)
  {
    assert ([EvHeartbeat(x)] + es)[1..] == es;
    LiveHolderKeepsSlot(Refreshed(s, x), es, x);
  }

  ghost predicate NoBeat(es: seq<Event>, x: Slot) {
    forall e :: e in es && e.EvHeartbeat? ==> e.slot != x
  }

  /** Before the first beat, and between any two, less than the given times pass. */
  ghost predicate Beats(es: seq<Event>, x: Slot, first: int, term: int) {
    && (forall j :: 0 <= j <= |es| && NoBeat(es[..j], x) ==> Elapsed(es[..j]) < first)
    && (forall i, j :: 0 <= i <= j <= |es| && NoBeat(es[i..j], x) ==> Elapsed(es[i..j]) < term)
  }

  lemma BeatsTail(es: seq<Event>, x: Slot, first: int, term: int)
    requires es != [] && Beats(es, x, first, term)
    ensures Beats(es[1..], x, if es[0] == EvHeartbeat(x) then term
                              else if es[0].EvTick? then first - es[0].seconds else first, term)
  {
    var t := es[1..];
    forall i, j | 0 <= i <= j <= |t| && NoBeat(t[i..j], x) ensures Elapsed(t[i..j]) < term {
      assert t[i..j] == es[i + 1..j + 1];
    }
    forall j | 0 <= j <= |t| && NoBeat(t[..j], x)
      ensures Elapsed(t[..j]) < if es[0] == EvHeartbeat(x) then term
                                else if es[0].EvTick? then first - es[0].seconds else first
    {
      assert t[..j] == es[1..j + 1] == t[0..j];
      assert es[..j + 1] == [es[0]] + t[..j];
      assert es[..j + 1][1..] == t[..j];
      if es[0] != EvHeartbeat(x) { assert NoBeat(es[..j + 1], x); }
    }
  }

  /** A holder that keeps beating keeps its slot over runs of any length. */
  lemma {:induction false} BeatingHolderKeepsSlot(s: Leases, es: seq<Event>, x: Slot)
    requires x in s.slots && x in s.expiry && s.expiry[x] <= s.now + LEASE_TTL
    requires Beats(es, x, s.expiry[x] - s.now, 3600)
    requires forall e :: e in es && e.EvRelease? ==> e.slot != x
    ensures x in RunEvents(s, es).slots && Live(RunEvents(s, es), x)
    decreases |es|
  {
    assert NoBeat(es[..0], x) && Elapsed(es[..0]) == 0;
    if es != [] {
      var e := es[0];
      assert e in es;
      BeatsTail(es, x, s.expiry[x] - s.now, 3600);
      BeatingHolderKeepsSlot(Apply(s, e), es[1..], x);
    }
  }

  /** So does one that has just acquired it: an acquired slot comes with a full lease. */
  lemma AcquiredSlotIsLeased(s: Leases, x: Slot, limit: nat, es: seq<Event>)
    requires Acquired(s, x, limit).1 && Beats(es, x, 3600, 3600)
    requires forall e :: e in es && e.EvRelease? ==> e.slot != x
    ensures var s' := RunEvents(Acquired(s, x, limit).0, es); x in s'.slots && Live(s', x)
  {
    BeatingHolderKeepsSlot(Acquired(s, x, limit).0, es, x);
  }

  /** A beat that comes too late saves nothing. */
  lemma LateBeatIsLost(s: Leases, x: Slot)
    requires !Live(s, x)
    ensures x !in RunEvents(s, [EvHeartbeat(x), EvCleanup(x.key)]).slots
  {
    var es := [EvHeartbeat(x), EvCleanup(x.key)];
    assert es[1..] == [EvCleanup(x.key)];
    assert RunEvents(s, es) == RunEvents(Refreshed(s, x), [EvCleanup(x.key)]);
    RunThenCleanup(Refreshed(s, x), [], x.key);
    assert [] + [EvCleanup(x.key)] == [EvCleanup(x.key)];
  }

  /** Taking a free slot and giving it back leaves every slot set as it was. */
  lemma AcquireReleaseIsNeutral(s: Leases, x: Slot, limit: nat)
    requires Acquired(s, x, limit).1
    ensures Released(Acquired(s, x, limit).0, x).slots == s.slots
  {
  }

  /** The slot sets without the named holders of one semaphore. */
  function Purged(s: Leases, k: SemKey, gone: set<JobId>): Leases {
    s.(slots := set x | x in s.slots && !(x.key == k && x.job in gone))
  }

  lemma PurgeNone(s: Leases, k: SemKey)
    ensures Purged(s, k, {}) == s
  {
    assert Purged(s, k, {}).slots == s.slots;
  }

  lemma PurgeOne(s: Leases, k: SemKey, gone: set<JobId>, job: JobId)
    ensures Purged(s, k, gone + {job}) == Purged(s, k, gone).(slots := Purged(s, k, gone).slots - {Slot(k, job)})
  {
    var p := Purged(s, k, gone);
    assert Purged(s, k, gone + {job}).slots == p.slots - {Slot(k, job)};
  }

  lemma PurgedIsCleaned(s: Leases, k: SemKey, gone: set<JobId>)
    requires forall j :: j in gone <==> j in Holders(s, k) && !Live(s, Slot(k, j))
    ensures Purged(s, k, gone) == Cleaned(s, k)
    ensures |Holders(Cleaned(s, k), k)| == |Holders(s, k)| - |gone|
  {
    forall x | x in s.slots && x.key == k ensures x.job in gone <==> !Live(s, x) {
      assert x == Slot(k, x.job) && x.job in Holders(s, k);
    }
    assert Purged(s, k, gone).slots == Cleaned(s, k).slots;
    var kept := Holders(Cleaned(s, k), k);
    forall j ensures j in kept <==> j in Holders(s, k) - gone {
      assert j in kept <==> Slot(k, j) in Cleaned(s, k).slots;
      assert j in Holders(s, k) <==> Slot(k, j) in s.slots;
    }
    assert kept == Holders(s, k) - gone;
    assert gone <= Holders(s, k);
  }

  class RedisSemaphore {
    const redis: Redis
    const key: SemKey
    const maxConcurrent: nat

    constructor (redis: Redis, key: SemKey, maxConcurrent: nat)
      ensures this.redis == redis && this.key == key && this.maxConcurrent == maxConcurrent
    {
      this.redis := redis;
      this.key := key;
      this.maxConcurrent := maxConcurrent;
    }

    method Acquire(job: JobId) returns (ok: bool)
      modifies redis
      ensures ok == Acquired(old(redis.db).sems, Slot(key, job), maxConcurrent).1
      ensures redis.db
              == old(redis.db).(sems := Acquired(old(redis.db).sems, Slot(key, job), maxConcurrent).0)
    {
      var current := redis.Scard(key);
      if current >= maxConcurrent {
        return false;
      }
      var added := redis.Sadd(Slot(key, job));
      if added {
        redis.Setex(Slot(key, job), LEASE_TTL);
        return true;
      }
      assert redis.db.sems.slots == old(redis.db).sems.slots;
      return false;
    }

    method Release(job: JobId)
      modifies redis
      ensures redis.db == old(redis.db).(sems := Released(old(redis.db).sems, Slot(key, job)))
    {
      redis.Srem(Slot(key, job));
      redis.DeleteLease(Slot(key, job));
    }

    method Heartbeat(job: JobId)
      modifies redis
      ensures redis.db == old(redis.db).(sems := Refreshed(old(redis.db).sems, Slot(key, job)))
    {
      redis.Expire(Slot(key, job), LEASE_TTL);
    }

    method Count() returns (n: nat)
      ensures n == |Holders(redis.db.sems, key)|
    {
      n := redis.Scard(key);
    }

    /** Removes exactly the holders whose lease has expired, and says how many they were. */
    method CleanupStale() returns (cleaned: nat)
      modifies redis
      ensures redis.db == old(redis.db).(sems := Cleaned(old(redis.db).sems, key))
      ensures cleaned == |Holders(old(redis.db).sems, key)| - |Holders(redis.db.sems, key)|
    {
      var members := redis.Smembers(key);
      ghost var db, all, gone: set<JobId> := redis.db, members, {};
      cleaned := 0;
      PurgeNone(db.sems, key);
      while members != {}
        invariant members <= all && |gone| == cleaned
        invariant forall j :: j in gone <==> j in all - members && !Live(db.sems, Slot(key, j))
        invariant redis.db == db.(sems := Purged(db.sems, key, gone))
        decreases members
      {
        var job :| job in members;
        var alive := redis.Exists(Slot(key, job));
        if !alive {
          redis.Srem(Slot(key, job));
          PurgeOne(db.sems, key, gone, job);
          gone := gone + {job};
          cleaned := cleaned + 1;
        }
        members := members - {job};
      }
      PurgedIsCleaned(db.sems, key, gone);
    }
  }

  method UserSemaphore(redis: Redis, userId: string, tier: string) returns (sem: RedisSemaphore)
    ensures sem.redis == redis && sem.key == UserKey(userId) && sem.maxConcurrent == UserLimit(tier)
    ensures sem.maxConcurrent == if tier == "cto_scale" then 10 else if tier == "partner" then 3 else 2
  {
    sem := new RedisSemaphore(redis, UserKey(userId), UserLimit(tier));
  }

  method ProjectSemaphore(redis: Redis, projectId: string, tier: string) returns (sem: RedisSemaphore)
    ensures sem.redis == redis && sem.key == ProjectKey(projectId) && sem.maxConcurrent == ProjectLimit(tier)
    ensures sem.maxConcurrent == if tier == "cto_scale" then 5 else if tier == "partner" then 3 else 2
  {
    sem := new RedisSemaphore(redis, ProjectKey(projectId), ProjectLimit(tier));
  }
}
