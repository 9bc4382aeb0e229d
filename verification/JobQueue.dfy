/**
 The pending-job queue: one sorted set scored by (1000 - boost) * 10^12 + counter.
 The module states the queue operations on values and proves that the single scored set
 behaves as three first-in-first-out lanes served in strict priority order.
 */
module JobQueue {
  import opened Common
  import opened QueueSchemas
  import opened SortedSet
  import opened RedisStore

  const TIER_STRIDE: int := 1_000_000_000_000

  /** The last counter value for which the tiers cannot overlap. */
  const COUNTER_LIMIT: int := 2 * TIER_STRIDE

  datatype EnqueueResult =
    | Rejected(retryAfterMinutes: int)
    | Accepted(position: nat, score: int)

  function ScoreOf(boost: int, counter: int): int {
    (1000 - boost) * TIER_STRIDE + counter
  }

  function Position(q: Queue, job: JobId): nat {
    match Rank(q.pending, job)
    case None => 0
    case Some(r) => r + 1
  }

  /** Minutes after which a rejected caller should retry; the source truncates a float quotient. */
  function RetryMinutes(length: nat): int
    requires length >= GLOBAL_QUEUE_CAP
  {
    Max(1, (length - GLOBAL_QUEUE_CAP + 1) * 2 / 5)
  }

  function Enqueued(q: Queue, job: JobId, tier: string): (Queue, EnqueueResult) {
    if |q.pending| >= GLOBAL_QUEUE_CAP then
      (q, Rejected(RetryMinutes(|q.pending|)))
    else
      var score := ScoreOf(Boost(tier), q.counter + 1);
      var q' := Queue(ZAdd(q.pending, job, score), q.counter + 1);
      (q', Accepted(Position(q', job), score))
  }

  function Dequeued(q: Queue): (Queue, Option<JobId>) {
    if q.pending == [] then (q, None)
    else (q.(pending := q.pending[1..]), Some(q.pending[0].member))
  }

  function Removed(q: Queue, job: JobId): Queue {
    q.(pending := Without(q.pending, job))
  }

  function Jobs(q: Queue): set<JobId> {
    MemberSet(q.pending)
  }

  // ---------- Every job once, never more than the cap: any counter ----------

  ghost predicate Tidy(q: Queue) {
    Distinct(q.pending) && |q.pending| <= GLOBAL_QUEUE_CAP
  }

  lemma EnqueueTidy(q: Queue, job: JobId, tier: string)
    requires Tidy(q)
    ensures var (q', r) := Enqueued(q, job, tier);
            && Tidy(q')
            && (r.Rejected? <==> |q.pending| == GLOBAL_QUEUE_CAP)
            && (r.Rejected? ==> q' == q && r.retryAfterMinutes == 1)
            && (r.Accepted? ==> Jobs(q') == Jobs(q) + {job} && r.position > 0)
            && (r.Accepted? && job !in Jobs(q) ==> |q'.pending| == |q.pending| + 1)
  {
    if |q.pending| < GLOBAL_QUEUE_CAP {
      var score := ScoreOf(Boost(tier), q.counter + 1);
      ZAddMembers(q.pending, job, score);
      assert Enqueued(q, job, tier).0.pending == ZAdd(q.pending, job, score);
    }
  }

  /** A refused caller is told to wait two fifths of a minute for each job over the cap, and at least one. */
  lemma RetrySays(length: nat)
    requires length >= GLOBAL_QUEUE_CAP
    ensures var m, over := RetryMinutes(length), length - 99;
            m >= 1 && 2 * over < 5 * (m + 1) && (m > 1 ==> 5 * m <= 2 * over)
  {
  }

  lemma DequeueTidy(q: Queue)
    requires Tidy(q)
    ensures var (q', popped) := Dequeued(q);
            && Tidy(q')
            && (popped.None? <==> Jobs(q) == {})
            && (popped.None? ==> q' == q)
            && (popped.Some? ==> popped.value in Jobs(q) && Jobs(q') == Jobs(q) - {popped.value}
                                 && |q'.pending| == |q.pending| - 1)
  {
    var z := q.pending;
    if z == [] {
      assert Jobs(q) == {};
    } else {
      assert z[0].member in Jobs(q);
      assert z == [z[0]] + z[1..];
      DistinctCons(z[0], z[1..]);
      assert forall e :: e in z <==> e == z[0] || e in z[1..];
    }
  }

  lemma RemoveTidy(q: Queue, job: JobId)
    requires Tidy(q)
    ensures Tidy(Removed(q, job)) && Jobs(Removed(q, job)) == Jobs(q) - {job}
  {
    WithoutDistinct(q.pending, job);
    WithoutMembers(q.pending, job);
  }

  // ---------- Scores ----------

  predicate IsBoost(b: int) {
    b == 0 || b == 2 || b == 5
  }

  /**
   A tier with the larger boost is served first, whatever the two arrival numbers, exactly as
   long as arrival numbers stay within COUNTER_LIMIT.
   */
  lemma TiersSeparateIff(n: nat)
    ensures (forall hi, lo, c, d :: IsBoost(hi) && IsBoost(lo) && hi > lo && 1 <= c <= n && 1 <= d <= n
                ==> ScoreOf(hi, c) < ScoreOf(lo, d))
            <==> n <= COUNTER_LIMIT
  {
    if n > COUNTER_LIMIT {
      assert IsBoost(2) && IsBoost(0);
      assert !(ScoreOf(2, n) < ScoreOf(0, 1));
    }
  }

  /** Every score the code can form is an integer a double represents exactly. */
  lemma ScoresAreExactDoubles(boost: int, counter: int)
    requires IsBoost(boost) && 1 <= counter <= COUNTER_LIMIT
    ensures 0 < ScoreOf(boost, counter) < 0x20_0000_0000_0000
  {
  }

  /** The boost class a score belongs to, read back from the score alone. */
  function ClassOf(score: int): int {
    if score <= 998 * TIER_STRIDE then 5
    else if score <= 1000 * TIER_STRIDE then 2
    else 0
  }

  /** A score names its class and its arrival number, so two enqueues never share a score. */
  lemma ScoreRoundTrip(boost: int, counter: int)
    requires IsBoost(boost) && 1 <= counter <= COUNTER_LIMIT
    ensures ClassOf(ScoreOf(boost, counter)) == boost
    ensures ScoreOf(boost, counter) - (1000 - boost) * TIER_STRIDE == counter
  {
  }

  predicate Issued(score: int, counter: nat) {
    1 <= score - (1000 - ClassOf(score)) * TIER_STRIDE <= counter
  }

  ghost predicate Ascending(z: ZSet) {
    forall i, j :: 0 <= i < j < |z| ==> z[i].score < z[j].score
  }

  /** What every queue grown from the empty one satisfies while the counter is in range. */
  ghost predicate Ranked(q: Queue) {
    && Tidy(q)
    && q.counter <= COUNTER_LIMIT
    && Ascending(q.pending)
    && (forall e :: e in q.pending ==> Issued(e.score, q.counter))
  }

  // ---------- The reference queue: one FIFO lane per boost ----------

  datatype Lanes = Lanes(cto: seq<JobId>, partner: seq<JobId>, base: seq<JobId>)

  function Order(l: Lanes): seq<JobId> {
    l.cto + l.partner + l.base
  }

  function Drop(s: seq<JobId>, job: JobId): seq<JobId> {
    if s == [] then []
    else if s[0] == job then Drop(s[1..], job)
    else [s[0]] + Drop(s[1..], job)
  }

  function LaneRemove(l: Lanes, job: JobId): Lanes {
    Lanes(Drop(l.cto, job), Drop(l.partner, job), Drop(l.base, job))
  }

  /** The lane is chosen by the name of the tier; every unlisted tier uses the last one. */
  function LaneAppend(l: Lanes, job: JobId, tier: string): Lanes {
    if tier == "cto_scale" then l.(cto := l.cto + [job])
    else if tier == "partner" then l.(partner := l.partner + [job])
    else l.(base := l.base + [job])
  }

  function LanePop(l: Lanes): Lanes {
    if l.cto != [] then l.(cto := l.cto[1..])
    else if l.partner != [] then l.(partner := l.partner[1..])
    else if l.base != [] then l.(base := l.base[1..])
    else l
  }

  function PlaceIn(s: seq<JobId>, job: JobId): nat {
    if s == [] then 0
    else if s[0] == job then 1
    else var p := PlaceIn(s[1..], job); if p == 0 then 0 else p + 1
  }

  datatype Op = OpEnqueue(job: JobId, tier: string) | OpDequeue | OpRemove(job: JobId)

  /** What a caller of the queue observes. */
  datatype Seen = SawRejected | SawPlaced(position: nat) | SawPopped(popped: Option<JobId>) | SawNothing

  function Step(q: Queue, op: Op): (Queue, Seen) {
    match op
    case OpEnqueue(job, tier) =>
      var (q', r) := Enqueued(q, job, tier);
      (q', if r.Rejected? then SawRejected else SawPlaced(r.position))
    case OpDequeue =>
      var (q', popped) := Dequeued(q);
      (q', SawPopped(popped))
    case OpRemove(job) => (Removed(q, job), SawNothing)
  }

  function LaneStep(l: Lanes, op: Op): (Lanes, Seen) {
    match op
    case OpEnqueue(job, tier) =>
      if |Order(l)| >= GLOBAL_QUEUE_CAP then (l, SawRejected)
      else
        var l' := LaneAppend(LaneRemove(l, job), job, tier);
        (l', SawPlaced(PlaceIn(Order(l'), job)))
    case OpDequeue =>
      (LanePop(l), SawPopped(if Order(l) == [] then None else Some(Order(l)[0])))
    case OpRemove(job) => (LaneRemove(l, job), SawNothing)
  }

  function Run(q: Queue, ops: seq<Op>): (Queue, seq<Seen>)
    decreases |ops|
  {
    if ops == [] then (q, [])
    else
      var (q', seen) := Step(q, ops[0]);
      var (q'', rest) := Run(q', ops[1..]);
      (q'', [seen] + rest)
  }

  function LaneRun(l: Lanes, ops: seq<Op>): (Lanes, seq<Seen>)
    decreases |ops|
  {
    if ops == [] then (l, [])
    else
      var (l', seen) := LaneStep(l, ops[0]);
      var (l'', rest) := LaneRun(l', ops[1..]);
      (l'', [seen] + rest)
  }

  // ---------- Abstraction: the lanes inside a scored set ----------

  function Lane(z: ZSet, boost: int): seq<JobId> {
    if z == [] then []
    else if ClassOf(z[0].score) == boost then [z[0].member] + Lane(z[1..], boost)
    else Lane(z[1..], boost)
  }

  function LanesOf(q: Queue): Lanes {
    Lanes(Lane(q.pending, 5), Lane(q.pending, 2), Lane(q.pending, 0))
  }

  lemma AscendingTail(z: ZSet)
    requires Ascending(z) && z != []
    ensures Ascending(z[1..])
    ensures forall e :: e in z[1..] ==> z[0].score < e.score
  {
    forall e | e in z[1..] ensures z[0].score < e.score {
      var k :| 0 <= k < |z[1..]| && z[1..][k] == e;
      assert z[k + 1] == e;
    }
  }

  lemma {:induction false} EmptyLane(z: ZSet, boost: int)
    requires forall e :: e in z ==> ClassOf(e.score) != boost
    ensures Lane(z, boost) == []
  {
    if z != [] {
      assert z[0] in z;
      EmptyLane(z[1..], boost);
    }
  }

  /** Behind an entry come no entries of a higher lane. */
  lemma HigherLanesEmpty(z: ZSet)
    requires Ascending(z) && z != []
    ensures ClassOf(z[0].score) != 5 ==> Lane(z[1..], 5) == []
    ensures ClassOf(z[0].score) == 0 ==> Lane(z[1..], 2) == []
  {
    AscendingTail(z);
    var c := ClassOf(z[0].score);
    if c != 5 { EmptyLane(z[1..], 5); }
    if c == 0 { EmptyLane(z[1..], 2); }
  }

  /** In rank order the three lanes follow one another. */
  lemma {:induction false} LanesInOrder(z: ZSet)
    requires Ascending(z)
    ensures Members(z) == Lane(z, 5) + Lane(z, 2) + Lane(z, 0)
  {
    if z == [] {
      assert Members(z) == [];
    } else {
      HigherLanesEmpty(z);
      AscendingTail(z);
      LanesInOrder(z[1..]);
      assert Members(z) == [z[0].member] + Members(z[1..]);
    }
  }

  lemma {:induction false} LaneWithout(z: ZSet, job: JobId, boost: int)
    ensures Lane(Without(z, job), boost) == Drop(Lane(z, boost), job)
  {
    if z != [] {
      LaneWithout(z[1..], job, boost);
      var w := Without(z[1..], job);
      assert ([z[0]] + w)[1..] == w;
      var l := Lane(z[1..], boost);
      assert ([z[0].member] + l)[1..] == l;
    }
  }

  lemma {:induction false} LaneInsert(z: ZSet, e: Entry, boost: int)
    requires Ascending(z)
    requires forall x :: x in z && ClassOf(x.score) == ClassOf(e.score) ==> x.score < e.score
    ensures Lane(Insert(z, e), boost) == Lane(z, boost) + (if ClassOf(e.score) == boost then [e.member] else [])
  {
    if z == [] {
      assert ([e] + z)[1..] == z;
    } else if Precedes(e, z[0]) {
      assert ([e] + z)[1..] == z;
      AscendingTail(z);
      if ClassOf(e.score) == boost {
        forall x | x in z ensures ClassOf(x.score) != boost {
          assert x == z[0] || x in z[1..];
        }
        EmptyLane(z, boost);
      }
    } else {
      AscendingTail(z);
      assert z[0] in z;
      LaneInsert(z[1..], e, boost);
      var w := Insert(z[1..], e);
      assert ([z[0]] + w)[1..] == w;
    }
  }

  lemma {:induction false} InsertAscending(z: ZSet, e: Entry)
    requires Ascending(z)
    requires forall x :: x in z ==> x.score != e.score
    ensures Ascending(Insert(z, e))
  {
    if z == [] {
    } else if Precedes(e, z[0]) {
      assert z[0] in z;
    } else {
      assert z[0] in z;
      AscendingTail(z);
      InsertAscending(z[1..], e);
      InsertMembers(z[1..], e);
      var w := Insert(z[1..], e);
      forall i, j | 0 <= i < j < |[z[0]] + w| ensures ([z[0]] + w)[i].score < ([z[0]] + w)[j].score {
        if i == 0 { assert w[j - 1] in w; }
      }
    }
  }

  lemma {:induction false} WithoutAscending(z: ZSet, job: JobId)
    requires Ascending(z)
    ensures Ascending(Without(z, job))
  {
    if z != [] {
      AscendingTail(z);
      WithoutAscending(z[1..], job);
      WithoutMembers(z[1..], job);
      var w := Without(z[1..], job);
      forall i, j | 0 <= i < j < |[z[0]] + w| ensures ([z[0]] + w)[i].score < ([z[0]] + w)[j].score {
        if i == 0 { assert w[j - 1] in w; }
      }
    }
  }

  /** ZRANK on the set is the place in the concatenated lanes. */
  lemma {:induction false} RankIsPlace(z: ZSet, job: JobId)
    ensures PlaceIn(Members(z), job) == (match Rank(z, job) case None => 0 case Some(r) => r + 1)
  {
    if z != [] {
      RankIsPlace(z[1..], job);
      assert Members(z)[1..] == Members(z[1..]);
    }
  }

  /** A fresh arrival number is the largest of its class and equals no other score. */
  lemma FreshScore(q: Queue, boost: int)
    requires Ranked(q) && q.counter < COUNTER_LIMIT && IsBoost(boost)
    ensures var s := ScoreOf(boost, q.counter + 1);
            && ClassOf(s) == boost && Issued(s, q.counter + 1)
            && (forall e :: e in q.pending ==> e.score != s && Issued(e.score, q.counter + 1))
            && (forall e :: e in q.pending && ClassOf(e.score) == boost ==> e.score < s)
  {
  }

  lemma EnqueueKeepsRank(q: Queue, job: JobId, tier: string)
    requires Ranked(q) && q.counter < COUNTER_LIMIT && |q.pending| < GLOBAL_QUEUE_CAP
    ensures Ranked(Enqueued(q, job, tier).0)
  {
    var e := Entry(job, ScoreOf(Boost(tier), q.counter + 1));
    FreshScore(q, Boost(tier));
    EnqueueTidy(q, job, tier);
    WithoutAscending(q.pending, job);
    WithoutMembers(q.pending, job);
    InsertAscending(Without(q.pending, job), e);
    InsertMembers(Without(q.pending, job), e);
  }

  lemma EnqueueLane(q: Queue, job: JobId, tier: string, boost: int)
    requires Ranked(q) && q.counter < COUNTER_LIMIT && |q.pending| < GLOBAL_QUEUE_CAP
    ensures Lane(Enqueued(q, job, tier).0.pending, boost)
            == Drop(Lane(q.pending, boost), job) + (if Boost(tier) == boost then [job] else [])
  {
    var e := Entry(job, ScoreOf(Boost(tier), q.counter + 1));
    FreshScore(q, Boost(tier));
    WithoutAscending(q.pending, job);
    WithoutMembers(q.pending, job);
    LaneInsert(Without(q.pending, job), e, boost);
    LaneWithout(q.pending, job, boost);
  }

  /** An accepted job is last in the lane of its tier; every other lane is unchanged. */
  lemma EnqueueRanked(q: Queue, job: JobId, tier: string)
    requires Ranked(q) && q.counter < COUNTER_LIMIT && |q.pending| < GLOBAL_QUEUE_CAP
    ensures Ranked(Enqueued(q, job, tier).0)
    ensures LanesOf(Enqueued(q, job, tier).0) == LaneAppend(LaneRemove(LanesOf(q), job), job, tier)
  {
    EnqueueKeepsRank(q, job, tier);
    EnqueueLane(q, job, tier, 5);
    EnqueueLane(q, job, tier, 2);
    EnqueueLane(q, job, tier, 0);
  }

  lemma DequeueRanked(q: Queue)
    requires Ranked(q)
    ensures Ranked(Dequeued(q).0)
    ensures LanesOf(Dequeued(q).0) == LanePop(LanesOf(q))
  {
    var z := q.pending;
    DequeueTidy(q);
    if z != [] {
      AscendingTail(z);
      HigherLanesEmpty(z);
    }
  }

  lemma RemoveRanked(q: Queue, job: JobId)
    requires Ranked(q)
    ensures Ranked(Removed(q, job))
    ensures LanesOf(Removed(q, job)) == LaneRemove(LanesOf(q), job)
  {
    RemoveTidy(q, job);
    WithoutAscending(q.pending, job);
    WithoutMembers(q.pending, job);
    LaneWithout(q.pending, job, 5);
    LaneWithout(q.pending, job, 2);
    LaneWithout(q.pending, job, 0);
  }

  /** One operation on the scored set is the same operation on the lanes, and looks the same. */
  lemma StepRefines(q: Queue, op: Op)
    requires Ranked(q) && Step(q, op).0.counter <= COUNTER_LIMIT
    ensures Ranked(Step(q, op).0)
    ensures LanesOf(Step(q, op).0) == LaneStep(LanesOf(q), op).0
    ensures Step(q, op).1 == LaneStep(LanesOf(q), op).1
  {
    LanesInOrder(q.pending);
    match op
    case OpEnqueue(job, tier) =>
      if |q.pending| < GLOBAL_QUEUE_CAP {
        EnqueueRanked(q, job, tier);
        var q' := Enqueued(q, job, tier).0;
        LanesInOrder(q'.pending);
        RankIsPlace(q'.pending, job);
      }
    case OpDequeue => DequeueRanked(q);
    case OpRemove(job) => RemoveRanked(q, job);
  }

  lemma {:induction false} CounterNeverFalls(q: Queue, ops: seq<Op>)
    ensures q.counter <= Run(q, ops).0.counter
    decreases |ops|
  {
    if ops != [] { CounterNeverFalls(Step(q, ops[0]).0, ops[1..]); }
  }

  /**
   Any run that starts ranked, of any length, whose last arrival number the tiers leave room
   for: same observations, same order, and the cap holds at the end.
   */
  lemma {:induction false} RunRefinesFifoLanes(q: Queue, ops: seq<Op>)
    requires Ranked(q) && Run(q, ops).0.counter <= COUNTER_LIMIT
    ensures Ranked(Run(q, ops).0)
    ensures LanesOf(Run(q, ops).0) == LaneRun(LanesOf(q), ops).0
    ensures Run(q, ops).1 == LaneRun(LanesOf(q), ops).1
    ensures Members(Run(q, ops).0.pending) == Order(LaneRun(LanesOf(q), ops).0)
    decreases |ops|
  {
    if ops == [] {
      LanesInOrder(q.pending);
    } else {
      CounterNeverFalls(Step(q, ops[0]).0, ops[1..]);
      StepRefines(q, ops[0]);
      RunRefinesFifoLanes(Step(q, ops[0]).0, ops[1..]);
    }
  }

  /** The same for a queue that starts empty. */
  lemma EmptyQueueRefinesFifoLanes(ops: seq<Op>)
    requires Run(Queue([], 0), ops).0.counter <= COUNTER_LIMIT
    ensures var (q, seen) := Run(Queue([], 0), ops); var (l, lseen) := LaneRun(Lanes([], [], []), ops);
            seen == lseen && Members(q.pending) == Order(l) && |q.pending| <= GLOBAL_QUEUE_CAP
  {
    RunRefinesFifoLanes(Queue([], 0), ops);
  }

  /** One arrival number further the order breaks: a bootstrapper job can leave before a partner job. */
  lemma PriorityFailsPastTheLimit()
    ensures var q := Queue([Entry("a", ScoreOf(0, 1))], COUNTER_LIMIT);
            && Ranked(q)
            && Dequeued(Enqueued(q, "b", "partner").0).1 == Some("a")
            && LanesOf(q) == Lanes([], [], ["a"])
            && LaneStep(LaneStep(LanesOf(q), OpEnqueue("b", "partner")).0, OpDequeue).1 == SawPopped(Some("b"))
  {
    var e, f := Entry("a", ScoreOf(0, 1)), Entry("b", ScoreOf(2, COUNTER_LIMIT + 1));
    var q := Queue([e], COUNTER_LIMIT);
    assert [e][1..] == [];
    assert ClassOf(e.score) == 0 by { ScoreRoundTrip(0, 1); }
    assert Lane([], 5) == Lane([], 2) == Lane([], 0) == [];
    assert Lane([e], 5) == Lane([e], 2) == [] && Lane([e], 0) == ["a"];
    assert Without([e], "b") == [e];
    assert !Precedes(f, e) && Insert([], f) == [f];
    assert Insert([e], f) == [e] + [f];
    assert Drop(["a"], "b") == ["a"] by { assert ["a"][1..] == []; }
    assert LaneRemove(LanesOf(q), "b") == LanesOf(q);
  }

  // ---------- Positions ----------

  function DequeueTimes(q: Queue, n: nat): Queue {
    if n == 0 then q else Dequeued(DequeueTimes(q, n - 1)).0
  }

  lemma {:induction false} DequeueTimesIsSuffix(q: Queue, n: nat)
    requires n <= |q.pending|
    ensures DequeueTimes(q, n).pending == q.pending[n..]
  {
    if n > 0 {
      DequeueTimesIsSuffix(q, n - 1);
    }
  }

  /** The reported position is the number of dequeues after which the job comes out. */
  lemma PositionCountsDequeues(q: Queue, job: JobId, n: nat)
    requires Tidy(q) && n > 0
    ensures Position(q, job) == n <==> n <= |q.pending| && Dequeued(DequeueTimes(q, n - 1)).1 == Some(job)
    ensures Position(q, job) == 0 <==> job !in Jobs(q)
  {
    if n <= |q.pending| {
      DequeueTimesIsSuffix(q, n - 1);
    }
  }

  // ---------- The manager over Redis ----------

  class QueueManager {
    const redis: Redis

    constructor (redis: Redis)
      ensures this.redis == redis
    {
      this.redis := redis;
    }

    method Enqueue(job: JobId, tier: string) returns (r: EnqueueResult)
      modifies redis
      ensures r == Enqueued(old(redis.db).queue, job, tier).1
      ensures r.Accepted? ==>
                r.score == (if tier == "cto_scale" then 995 else if tier == "partner" then 998 else 1000)
                           * 1_000_000_000_000 + redis.db.queue.counter
      ensures redis.db == old(redis.db).(queue := Enqueued(old(redis.db).queue, job, tier).0)
    {
      var length := redis.Zcard();
      if length >= GLOBAL_QUEUE_CAP {
        var retryMinutes := (length - GLOBAL_QUEUE_CAP + 1) * 2 / 5;
        return Rejected(Max(1, retryMinutes));
      }
      var counter := redis.Incr();
      var score := (1000 - Boost(tier)) * TIER_STRIDE + counter;
      redis.Zadd(job, score);
      var position := GetPosition(job);
      return Accepted(position, score);
    }

    method Dequeue() returns (popped: Option<JobId>)
      modifies redis
      ensures popped == Dequeued(old(redis.db).queue).1
      ensures redis.db == old(redis.db).(queue := Dequeued(old(redis.db).queue).0)
    {
      var entry := redis.Zpopmin();
      match entry
      case None => popped := None;
      case Some(e) => popped := Some(e.member);
    }

    method GetPosition(job: JobId) returns (position: nat)
      ensures position == Position(redis.db.queue, job)
    {
      var rank := redis.Zrank(job);
      position := if rank.Some? then rank.value + 1 else 0;
    }

    method GetLength() returns (n: nat)
      ensures n == |redis.db.queue.pending|
    {
      n := redis.Zcard();
    }

    method Remove(job: JobId)
      modifies redis
      ensures redis.db == old(redis.db).(queue := Removed(old(redis.db).queue, job))
    {
      redis.Zrem(job);
    }
  }
}
