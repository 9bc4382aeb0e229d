/** The job state machine: the transition table, guarded transitions, and its histories. */
module JobLifecycle {
  import opened Common
  import opened QueueSchemas
  import opened RedisStore

  function Successors(s: JobStatus): set<JobStatus> {
    match s
    case Queued => {Starting, Scheduled, Failed}
    case Starting => {Scaffold, Failed}
    case Scaffold => {Code, Failed}
    case Code => {Deps, Failed}
    case Deps => {Checks, Failed}
    case Checks => {Ready, Scaffold, Failed}
    case Ready => {}
    case Failed => {}
    case Scheduled => {Queued}
  }

  predicate Terminal(s: JobStatus) {
    s == Ready || s == Failed
  }

  function Transitioned(jobs: map<JobId, Job>, id: JobId, to: JobStatus): (map<JobId, Job>, bool) {
    if id !in jobs || to !in Successors(jobs[id].status) then (jobs, false)
    else (jobs[id := jobs[id].(status := to)], true)
  }

  // ---------- Histories ----------

  /** The statuses a job passes through while transitions are attempted, refused ones left out. */
  function History(s: JobStatus, attempts: seq<JobStatus>): (h: seq<JobStatus>)
    ensures h != [] && h[0] == s
    decreases |attempts|
  {
    if attempts == [] then [s]
    else if attempts[0] in Successors(s) then [s] + History(attempts[0], attempts[1..])
    else History(s, attempts[1..])
  }

  function Attempted(jobs: map<JobId, Job>, id: JobId, attempts: seq<JobStatus>): map<JobId, Job>
    decreases |attempts|
  {
    if attempts == [] then jobs
    else Attempted(Transitioned(jobs, id, attempts[0]).0, id, attempts[1..])
  }

  ghost predicate Legal(p: seq<JobStatus>) {
    && p != []
    && (forall i :: 0 <= i < |p| - 1 ==> p[i + 1] in Successors(p[i]))
  }

  lemma {:induction false} HistoryIsLegal(s: JobStatus, attempts: seq<JobStatus>)
    ensures Legal(History(s, attempts))
    ensures Terminal(s) ==> History(s, attempts) == [s]
    decreases |attempts|
  {
    if attempts != [] {
      if attempts[0] in Successors(s) {
        HistoryIsLegal(attempts[0], attempts[1..]);
      } else {
        HistoryIsLegal(s, attempts[1..]);
      }
    }
  }

  /** Whatever transitions are attempted, the stored status is the end of a path in the table. */
  lemma {:induction false} StoredStatusEndsItsHistory(jobs: map<JobId, Job>, id: JobId, attempts: seq<JobStatus>)
    requires id in jobs
    ensures var h := History(jobs[id].status, attempts); var after := Attempted(jobs, id, attempts);
            && after.Keys == jobs.Keys
            && after[id] == jobs[id].(status := h[|h| - 1])
            && (forall other :: other in jobs && other != id ==> after[other] == jobs[other])
    decreases |attempts|
  {
    if attempts != [] {
      var jobs' := Transitioned(jobs, id, attempts[0]).0;
      StoredStatusEndsItsHistory(jobs', id, attempts[1..]);
    }
  }

  // ---------- Exactly which histories reach READY ----------

  /** The job is put off to the next day and brought back, d times. */
  function Deferrals(d: nat): seq<JobStatus> {
    if d == 0 then [] else [Scheduled, Queued] + Deferrals(d - 1)
  }

  /** The build stages, run n times; each rerun starts again from SCAFFOLD. */
  function Builds(n: nat): seq<JobStatus> {
    if n == 0 then [] else [Scaffold, Code, Deps, Checks] + Builds(n - 1)
  }

  function LifeToReady(d: nat, retries: nat): seq<JobStatus> {
    [Queued] + Deferrals(d) + [Starting] + Builds(retries + 1) + [Ready]
  }

  lemma LegalTail(p: seq<JobStatus>, n: nat)
    requires Legal(p) && n < |p|
    ensures Legal(p[n..])
  {
    var t := p[n..];
    forall i | 0 <= i < |t| - 1 ensures t[i + 1] in Successors(t[i]) {
      assert t[i] == p[n + i] && t[i + 1] == p[n + i + 1];
    }
  }

  lemma LegalStep(p: seq<JobStatus>, i: nat)
    requires Legal(p) && i + 1 < |p|
    ensures p[i + 1] in Successors(p[i])
  {
  }

  /** READY and FAILED end every history they occur in. */
  lemma TerminalIsLast(p: seq<JobStatus>, i: nat)
    requires Legal(p) && i < |p| && Terminal(p[i])
    ensures i == |p| - 1
  {
    if i + 1 < |p| { LegalStep(p, i); }
  }

  /** A status that is not the last one has a successor in the history. */
  lemma Next(p: seq<JobStatus>, i: nat)
    requires Legal(p) && i < |p| && p[|p| - 1] == Ready && p[i] != Ready
    ensures i + 1 < |p| && p[i + 1] in Successors(p[i]) && p[i + 1] != Failed
  {
    if p[i + 1] == Failed { TerminalIsLast(p, i + 1); }
  }

  lemma {:induction false} ParseBuilds(p: seq<JobStatus>) returns (retries: nat)
    requires Legal(p) && p[0] == Scaffold && p[|p| - 1] == Ready
    ensures p == Builds(retries + 1) + [Ready]
    decreases |p|
  {
    Next(p, 0);
    Next(p, 1);
    Next(p, 2);
    Next(p, 3);
    LegalTail(p, 4);
    assert p == [Scaffold, Code, Deps, Checks] + p[4..];
    if p[4] == Ready {
      TerminalIsLast(p, 4);
      retries := 0;
      assert Builds(1) == [Scaffold, Code, Deps, Checks] + Builds(0);
    } else {
      var r := ParseBuilds(p[4..]);
      retries := r + 1;
      assert Builds(retries + 1) == [Scaffold, Code, Deps, Checks] + Builds(r + 1);
    }
  }

  /** A queued job is either put off and queued again, or started for its first build. */
  lemma FirstTwo(p: seq<JobStatus>)
    requires Legal(p) && p[0] == Queued && p[|p| - 1] == Ready
    ensures |p| > 2 && Legal(p[2..]) && p[2..][|p| - 3] == Ready
    ensures || (p == [Queued, Scheduled] + p[2..] && p[2] == Queued)
            || (p == [Queued, Starting] + p[2..] && p[2] == Scaffold)
  {
    Next(p, 0);
    Next(p, 1);
    LegalTail(p, 2);
  }

  lemma {:induction false} ParseLife(p: seq<JobStatus>) returns (d: nat, retries: nat)
    requires Legal(p) && p[0] == Queued && p[|p| - 1] == Ready
    ensures p == LifeToReady(d, retries)
    decreases |p|
  {
    FirstTwo(p);
    if p[2] == Queued {
      d, retries := ParseLife(p[2..]);
      LifeUnfold(d, retries);
      d := d + 1;
    } else {
      d := 0;
      retries := ParseBuilds(p[2..]);
      LifeStart(retries);
    }
  }

  lemma LifeUnfold(d: nat, retries: nat)
    ensures LifeToReady(d + 1, retries) == [Queued, Scheduled] + LifeToReady(d, retries)
  {
    assert Deferrals(d + 1) == [Scheduled, Queued] + Deferrals(d);
  }

  lemma LifeStart(retries: nat)
    ensures LifeToReady(0, retries) == [Queued, Starting] + (Builds(retries + 1) + [Ready])
  {
  }

  lemma LegalConcat(a: seq<JobStatus>, b: seq<JobStatus>)
    requires Legal(a) && Legal(b) && b[0] in Successors(a[|a| - 1])
    ensures Legal(a + b)
  {
    var p := a + b;
    forall i | 0 <= i < |p| - 1 ensures p[i + 1] in Successors(p[i]) {
      if i < |a| - 1 { LegalStep(a, i); }
      if i >= |a| { LegalStep(b, i - |a|); }
    }
  }

  lemma {:induction false} BuildsLegal(n: nat)
    ensures Legal(Builds(n + 1) + [Ready]) && (Builds(n + 1) + [Ready])[0] == Scaffold
  {
    var once := [Scaffold, Code, Deps, Checks];
    if n == 0 {
      LegalConcat(once, [Ready]);
      assert Builds(1) == once + Builds(0) == once;
    } else {
      BuildsLegal(n - 1);
      LegalConcat(once, Builds(n) + [Ready]);
      assert Builds(n + 1) + [Ready] == once + (Builds(n) + [Ready]);
    }
  }

  lemma LegalFrom(a: JobStatus, b: JobStatus, p: seq<JobStatus>)
    requires Legal(p) && b in Successors(a) && p[0] in Successors(b)
    ensures Legal([a, b] + p)
  {
    LegalConcat([a, b], p);
  }

  lemma {:induction false} LifeLegal(d: nat, retries: nat)
    ensures Legal(LifeToReady(d, retries))
  {
    if d == 0 {
      BuildsLegal(retries);
      LifeStart(retries);
      LegalFrom(Queued, Starting, Builds(retries + 1) + [Ready]);
    } else {
      LifeLegal(d - 1, retries);
      LifeUnfold(d - 1, retries);
      assert LifeToReady(d - 1, retries)[0] == Queued;
      LegalFrom(Queued, Scheduled, LifeToReady(d - 1, retries));
    }
  }

  /** A sequence of statuses is a history from creation to READY iff it has this shape. */
  lemma ReadyHistoriesExactly(p: seq<JobStatus>)
    ensures Legal(p) && p[0] == Queued && p[|p| - 1] == Ready
            <==> exists d: nat, retries: nat :: p == LifeToReady(d, retries)
  {
    if Legal(p) && p[0] == Queued && p[|p| - 1] == Ready {
      var d, retries := ParseLife(p);
    }
    forall d: nat, retries: nat | p == LifeToReady(d, retries)
      ensures Legal(p) && p[0] == Queued && p[|p| - 1] == Ready
    {
      LifeLegal(d, retries);
    }
  }

  lemma {:induction false} BuildsEnd(n: nat)
    requires n > 0
    ensures |Builds(n)| >= 4 && Builds(n)[|Builds(n)| - 4..] == [Scaffold, Code, Deps, Checks]
  {
    if n == 1 {
      assert Builds(1) == [Scaffold, Code, Deps, Checks] + Builds(0);
    } else {
      BuildsEnd(n - 1);
    }
  }

  /** No job is READY without a complete last run of the four build stages. */
  lemma ReadyEndsWithFullBuild(p: seq<JobStatus>)
    requires Legal(p) && p[0] == Queued && p[|p| - 1] == Ready
    ensures |p| >= 7 && p[|p| - 5..] == [Scaffold, Code, Deps, Checks, Ready]
  {
    var d, retries := ParseLife(p);
    BuildsEnd(retries + 1);
    var head := [Queued] + Deferrals(d) + [Starting];
    assert p == head + Builds(retries + 1) + [Ready];
    assert p[|p| - 5..] == Builds(retries + 1)[|Builds(retries + 1)| - 4..] + [Ready];
  }

  // ---------- The machine over Redis ----------

  class JobStateMachine {
    const redis: Redis

    constructor (redis: Redis)
      ensures this.redis == redis
    {
      this.redis := redis;
    }

    method CreateJob(id: JobId, userId: string, projectId: string, tier: string)
      modifies redis
      ensures redis.db == old(redis.db).(jobs := old(redis.db).jobs[id := Job(Queued, userId, projectId, tier)])
    {
      redis.HsetJob(id, Job(Queued, userId, projectId, tier));
    }

    method Transition(id: JobId, to: JobStatus) returns (ok: bool)
      modifies redis
      ensures ok == Transitioned(old(redis.db).jobs, id, to).1
      ensures redis.db == old(redis.db).(jobs := Transitioned(old(redis.db).jobs, id, to).0)
    {
      var current := redis.HgetStatus(id);
      if current.None? {
        return false;
      }
      if to !in Successors(current.value) {
        return false;
      }
      redis.HsetStatus(id, to);
      return true;
    }

    method GetStatus(id: JobId) returns (status: Option<JobStatus>)
      ensures status == if id in redis.db.jobs then Some(redis.db.jobs[id].status) else None
    {
      status := redis.HgetStatus(id);
    }

    method GetJob(id: JobId) returns (job: Option<Job>)
      ensures job == if id in redis.db.jobs then Some(redis.db.jobs[id]) else None
    {
      job := redis.Hgetall(id);
    }
  }
}
