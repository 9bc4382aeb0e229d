/** How many builds of one user or project run at once, however processes interleave. */
module ProtocolLimits {
  import opened Common
  import opened QueueSchemas
  import opened RedisStore
  import opened Semaphores
  import opened Worker
  import opened WorkerProtocol

  function LimitOf(job: Job, k: SemKey): nat {
    if k.UserKey? then UserLimit(job.tier) else ProjectLimit(job.tier)
  }

  predicate Concerns(job: Job, k: SemKey) {
    match k
    case UserKey(u) => job.userId == u
    case ProjectKey(p) => job.projectId == p
  }

  ghost predicate LimitsAtMost(s: State, k: SemKey, limit: nat) {
    forall id :: id in s.db.jobs && Concerns(s.db.jobs[id], k) ==> LimitOf(s.db.jobs[id], k) <= limit
  }

  lemma LimitsGoBack(s: State, t: State, k: SemKey, limit: nat)
    requires Grows(s, t) && LimitsAtMost(t, k, limit)
    ensures LimitsAtMost(s, k, limit)
  {
    forall id | id in s.db.jobs && Concerns(s.db.jobs[id], k) ensures LimitOf(s.db.jobs[id], k) <= limit {
      assert Concerns(t.db.jobs[id], k);
    }
  }

  /** The semaphore event an action amounts to. */
  function EventOf(s: State, a: Action): seq<Event> {
    match a
    case TakeUser(id) =>
      if InPhase(s, id, Claimed)
      then [EvAcquire(UserSlot(s.db.jobs[id], id), UserLimit(s.db.jobs[id].tier))] else []
    case TakeProject(id) =>
      if InPhase(s, id, UserHeld)
      then [EvAcquire(ProjectSlot(s.db.jobs[id], id), ProjectLimit(s.db.jobs[id].tier))] else []
    case _ => []
  }

  lemma StepKeepsLimit(s: State, a: Action, k: SemKey, limit: nat)
    requires |Holders(s.db.sems, k)| <= limit && LimitsAtMost(s, k, limit)
    ensures |Holders(Acted(s, a).db.sems, k)| <= limit
  {
    if EventOf(s, a) != [] {
      var e := EventOf(s, a)[0];
      assert Acted(s, a).db.sems == Apply(s.db.sems, e);
      assert e.slot.key == k ==> Concerns(s.db.jobs[e.slot.job], k);
      ApplyKeepsLimit(s.db.sems, e, k, limit);
    } else {
      assert Acted(s, a).db.sems.slots <= s.db.sems.slots;
      SubsetSize(Holders(Acted(s, a).db.sems, k), Holders(s.db.sems, k));
    }
  }

  lemma {:induction false} LimitHoldsOverRun(s: State, actions: seq<Action>, k: SemKey, limit: nat)
    requires |Holders(s.db.sems, k)| <= limit && LimitsAtMost(RunOf(s, actions), k, limit)
    ensures |Holders(RunOf(s, actions).db.sems, k)| <= limit
    decreases |actions|
  {
    if actions != [] {
      RunGrows(s, actions);
      LimitsGoBack(s, RunOf(s, actions), k, limit);
      StepKeepsLimit(s, actions[0], k, limit);
      LimitHoldsOverRun(Acted(s, actions[0]), actions[1..], k, limit);
    }
  }

  /** The jobs of one user, or of one project, that are being built at this moment. */
  function BuildsNow(s: State, k: SemKey): set<JobId> {
    set id | id in s.flight && s.flight[id].Building? && id in s.db.jobs && Concerns(s.db.jobs[id], k)
  }

  /** However workers interleave, a user or project never has more builds running than its tier allows. */
  lemma ConcurrentBuildsWithinLimit(s: State, actions: seq<Action>, k: SemKey, limit: nat)
    requires Inv(s) && |Holders(s.db.sems, k)| <= limit && LimitsAtMost(RunOf(s, actions), k, limit)
    ensures |BuildsNow(RunOf(s, actions), k)| <= limit
  {
    var t := RunOf(s, actions);
    LostExactlyWhenDropped(s, actions);
    LimitHoldsOverRun(s, actions, k, limit);
    forall id | id in BuildsNow(t, k) ensures id in Holders(t.db.sems, k) {
      assert SlotFits(t, Slot(k, id));
    }
    SubsetSize(BuildsNow(t, k), Holders(t.db.sems, k));
  }
}
