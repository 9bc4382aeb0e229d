/** A run of the protocol that loses a job without any fault: the race the ignored answer allows. */
module LossWitness {
  import opened QueueSchemas
  import opened RedisStore
  import opened JobQueue
  import opened Semaphores
  import opened Worker
  import opened WorkerProtocol

  /** `n` requests, one after the other, that create a job and enqueue it. */
  function Requests(arrivals: seq<JobId>): seq<Action> {
    if arrivals == [] then []
    else Requests(arrivals[..|arrivals| - 1])
         + [Create(arrivals[|arrivals| - 1], "u", "p", "partner"), FirstEnqueue(arrivals[|arrivals| - 1])]
  }

  ghost predicate Fresh(s: State, ids: seq<JobId>) {
    && (forall i, j :: 0 <= i < j < |ids| ==> ids[i] != ids[j])
    && (forall id :: id in ids ==> id !in s.db.jobs)
  }

  /** `t` is `s` with jobs of new ids added, all of them queued; nobody else is touched. */
  ghost predicate Filled(s: State, t: State, arrivals: seq<JobId>) {
    && Inv(t) && |t.db.queue.pending| == |s.db.queue.pending| + |arrivals|
    && t.flight == s.flight && t.db.sems == s.db.sems
    && (forall id :: id in s.db.jobs ==> id in t.db.jobs && t.db.jobs[id] == s.db.jobs[id])
    && (forall id :: id in t.db.jobs ==> id in s.db.jobs || id in arrivals)
    && (forall id :: id in arrivals ==> id in t.db.jobs && t.db.jobs[id] == Job(Queued, "u", "p", "partner"))
  }

  lemma OneRequest(s: State, id: JobId)
    requires Inv(s) && id !in s.db.jobs && |s.db.queue.pending| < GLOBAL_QUEUE_CAP
    ensures Filled(s, RunOf(s, [Create(id, "u", "p", "partner"), FirstEnqueue(id)]), [id])
  {
    var a, b := Create(id, "u", "p", "partner"), FirstEnqueue(id);
    RunTwo(s, a, b);
    EveryStepFits(s, a);
    assert id !in s.flight && id !in Jobs(s.db.queue);
    var u := Acted(s, a);
    assert InPhase(u, id, Submitting);
    EveryStepFits(u, b);
    EnqueueTidy(u.db.queue, id, "partner");
    assert u.flight - {id} == s.flight;
  }

  lemma {:induction false} RequestsFillTheQueue(s: State, arrivals: seq<JobId>)
    requires Inv(s) && Fresh(s, arrivals) && |s.db.queue.pending| + |arrivals| <= GLOBAL_QUEUE_CAP
    ensures Filled(s, RunOf(s, Requests(arrivals)), arrivals)
  {
    if arrivals != [] {
      var n := |arrivals| - 1;
      var id := arrivals[n];
      assert id in arrivals && id !in arrivals[..n];
      RequestsFillTheQueue(s, arrivals[..n]);
      var t := RunOf(s, Requests(arrivals[..n]));
      RunAppend(s, Requests(arrivals[..n]), [Create(id, "u", "p", "partner"), FirstEnqueue(id)]);
      OneRequest(t, id);
    }
  }

  /**
   A worker has dequeued `id`, its user is at the limit, and enough requests arrive to fill the
   queue before the worker puts the job back.
   */
  lemma RequeueCanLoseAJob(s: State, id: JobId, arrivals: seq<JobId>) returns (actions: seq<Action>)
    requires Inv(s) && InPhase(s, id, Claimed) && s.db.jobs[id].status == Queued
    requires |Holders(s.db.sems, UserKey(s.db.jobs[id].userId))| >= UserLimit(s.db.jobs[id].tier)
    requires Fresh(s, arrivals) && |arrivals| == GLOBAL_QUEUE_CAP - |s.db.queue.pending|
    ensures actions == Requests(arrivals) + [TakeUser(id), Requeue(id)]
    ensures Stranded(RunOf(s, actions), id)
  {
    var last := [TakeUser(id), Requeue(id)];
    actions := Requests(arrivals) + last;
    RequestsFillTheQueue(s, arrivals);
    RunAppend(s, Requests(arrivals), last);
    var t := RunOf(s, Requests(arrivals));
    assert InPhase(t, id, Claimed);
    RunTwo(t, TakeUser(id), Requeue(id));
    RefusedTwice(t, id);
  }

  lemma RefusedTwice(t: State, id: JobId)
    requires Inv(t) && InPhase(t, id, Claimed) && t.db.jobs[id].status == Queued
    requires |Holders(t.db.sems, UserKey(t.db.jobs[id].userId))| >= UserLimit(t.db.jobs[id].tier)
    requires |t.db.queue.pending| == GLOBAL_QUEUE_CAP
    ensures Stranded(Acted(Acted(t, TakeUser(id)), Requeue(id)), id)
  {
    var u := t.(flight := t.flight[id := Requeueing]);
    assert Taken(t, id, true) == u;
    assert Acted(t, TakeUser(id)) == u;
    assert id !in Jobs(t.db.queue);
    RefusedRequeue(u, id);
  }

  lemma RefusedRequeue(u: State, id: JobId)
    requires InPhase(u, id, Requeueing) && Unsettled(u, id) && id !in Jobs(u.db.queue)
    requires |u.db.queue.pending| == GLOBAL_QUEUE_CAP
    ensures Stranded(Acted(u, Requeue(id)), id)
  {
    assert Acted(u, Requeue(id)) == Put(u, id) == u.(flight := u.flight - {id});
  }

  // ---------- From the empty system ----------

  /** Everybody is the same user, within the limit of three. */
  ghost predicate Alike(s: State) {
    forall id :: id in s.db.jobs ==> s.db.jobs[id] == Job(Queued, "u", "p", "partner")
  }

  lemma TakesASlot(c: State, id: JobId)
    requires Inv(c) && InPhase(c, id, Claimed) && c.db.jobs[id] == Job(Queued, "u", "p", "partner")
    requires |Holders(c.db.sems, UserKey("u"))| < 3
    ensures var t := Acted(c, TakeUser(id));
            && t.db.jobs == c.db.jobs && t.db.queue == c.db.queue
            && |Holders(t.db.sems, UserKey("u"))| == |Holders(c.db.sems, UserKey("u"))| + 1
  {
    var slot := UserSlot(c.db.jobs[id], id);
    assert !SlotFits(c, slot);
    assert Acted(c, TakeUser(id)) == Taken(c, id, true);
    HoldersAfterAcquire(c.db.sems, slot, 3, UserKey("u"));
  }

  /** A worker claims the next job and takes a slot for it. */
  lemma OneMoreHolder(s: State) returns (id: JobId)
    requires Inv(s) && Alike(s) && s.db.queue.pending != [] && |Holders(s.db.sems, UserKey("u"))| < 3
    ensures var t := Acted(Acted(s, Claim), TakeUser(id));
            && Inv(t) && t.db.jobs == s.db.jobs && |t.db.queue.pending| == |s.db.queue.pending| - 1
            && |Holders(t.db.sems, UserKey("u"))| == |Holders(s.db.sems, UserKey("u"))| + 1
  {
    id := NextClaimed(s);
    EveryStepFits(s, Claim);
    EveryStepFits(Acted(s, Claim), TakeUser(id));
    TakesASlot(Acted(s, Claim), id);
  }

  lemma NextClaimed(s: State) returns (id: JobId)
    requires Inv(s) && Alike(s) && s.db.queue.pending != []
    ensures var t := Acted(s, Claim);
            && InPhase(t, id, Claimed) && t.db.jobs == s.db.jobs && t.db.sems == s.db.sems
            && t.db.jobs[id] == Job(Queued, "u", "p", "partner")
            && |t.db.queue.pending| == |s.db.queue.pending| - 1
  {
    id := s.db.queue.pending[0].member;
    DequeueTidy(s.db.queue);
  }

  /** Distinct names, each longer than one character. */
  function Names(n: nat): seq<JobId> {
    seq(n, i requires 0 <= i < n => seq(i + 2, _ => 'x'))
  }

  lemma NamesAreFresh(s: State, n: nat)
    requires forall id :: id in s.db.jobs ==> |id| == 1
    ensures Fresh(s, Names(n))
  {
    forall i, j | 0 <= i < j < n ensures Names(n)[i] != Names(n)[j] {
      assert |Names(n)[i]| == i + 2 && |Names(n)[j]| == j + 2;
    }
    forall id | id in Names(n) ensures id !in s.db.jobs {
      var i :| 0 <= i < n && Names(n)[i] == id;
      assert |id| == i + 2;
    }
  }

  ghost predicate Orderly(actions: seq<Action>) {
    forall a :: a in actions ==> !Disturbs(a) && !a.Abort?
  }

  /** Of four jobs of one user, `n` in hands with slots and the others queued. */
  ghost predicate Holding(s: State, n: nat) {
    && Inv(s) && Alike(s) && (forall x :: x in s.db.jobs ==> |x| == 1)
    && |Holders(s.db.sems, UserKey("u"))| == n && n + |s.db.queue.pending| == 4
  }

  lemma FourQueued(now: int) returns (actions: seq<Action>)
    ensures Holding(RunOf(EmptySystem(now), actions), 0) && Orderly(actions)
  {
    var four := ["a", "b", "c", "d"];
    actions := Requests(four);
    EmptySystemIsSound(now);
    RequestsFillTheQueue(EmptySystem(now), four);
    RequestsAreOrderly(four);
    assert Holders(EmptySystem(now).db.sems, UserKey("u")) == {};
  }

  lemma {:induction false} SomeHolding(now: int, n: nat) returns (actions: seq<Action>)
    requires n <= 3
    ensures Holding(RunOf(EmptySystem(now), actions), n) && Orderly(actions)
  {
    if n == 0 {
      actions := FourQueued(now);
    } else {
      var before := SomeHolding(now, n - 1);
      var s := RunOf(EmptySystem(now), before);
      var id := OneMoreHolder(s);
      RunAppend(EmptySystem(now), before, [Claim, TakeUser(id)]);
      RunTwo(s, Claim, TakeUser(id));
      actions := before + [Claim, TakeUser(id)];
    }
  }

  /** Three of the four in hands with slots, and the last one claimed. */
  lemma FourClaimed(now: int) returns (actions: seq<Action>, id: JobId)
    ensures var s := RunOf(EmptySystem(now), actions);
            && Inv(s) && InPhase(s, id, Claimed) && s.db.jobs[id] == Job(Queued, "u", "p", "partner")
            && |Holders(s.db.sems, UserKey("u"))| == 3 && s.db.queue.pending == []
            && (forall x :: x in s.db.jobs ==> |x| == 1)
    ensures Orderly(actions)
  {
    var before := SomeHolding(now, 3);
    var s := RunOf(EmptySystem(now), before);
    id := NextClaimed(s);
    EveryStepFits(s, Claim);
    RunAppend(EmptySystem(now), before, [Claim]);
    RunOne(s, Claim);
    actions := before + [Claim];
  }

  lemma {:induction false} RequestsAreOrderly(arrivals: seq<JobId>)
    ensures forall a :: a in Requests(arrivals) ==> a.Create? || a.FirstEnqueue?
  {
    if arrivals != [] { RequestsAreOrderly(arrivals[..|arrivals| - 1]); }
  }

  /**
   The witness that the system as it starts can lose a job, with nobody interrupted, crashed
   or cancelled: only by the re-enqueue whose refusal the worker ignores.
   */
  lemma EmptySystemCanLoseAJob(now: int) returns (actions: seq<Action>, id: JobId)
    ensures Stranded(RunOf(EmptySystem(now), actions), id) && Orderly(actions)
  {
    var before: seq<Action>;
    before, id := FourClaimed(now);
    var after := LossAfter(RunOf(EmptySystem(now), before), id);
    RunAppend(EmptySystem(now), before, after);
    actions := before + after;
  }

  lemma LossAfter(s: State, id: JobId) returns (actions: seq<Action>)
    requires Inv(s) && InPhase(s, id, Claimed) && s.db.jobs[id] == Job(Queued, "u", "p", "partner")
    requires |Holders(s.db.sems, UserKey("u"))| == 3 && s.db.queue.pending == []
    requires forall x :: x in s.db.jobs ==> |x| == 1
    ensures Stranded(RunOf(s, actions), id) && Orderly(actions)
  {
    var arrivals := Arrivals(s, GLOBAL_QUEUE_CAP);
    actions := OrderlyLoss(s, id, arrivals);
  }

  lemma Arrivals(s: State, n: nat) returns (arrivals: seq<JobId>)
    requires forall id :: id in s.db.jobs ==> |id| == 1
    ensures Fresh(s, arrivals) && |arrivals| == n
  {
    NamesAreFresh(s, n);
    arrivals := Names(n);
  }

  lemma OrderlyLoss(s: State, id: JobId, arrivals: seq<JobId>) returns (actions: seq<Action>)
    requires Inv(s) && InPhase(s, id, Claimed) && s.db.jobs[id].status == Queued
    requires |Holders(s.db.sems, UserKey(s.db.jobs[id].userId))| >= UserLimit(s.db.jobs[id].tier)
    requires Fresh(s, arrivals) && |arrivals| == GLOBAL_QUEUE_CAP - |s.db.queue.pending|
    ensures Stranded(RunOf(s, actions), id) && Orderly(actions)
  {
    actions := RequeueCanLoseAJob(s, id, arrivals);
    RequestsAreOrderly(arrivals);
  }
}
