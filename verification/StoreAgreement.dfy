/**
 The rows of the jobs table against the statuses of the job hashes, over any interleaving: a
 row is written once, and exactly two histories make it disagree with the hash for ever.
 */
module StoreAgreement {
  import opened QueueSchemas
  import opened JobQueue
  import opened JobLifecycle
  import opened GenerationPipeline
  import opened WorkerProtocol

  /** An exception that finds the job READY already. */
  function LateFault(s: State, a: Action): set<JobId> {
    match a
    case Fail(id) => if CanFail(s, id) && s.db.jobs[id].status == Ready then {id} else {}
    case _ => {}
  }

  function LateFaults(s: State, actions: seq<Action>): set<JobId>
    decreases |actions|
  {
    if actions == [] then {} else LateFault(s, actions[0]) + LateFaults(Acted(s, actions[0]), actions[1..])
  }

  // ---------- What the history says about a row ----------

  /** No worker has settled the job: it is FAILED exactly if its user cancelled it. */
  predicate Untouched(s: State, id: JobId, aborted: bool, late: bool) {
    && id in s.db.jobs && id !in s.rows && !late
    && (s.db.jobs[id].status == Failed <==> aborted)
  }

  /** A READY row disagrees exactly after a cancellation, a FAILED one exactly after a late fault. */
  predicate RowSays(s: State, id: JobId, aborted: bool, late: bool) {
    id in s.rows ==>
      && id in s.db.jobs && Terminal(s.db.jobs[id].status) && Terminal(s.rows[id])
      && (s.rows[id] == Ready ==> (s.db.jobs[id].status == Failed <==> aborted))
      && (s.rows[id] == Failed ==> (s.db.jobs[id].status == Ready <==> late))
  }

  predicate PhaseSays(s: State, id: JobId, p: Phase, aborted: bool, late: bool) {
    id in s.db.jobs &&
    match p
    case Crashed(_) => true
    case Releasing => true
    case HalfReleased => true
    case Archiving => !late && (s.db.jobs[id].status == Failed <==> aborted)
    case Writing(row) =>
      if row == Ready then Untouched(s, id, aborted, late) else (s.db.jobs[id].status == Ready <==> late)
    case _ => Untouched(s, id, aborted, late)
  }

  ghost predicate RowFits(s: State, id: JobId, aborted: bool, late: bool) {
    && RowSays(s, id, aborted, late)
    && (id !in s.db.jobs ==> !aborted && !late)
    && (id in Jobs(s.db.queue) ==> Untouched(s, id, aborted, late))
    && (id in s.db.jobs && s.db.jobs[id].status == Scheduled ==> Untouched(s, id, aborted, late))
    && (id in s.flight ==> PhaseSays(s, id, s.flight[id], aborted, late))
  }

  // ---------- One action ----------

  /** The job an action is about. */
  function Touched(s: State, a: Action): set<JobId> {
    match a
    case Claim => if s.db.queue.pending == [] then {} else {s.db.queue.pending[0].member}
    case Tick(_) => {}
    case _ => {a.id}
  }

  ghost predicate SameFor(s: State, t: State, id: JobId) {
    && (id in t.db.jobs <==> id in s.db.jobs) && (id in s.db.jobs ==> t.db.jobs[id] == s.db.jobs[id])
    && (id in t.rows <==> id in s.rows) && (id in s.rows ==> t.rows[id] == s.rows[id])
    && (id in t.flight <==> id in s.flight) && (id in s.flight ==> t.flight[id] == s.flight[id])
    && (id in Jobs(t.db.queue) <==> id in Jobs(s.db.queue))
  }

  lemma SameFits(s: State, t: State, id: JobId, aborted: bool, late: bool)
    requires SameFor(s, t, id) && RowFits(s, id, aborted, late)
    ensures RowFits(t, id, aborted, late)
  {
  }

  predicate Enqueues(a: Action) {
    a.FirstEnqueue? || a.Requeue? || a.PromoteEnqueue?
  }

  lemma EnqueuesElsewhere(s: State, a: Action, id: JobId)
    requires Inv(s) && Enqueues(a) && id != a.id
    ensures id in Jobs(Acted(s, a).db.queue) <==> id in Jobs(s.db.queue)
  {
    if a.id in s.db.jobs { EnqueueTidy(s.db.queue, a.id, s.db.jobs[a.id].tier); }
  }

  lemma QueueElsewhere(s: State, a: Action, id: JobId)
    requires Inv(s) && id !in Touched(s, a)
    ensures id in Jobs(Acted(s, a).db.queue) <==> id in Jobs(s.db.queue)
  {
    if Enqueues(a) {
      EnqueuesElsewhere(s, a, id);
    } else if a.Claim? {
      DequeueTidy(s.db.queue);
    }
  }

  lemma FlightElsewhere(s: State, a: Action, id: JobId)
    requires id !in Touched(s, a)
    ensures id in Acted(s, a).flight <==> id in s.flight
    ensures id in s.flight ==> Acted(s, a).flight[id] == s.flight[id]
    ensures id in Acted(s, a).rows <==> id in s.rows
    ensures id in s.rows ==> Acted(s, a).rows[id] == s.rows[id]
  {
  }

  lemma Elsewhere(s: State, a: Action, id: JobId)
    requires Inv(s) && id !in Touched(s, a)
    ensures SameFor(s, Acted(s, a), id)
  {
    QueueElsewhere(s, a, id);
    FlightElsewhere(s, a, id);
    if !a.Create? { JobsAfter(s, a); }
  }

  /** What one action leaves behind for its own job. */
  ghost predicate OwnFits(s: State, a: Action, id: JobId, aborted: bool, late: bool) {
    RowFits(Acted(s, a), id, aborted || id in Aborted(s, a), late || id in LateFault(s, a))
  }

  lemma AdvanceOwn(s: State, a: Action, aborted: bool, late: bool)
    requires Inv(s) && a.Advance? && InBuild(s, a.id) && RowFits(s, a.id, aborted, late)
    ensures OwnFits(s, a, a.id, aborted, late)
  {
    var id, n := a.id, s.flight[a.id].done;
    assert PhaseFits(s.flight[id], s.db.jobs[id].status);
    TriedInBuild(s.db.jobs, id, n, if n < |STAGES| then STAGES[n] else Ready);
    assert Acted(s, a) == Advanced(s, id);
  }

  lemma FailOwn(s: State, a: Action, aborted: bool, late: bool)
    requires Inv(s) && a.Fail? && CanFail(s, a.id) && RowFits(s, a.id, aborted, late)
    ensures OwnFits(s, a, a.id, aborted, late)
  {
    var id := a.id;
    assert PhaseFits(s.flight[id], s.db.jobs[id].status);
    if InBuild(s, id) { TriedInBuild(s.db.jobs, id, s.flight[id].done, Failed); }
    assert Acted(s, a) == Tried(s, id, Failed, Writing(Failed));
  }

  lemma WriteOwn(s: State, a: Action, aborted: bool, late: bool)
    requires Inv(s) && a.WriteRow? && InWrite(s, a.id) && RowFits(s, a.id, aborted, late)
    ensures OwnFits(s, a, a.id, aborted, late)
  {
    assert PhaseFits(s.flight[a.id], s.db.jobs[a.id].status);
    assert Acted(s, a) == Written(s, a.id, a.up);
  }

  lemma LeaveOwn(s: State, a: Action, aborted: bool, late: bool)
    requires (a.Interrupt? && InTry(s, a.id)) || (a.Close? && InPhase(s, a.id, Archiving))
    requires Inv(s) && RowFits(s, a.id, aborted, late)
    ensures OwnFits(s, a, a.id, aborted, late)
  {
    assert PhaseFits(s.flight[a.id], s.db.jobs[a.id].status);
    assert Acted(s, a) == Left(s, a.id);
  }

  lemma AbortOwn(s: State, a: Action, aborted: bool, late: bool)
    requires Inv(s) && a.Abort? && RowFits(s, a.id, aborted, late)
    ensures OwnFits(s, a, a.id, aborted, late)
  {
    var id := a.id;
    if Unsettled(s, id) {
      assert Failed in Successors(s.db.jobs[id].status);
      assert id in s.flight ==> PhaseFits(s.flight[id], s.db.jobs[id].status);
    } else {
      AbortRefused(s, id);
    }
  }

  /** A job is put into the queue, or nowhere. */
  lemma PutOwn(s: State, t: State, id: JobId, aborted: bool, late: bool)
    requires Inv(s) && RowFits(s, id, aborted, late) && id in s.flight && Untouched(s, id, aborted, late)
    requires t.db.jobs == s.db.jobs && t.rows == s.rows && (id in t.flight ==> t.flight[id] == RollingBack)
    ensures RowFits(t, id, aborted, late)
  {
  }

  lemma PlacingOwn(s: State, a: Action, aborted: bool, late: bool)
    requires || ((a.FirstEnqueue? || a.Defer?) && InPhase(s, a.id, Submitting))
             || (a.Requeue? && InPhase(s, a.id, Requeueing))
             || (a.PromoteEnqueue? && InPhase(s, a.id, Promoting)) || (a.RollBack? && InPhase(s, a.id, RollingBack))
    requires Inv(s) && RowFits(s, a.id, aborted, late)
    ensures OwnFits(s, a, a.id, aborted, late)
  {
    assert PhaseFits(s.flight[a.id], s.db.jobs[a.id].status);
    if a.FirstEnqueue? || a.Requeue? || a.PromoteEnqueue? {
      PutOwn(s, Acted(s, a), a.id, aborted, late);
    } else {
      assert Acted(s, a) == SetAside(s, a.id);
    }
  }

  /** Only the phase of the job changes, or it is let go of. */
  lemma PhaseOwn(s: State, t: State, id: JobId, aborted: bool, late: bool)
    requires Inv(s) && RowFits(s, id, aborted, late) && id in s.flight
    requires t.db.jobs == s.db.jobs && t.db.queue == s.db.queue && t.rows == s.rows
    requires id in t.flight ==> PhaseSays(t, id, t.flight[id], aborted, late)
    ensures RowFits(t, id, aborted, late)
  {
    assert PhaseFits(s.flight[id], s.db.jobs[id].status);
  }

  lemma CreateOwn(s: State, a: Action, aborted: bool, late: bool)
    requires a.Create? && Inv(s) && RowFits(s, a.id, aborted, late)
    ensures OwnFits(s, a, a.id, aborted, late)
  {
    assert a.id in s.flight ==> a.id in s.db.jobs;
  }

  lemma PromoteOwn(s: State, a: Action, aborted: bool, late: bool)
    requires a.Promote? && Inv(s) && RowFits(s, a.id, aborted, late)
    ensures OwnFits(s, a, a.id, aborted, late)
  {
    assert a.id in s.flight ==> PhaseFits(s.flight[a.id], s.db.jobs[a.id].status);
    if Transitioned(s.db.jobs, a.id, Queued).1 {
      assert Acted(s, a) == Tried(s, a.id, Queued, Promoting);
    }
  }

  lemma ClaimOwn(s: State, id: JobId, aborted: bool, late: bool)
    requires Inv(s) && RowFits(s, id, aborted, late) && s.db.queue.pending != []
    requires id == s.db.queue.pending[0].member
    ensures OwnFits(s, Claim, id, aborted, late)
  {
    DequeueTidy(s.db.queue);
  }

  /** An action that does not apply changes nothing. */
  lemma IdleOwn(s: State, a: Action, id: JobId, aborted: bool, late: bool)
    requires RowFits(s, id, aborted, late) && SameFor(s, Acted(s, a), id)
    requires Aborted(s, a) == {} == LateFault(s, a)
    ensures OwnFits(s, a, id, aborted, late)
  {
    SameFits(s, Acted(s, a), id, aborted, late);
  }

  lemma TryOwn(s: State, a: Action, aborted: bool, late: bool)
    requires a.Advance? || a.Fail? || a.WriteRow? || a.Interrupt? || a.Close?
    requires Inv(s) && RowFits(s, a.id, aborted, late)
    ensures OwnFits(s, a, a.id, aborted, late)
  {
    match a
    case Advance(id) => if InBuild(s, id) { AdvanceOwn(s, a, aborted, late); }
    case Fail(id) => if CanFail(s, id) { FailOwn(s, a, aborted, late); }
    case WriteRow(id, _) => if InWrite(s, id) { WriteOwn(s, a, aborted, late); }
    case Interrupt(id) => if InTry(s, id) { LeaveOwn(s, a, aborted, late); }
    case Close(id) => if InPhase(s, id, Archiving) { LeaveOwn(s, a, aborted, late); }
  }

  lemma WayOwn(s: State, a: Action, aborted: bool, late: bool)
    requires a.FirstEnqueue? || a.Defer? || a.Requeue? || a.PromoteEnqueue? || a.RollBack?
    requires Inv(s) && RowFits(s, a.id, aborted, late)
    ensures OwnFits(s, a, a.id, aborted, late)
  {
    match a
    case FirstEnqueue(id) => if InPhase(s, id, Submitting) { PlacingOwn(s, a, aborted, late); }
    case Defer(id) => if InPhase(s, id, Submitting) { PlacingOwn(s, a, aborted, late); }
    case Requeue(id) => if InPhase(s, id, Requeueing) { PlacingOwn(s, a, aborted, late); }
    case PromoteEnqueue(id) => if InPhase(s, id, Promoting) { PlacingOwn(s, a, aborted, late); }
    case RollBack(id) => if InPhase(s, id, RollingBack) { PlacingOwn(s, a, aborted, late); }
  }

  lemma TakeOwn(s: State, a: Action, aborted: bool, late: bool)
    requires a.TakeUser? || a.TakeProject?
    requires Inv(s) && RowFits(s, a.id, aborted, late)
    ensures OwnFits(s, a, a.id, aborted, late)
  {
    match a
    case TakeUser(id) => if InPhase(s, id, Claimed) { PhaseOwn(s, Taken(s, id, true), id, aborted, late); }
    case TakeProject(id) => if InPhase(s, id, UserHeld) { PhaseOwn(s, Taken(s, id, false), id, aborted, late); }
  }

  lemma GiveOwn(s: State, a: Action, aborted: bool, late: bool)
    requires a.GiveBack? || a.FreeUser? || a.FreeProject?
    requires Inv(s) && RowFits(s, a.id, aborted, late)
    ensures OwnFits(s, a, a.id, aborted, late)
  {
    match a
    case GiveBack(id) =>
      if InPhase(s, id, Bounced) { PhaseOwn(s, UserGiven(s, id, Requeueing), id, aborted, late); }
    case FreeUser(id) =>
      if InPhase(s, id, Releasing) { PhaseOwn(s, UserGiven(s, id, HalfReleased), id, aborted, late); }
    case FreeProject(id) =>
      if InPhase(s, id, HalfReleased) { PhaseOwn(s, ProjectGiven(s, id), id, aborted, late); }
  }

  lemma EveryOwn(s: State, a: Action, id: JobId, aborted: bool, late: bool)
    requires Inv(s) && RowFits(s, id, aborted, late) && id in Touched(s, a)
    ensures OwnFits(s, a, id, aborted, late)
  {
    if a.Advance? || a.Fail? || a.WriteRow? || a.Interrupt? || a.Close? {
      TryOwn(s, a, aborted, late);
    } else if a.FirstEnqueue? || a.Defer? || a.Requeue? || a.PromoteEnqueue? || a.RollBack? {
      WayOwn(s, a, aborted, late);
    } else if a.TakeUser? || a.TakeProject? {
      TakeOwn(s, a, aborted, late);
    } else if a.GiveBack? || a.FreeUser? || a.FreeProject? {
      GiveOwn(s, a, aborted, late);
    } else if a.Create? {
      CreateOwn(s, a, aborted, late);
    } else if a.Promote? {
      PromoteOwn(s, a, aborted, late);
    } else if a.Claim? {
      ClaimOwn(s, id, aborted, late);
    } else if a.Abort? {
      AbortOwn(s, a, aborted, late);
    } else if a.Beat? {
      IdleOwn(s, a, id, aborted, late);
    }
  }

  lemma StepKeepsRow(s: State, a: Action, id: JobId, aborted: bool, late: bool)
    requires Inv(s) && RowFits(s, id, aborted, late)
    ensures OwnFits(s, a, id, aborted, late)
  {
    if id in Touched(s, a) {
      EveryOwn(s, a, id, aborted, late);
    } else {
      Elsewhere(s, a, id);
      SameFits(s, Acted(s, a), id, aborted, late);
    }
  }

  // ---------- Runs ----------

  lemma {:induction false} RunKeepsRow(s: State, actions: seq<Action>, id: JobId, aborted: bool, late: bool)
    requires Inv(s) && RowFits(s, id, aborted, late)
    ensures RowFits(RunOf(s, actions), id, aborted || id in Aborts(s, actions), late || id in LateFaults(s, actions))
    decreases |actions|
  {
    if actions != [] {
      var a := actions[0];
      StepKeepsRow(s, a, id, aborted, late);
      EveryStepFits(s, a);
      RunKeepsRow(Acted(s, a), actions[1..], id, aborted || id in Aborted(s, a), late || id in LateFault(s, a));
    }
  }

  /**
   Over any run of the system from its start: a row says READY or FAILED, its job is settled,
   and the two agree iff the row is READY and the user had not cancelled the job, or FAILED
   and no exception found the job READY.
   */
  lemma RowsAgreeIff(now: int, actions: seq<Action>, id: JobId)
    requires id in RunOf(EmptySystem(now), actions).rows
    ensures var s := EmptySystem(now); var t := RunOf(s, actions);
            && id in t.db.jobs && Terminal(t.db.jobs[id].status) && Terminal(t.rows[id])
            && (t.rows[id] == t.db.jobs[id].status
                <==> if t.rows[id] == Ready then id !in Aborts(s, actions) else id !in LateFaults(s, actions))
  {
    EmptySystemIsSound(now);
    RunKeepsRow(EmptySystem(now), actions, id, false, false);
  }
}
