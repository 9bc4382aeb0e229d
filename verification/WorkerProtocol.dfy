/**
 Any number of API requests, workers and re-schedulers at once. Each queue, semaphore and
 state-machine call, and each write of a row, is one atomic action, and calls of different
 processes interleave freely. A process is known by the job it has in hand, so the processes
 are a map from jobs to phases. A user may cancel a job at any time, a build may be
 interrupted, and any process may crash.
 */
module WorkerProtocol {
  import opened Common
  import opened QueueSchemas
  import opened RedisStore
  import opened JobQueue
  import opened Semaphores
  import opened JobLifecycle
  import opened GenerationPipeline
  import opened Worker

  datatype Phase =
    | Submitting             // created by a request, neither enqueued nor put off yet
    | Promoting              // back to QUEUED, not enqueued yet
    | RollingBack            // the re-scheduler's enqueue was refused
    | Claimed                // dequeued
    | UserHeld               // user slot taken
    | Bounced                // project slot refused, user slot still held
    | Requeueing             // about to be enqueued again
    | Building(done: nat)    // both slots held, that many transitions attempted
    | Writing(row: JobStatus) // about to write the row with that status
    | Archiving              // a READY row has been tried, still inside the try statement
    | Releasing              // both slots held, about to give them back
    | HalfReleased           // user slot given back
    | Crashed(at: Phase)     // will never act again

  datatype State = State(db: Db, flight: map<JobId, Phase>, rows: map<JobId, JobStatus>)

  datatype Action =
    | Create(id: JobId, userId: string, projectId: string, tier: string)
    | Defer(id: JobId)
    | FirstEnqueue(id: JobId)
    | Promote(id: JobId)
    | PromoteEnqueue(id: JobId)
    | RollBack(id: JobId)
    | Claim
    | TakeUser(id: JobId)
    | TakeProject(id: JobId)
    | GiveBack(id: JobId)
    | Requeue(id: JobId)
    | Advance(id: JobId)
    | Beat(id: JobId, user: bool)
    | Fail(id: JobId)
    | Interrupt(id: JobId)
    | WriteRow(id: JobId, up: bool)
    | Close(id: JobId)
    | FreeUser(id: JobId)
    | FreeProject(id: JobId)
    | Abort(id: JobId)
    | Crash(id: JobId)
    | Tick(seconds: nat)

  predicate InPhase(s: State, id: JobId, p: Phase) {
    id in s.flight && s.flight[id] == p && id in s.db.jobs
  }

  predicate InBuild(s: State, id: JobId) {
    id in s.flight && s.flight[id].Building? && s.flight[id].done <= |STAGES| && id in s.db.jobs
  }

  predicate InWrite(s: State, id: JobId) {
    id in s.flight && s.flight[id].Writing? && id in s.db.jobs
  }

  predicate InTry(s: State, id: JobId) {
    InBuild(s, id) || InWrite(s, id) || InPhase(s, id, Archiving)
  }

  predicate CanFail(s: State, id: JobId) {
    InBuild(s, id) || InPhase(s, id, Writing(Ready)) || InPhase(s, id, Archiving)
  }

  /** Enqueue and let go of the job; the answer of enqueue is ignored. */
  function Put(s: State, id: JobId): State
    requires id in s.db.jobs
  {
    s.(db := s.db.(queue := Enqueued(s.db.queue, id, s.db.jobs[id].tier).0), flight := s.flight - {id})
  }

  /** The transition is attempted, and the process goes on whatever the answer. */
  function Tried(s: State, id: JobId, to: JobStatus, p: Phase): State {
    s.(db := s.db.(jobs := Transitioned(s.db.jobs, id, to).0), flight := s.flight[id := p])
  }

  function Advanced(s: State, id: JobId): State
    requires InBuild(s, id)
  {
    var n := s.flight[id].done;
    if n < |STAGES| then Tried(s, id, STAGES[n], Building(n + 1)) else Tried(s, id, Ready, Writing(Ready))
  }

  /** The transition to SCHEDULED is attempted, and the job let go of. */
  function SetAside(s: State, id: JobId): State {
    s.(db := s.db.(jobs := Transitioned(s.db.jobs, id, Scheduled).0), flight := s.flight - {id})
  }

  function Moved(s: State, id: JobId, p: Phase, sems: Leases): State {
    s.(db := s.db.(sems := sems), flight := s.flight[id := p])
  }

  function Taken(s: State, id: JobId, user: bool): State
    requires id in s.db.jobs
  {
    var job := s.db.jobs[id];
    if user then
      var (sems, ok) := Acquired(s.db.sems, UserSlot(job, id), UserLimit(job.tier));
      Moved(s, id, if ok then UserHeld else Requeueing, sems)
    else
      var (sems, ok) := Acquired(s.db.sems, ProjectSlot(job, id), ProjectLimit(job.tier));
      Moved(s, id, if ok then Building(0) else Bounced, sems)
  }

  function UserGiven(s: State, id: JobId, p: Phase): State
    requires id in s.db.jobs
  {
    Moved(s, id, p, Released(s.db.sems, UserSlot(s.db.jobs[id], id)))
  }

  function ProjectGiven(s: State, id: JobId): State
    requires id in s.db.jobs
  {
    s.(db := s.db.(sems := Released(s.db.sems, ProjectSlot(s.db.jobs[id], id))), flight := s.flight - {id})
  }

  /** The re-scheduler looks at the answer of enqueue. */
  function PromotePut(s: State, id: JobId): State
    requires id in s.db.jobs
  {
    var (queue, r) := Enqueued(s.db.queue, id, s.db.jobs[id].tier);
    s.(db := s.db.(queue := queue), flight := if r.Rejected? then s.flight[id := RollingBack] else s.flight - {id})
  }

  function Written(s: State, id: JobId, up: bool): State
    requires InWrite(s, id)
  {
    var row := s.flight[id].row;
    s.(rows := Persisted(s.rows, id, row, up), flight := s.flight[id := if row == Ready then Archiving else Releasing])
  }

  function Left(s: State, id: JobId): State {
    s.(flight := s.flight[id := Releasing])
  }

  /** An action whose phase does not apply does nothing. */
  function Acted(s: State, a: Action): State {
    match a
    case Create(id, user, project, tier) =>
      if id in s.db.jobs || id in s.flight then s
      else
        s.(db := s.db.(jobs := s.db.jobs[id := Job(Queued, user, project, tier)]), flight := s.flight[id := Submitting])
    case Defer(id) =>
      if InPhase(s, id, Submitting) then SetAside(s, id) else s
    case FirstEnqueue(id) =>
      if InPhase(s, id, Submitting) then Put(s, id) else s
    case Promote(id) =>
      if Transitioned(s.db.jobs, id, Queued).1 then Tried(s, id, Queued, Promoting) else s
    case PromoteEnqueue(id) =>
      if InPhase(s, id, Promoting) then PromotePut(s, id) else s
    case RollBack(id) =>
      if InPhase(s, id, RollingBack) then SetAside(s, id) else s
    case Claim =>
      var (queue, popped) := Dequeued(s.db.queue);
      if popped.Some? && popped.value in s.db.jobs
      then s.(db := s.db.(queue := queue), flight := s.flight[popped.value := Claimed])
      else s.(db := s.db.(queue := queue))
    case TakeUser(id) =>
      if InPhase(s, id, Claimed) then Taken(s, id, true) else s
    case TakeProject(id) =>
      if InPhase(s, id, UserHeld) then Taken(s, id, false) else s
    case GiveBack(id) =>
      if InPhase(s, id, Bounced) then UserGiven(s, id, Requeueing) else s
    case Requeue(id) =>
      if InPhase(s, id, Requeueing) then Put(s, id) else s
    case Advance(id) =>
      if InBuild(s, id) then Advanced(s, id) else s
    case Beat(id, user) =>
      if !InBuild(s, id) then s
      else
        var job := s.db.jobs[id];
        s.(db := s.db.(sems := Refreshed(s.db.sems, if user then UserSlot(job, id) else ProjectSlot(job, id))))
    case Fail(id) =>
      if CanFail(s, id) then Tried(s, id, Failed, Writing(Failed)) else s
    case Interrupt(id) =>
      if InTry(s, id) then Left(s, id) else s
    case WriteRow(id, up) =>
      if InWrite(s, id) then Written(s, id, up) else s
    case Close(id) =>
      if InPhase(s, id, Archiving) then Left(s, id) else s
    case FreeUser(id) =>
      if InPhase(s, id, Releasing) then UserGiven(s, id, HalfReleased) else s
    case FreeProject(id) =>
      if InPhase(s, id, HalfReleased) then ProjectGiven(s, id) else s
    case Abort(id) => s.(db := s.db.(jobs := Transitioned(s.db.jobs, id, Failed).0))
    case Crash(id) =>
      if id in s.flight && !s.flight[id].Crashed? then s.(flight := s.flight[id := Crashed(s.flight[id])]) else s
    case Tick(d) => s.(db := s.db.(sems := s.db.sems.(now := s.db.sems.now + d)))
  }

  function RunOf(s: State, actions: seq<Action>): State
    decreases |actions|
  {
    if actions == [] then s else RunOf(Acted(s, actions[0]), actions[1..])
  }

  // ---------- The invariant ----------

  /** What was being done; for a crashed process, when it crashed. */
  function Doing(p: Phase): Phase {
    if p.Crashed? then p.at else p
  }

  predicate HoldsBoth(p: Phase) {
    var d := Doing(p);
    d.Building? || d.Writing? || d == Archiving || d == Releasing
  }

  predicate HoldsUser(p: Phase) {
    HoldsBoth(p) || Doing(p) == UserHeld || Doing(p) == Bounced
  }

  predicate HoldsProject(p: Phase) {
    HoldsBoth(p) || Doing(p) == HalfReleased
  }

  /** A build's job is where the build has got to, unless its user cancelled it: then it is FAILED. */
  predicate PhaseFits(p: Phase, status: JobStatus) {
    match Doing(p)
    case Building(n) => n <= |STAGES| && (status == StatusAfter(n) || status == Failed)
    case Writing(row) => (row == Ready || row == Failed) && Terminal(status)
    case Archiving => Terminal(status)
    case Releasing => status != Scheduled
    case HalfReleased => status != Scheduled
    case Crashed(_) => false
    case _ => QueuedOrFailed(status)
  }

  ghost predicate QueueFits(s: State) {
    && Tidy(s.db.queue)
    && (forall id :: id in Jobs(s.db.queue) ==> id in s.db.jobs && QueuedOrFailed(s.db.jobs[id].status))
    && (forall id :: id in Jobs(s.db.queue) ==> id !in s.flight)
  }

  ghost predicate JobsFit(s: State) {
    forall id :: id in s.flight ==> id in s.db.jobs && PhaseFits(s.flight[id], s.db.jobs[id].status)
  }

  /** The slot sets are exactly the slots the jobs in flight hold. */
  predicate SlotFits(s: State, x: Slot) {
    && x.job in s.flight && x.job in s.db.jobs
    && match x.key
       case UserKey(u) => HoldsUser(s.flight[x.job]) && u == s.db.jobs[x.job].userId
       case ProjectKey(p) => HoldsProject(s.flight[x.job]) && p == s.db.jobs[x.job].projectId
  }

  ghost predicate SlotsFit(s: State) {
    forall x :: x in s.db.sems.slots <==> SlotFits(s, x)
  }

  ghost predicate Inv(s: State) {
    QueueFits(s) && JobsFit(s) && SlotsFit(s)
  }

  // ---------- Lost jobs ----------

  /** Neither settled nor put off. */
  predicate Unsettled(s: State, id: JobId) {
    id in s.db.jobs && s.db.jobs[id].status != Scheduled && !Terminal(s.db.jobs[id].status)
  }

  /** Unsettled, but neither in the queue nor in hand: no worker will ever finish it. */
  predicate Stranded(s: State, id: JobId) {
    Unsettled(s, id) && id !in Jobs(s.db.queue) && id !in s.flight
  }

  /** Unsettled in the hands of a crashed process. */
  predicate Orphaned(s: State, id: JobId) {
    Unsettled(s, id) && id in s.flight && s.flight[id].Crashed?
  }

  predicate Lost(s: State, id: JobId) {
    Stranded(s, id) || Orphaned(s, id)
  }

  /** The job whose enqueue this action finds refused, with nobody looking at the answer. */
  function Refusal(s: State, a: Action): set<JobId> {
    if |s.db.queue.pending| < GLOBAL_QUEUE_CAP then {}
    else
      match a
      case FirstEnqueue(id) => if InPhase(s, id, Submitting) && Unsettled(s, id) then {id} else {}
      case Requeue(id) => if InPhase(s, id, Requeueing) && Unsettled(s, id) then {id} else {}
      case _ => {}
  }

  /** The unsettled job an interrupted or crashing process drops. */
  function Dropped(s: State, a: Action): set<JobId> {
    match a
    case FreeProject(id) => if InPhase(s, id, HalfReleased) && Unsettled(s, id) then {id} else {}
    case Crash(id) => if id in s.flight && !s.flight[id].Crashed? && Unsettled(s, id) then {id} else {}
    case _ => {}
  }

  function Loss(s: State, a: Action): set<JobId> {
    Refusal(s, a) + Dropped(s, a)
  }

  /** The job a user's cancellation settles: any unsettled one, lost or not. */
  function Aborted(s: State, a: Action): set<JobId> {
    match a
    case Abort(id) => if Unsettled(s, id) then {id} else {}
    case _ => {}
  }

  function Losses(s: State, actions: seq<Action>): set<JobId>
    decreases |actions|
  {
    if actions == [] then {} else Loss(s, actions[0]) + Losses(Acted(s, actions[0]), actions[1..])
  }

  function Refusals(s: State, actions: seq<Action>): set<JobId>
    decreases |actions|
  {
    if actions == [] then {} else Refusal(s, actions[0]) + Refusals(Acted(s, actions[0]), actions[1..])
  }

  function Aborts(s: State, actions: seq<Action>): set<JobId>
    decreases |actions|
  {
    if actions == [] then {} else Aborted(s, actions[0]) + Aborts(Acted(s, actions[0]), actions[1..])
  }

  /** The invariant holds, and the lost jobs are those lost before or in `lost`, without those in `saved`. */
  ghost predicate Fits(s: State, t: State, lost: set<JobId>, saved: set<JobId>) {
    && Inv(t)
    && (forall id :: Lost(t, id) <==> (Lost(s, id) || id in lost) && id !in saved)
  }

  ghost predicate StepFits(s: State, a: Action) {
    Fits(s, Acted(s, a), Loss(s, a), Aborted(s, a))
  }

  // ---------- Every action keeps the invariant ----------

  /** Nothing is held for a job that is only on its way into the queue. */
  lemma OnItsWay(s: State, id: JobId)
    requires Inv(s)
    requires InPhase(s, id, Submitting) || InPhase(s, id, Requeueing) || InPhase(s, id, Promoting)
    ensures QueuedOrFailed(s.db.jobs[id].status)
    ensures !s.flight[id].Crashed? && !HoldsUser(s.flight[id]) && !HoldsProject(s.flight[id])
  {
    assert PhaseFits(s.flight[id], s.db.jobs[id].status);
  }

  /** A job without slots let go of, into the queue, or if the queue refused it into nothing. */
  lemma LetGo(s: State, id: JobId, queue: Queue, refused: bool)
    requires Inv(s) && id in s.flight && !s.flight[id].Crashed? && QueuedOrFailed(s.db.jobs[id].status)
    requires !HoldsUser(s.flight[id]) && !HoldsProject(s.flight[id])
    requires Tidy(queue) && Jobs(queue) == if refused then Jobs(s.db.queue) else Jobs(s.db.queue) + {id}
    ensures Fits(s, s.(db := s.db.(queue := queue), flight := s.flight - {id}),
                 if refused && s.db.jobs[id].status == Queued then {id} else {}, {})
  {
    var t := s.(db := s.db.(queue := queue), flight := s.flight - {id});
    assert forall x :: SlotFits(t, x) <==> SlotFits(s, x);
  }

  function PutLoss(s: State, id: JobId): set<JobId> {
    if |s.db.queue.pending| < GLOBAL_QUEUE_CAP || !Unsettled(s, id) then {} else {id}
  }

  lemma PutFits(s: State, id: JobId)
    requires Inv(s) && (InPhase(s, id, Submitting) || InPhase(s, id, Requeueing))
    ensures Fits(s, Put(s, id), PutLoss(s, id), {})
  {
    OnItsWay(s, id);
    var queue := Enqueued(s.db.queue, id, s.db.jobs[id].tier).0;
    EnqueueTidy(s.db.queue, id, s.db.jobs[id].tier);
    LetGo(s, id, queue, |s.db.queue.pending| == GLOBAL_QUEUE_CAP);
  }

  /** A job without slots goes to SCHEDULED, or stays FAILED, and is let go of. */
  lemma SetAsideFits(s: State, id: JobId)
    requires Inv(s) && (InPhase(s, id, Submitting) || InPhase(s, id, RollingBack))
    ensures Fits(s, SetAside(s, id), {}, {})
  {
    var t := SetAside(s, id);
    assert PhaseFits(s.flight[id], s.db.jobs[id].status);
    assert forall x :: SlotFits(t, x) <==> SlotFits(s, x);
  }

  /** A scheduled job is taken in hand. */
  lemma PromoteFits(s: State, id: JobId)
    requires Inv(s) && id in s.db.jobs && s.db.jobs[id].status == Scheduled
    ensures Fits(s, Tried(s, id, Queued, Promoting), {}, {})
  {
    assert id !in s.flight && id !in Jobs(s.db.queue);
    var t := Tried(s, id, Queued, Promoting);
    assert t.db.jobs == s.db.jobs[id := s.db.jobs[id].(status := Queued)];
    assert forall x :: SlotFits(t, x) <==> SlotFits(s, x);
  }

  lemma PromotePutCases(s: State, id: JobId)
    requires id in s.db.jobs && Tidy(s.db.queue)
    ensures var queue := Enqueued(s.db.queue, id, s.db.jobs[id].tier).0;
            PromotePut(s, id)
            == if |s.db.queue.pending| == GLOBAL_QUEUE_CAP then s.(flight := s.flight[id := RollingBack])
               else s.(db := s.db.(queue := queue), flight := s.flight - {id})
  {
  }

  lemma StaysInHand(s: State, id: JobId)
    requires Inv(s) && InPhase(s, id, Promoting)
    ensures Fits(s, s.(flight := s.flight[id := RollingBack]), {}, {})
  {
    var t := s.(flight := s.flight[id := RollingBack]);
    assert PhaseFits(s.flight[id], s.db.jobs[id].status);
    assert forall x :: SlotFits(t, x) <==> SlotFits(s, x);
  }

  /** A refused re-scheduler still has the job in hand, to put it back; nothing is lost either way. */
  lemma PromotePutFits(s: State, id: JobId)
    requires Inv(s) && InPhase(s, id, Promoting)
    ensures Fits(s, PromotePut(s, id), {}, {})
  {
    PromotePutCases(s, id);
    if |s.db.queue.pending| == GLOBAL_QUEUE_CAP {
      StaysInHand(s, id);
    } else {
      EnqueueTidy(s.db.queue, id, s.db.jobs[id].tier);
      OnItsWay(s, id);
      LetGo(s, id, Enqueued(s.db.queue, id, s.db.jobs[id].tier).0, false);
    }
  }

  lemma ClaimFits(s: State)
    requires Inv(s)
    ensures StepFits(s, Claim)
  {
    DequeueTidy(s.db.queue);
    var (queue, popped) := Dequeued(s.db.queue);
    if popped.Some? {
      var id := popped.value;
      var t := s.(db := s.db.(queue := queue), flight := s.flight[id := Claimed]);
      assert Acted(s, Claim) == t;
      assert Jobs(queue) == Jobs(s.db.queue) - {id};
      assert forall x :: SlotFits(t, x) <==> SlotFits(s, x);
    } else {
      assert Acted(s, Claim) == s;
    }
  }

  /** A job in live hands changes phase, and perhaps status; the other jobs keep their slots. */
  ghost predicate Moves(s: State, t: State, id: JobId, p: Phase, status: JobStatus) {
    && id in s.flight && id in s.db.jobs && !s.flight[id].Crashed? && !p.Crashed?
    && t.db.queue == s.db.queue
    && t.db.jobs == s.db.jobs[id := s.db.jobs[id].(status := status)]
    && t.flight == s.flight[id := p]
    && PhaseFits(p, status)
    && (forall x: Slot :: x.job != id ==> (x in t.db.sems.slots <==> x in s.db.sems.slots))
    && (forall x: Slot :: x.job == id ==> (x in t.db.sems.slots <==> SlotFits(t, x)))
  }

  lemma MovesFit(s: State, t: State, id: JobId, p: Phase, status: JobStatus)
    requires Inv(s) && Moves(s, t, id, p, status)
    ensures Fits(s, t, {}, {})
  {
    forall x ensures x in t.db.sems.slots <==> SlotFits(t, x) {
      if x.job != id { assert SlotFits(t, x) <==> SlotFits(s, x); }
    }
  }

  lemma TakeFits(s: State, id: JobId, user: bool)
    requires Inv(s) && InPhase(s, id, if user then Claimed else UserHeld)
    ensures Fits(s, Taken(s, id, user), {}, {})
  {
    var job, t := s.db.jobs[id], Taken(s, id, user);
    var mine := if user then UserSlot(job, id) else ProjectSlot(job, id);
    assert !SlotFits(s, mine);
    assert PhaseFits(s.flight[id], job.status);
    forall x: Slot | x.job == id ensures x in t.db.sems.slots <==> SlotFits(t, x) {
      assert x in s.db.sems.slots <==> SlotFits(s, x);
    }
    assert t.db.jobs == s.db.jobs[id := job.(status := job.status)];
    MovesFit(s, t, id, t.flight[id], job.status);
  }

  lemma GiveUserFits(s: State, id: JobId, p: Phase)
    requires Inv(s)
    requires (InPhase(s, id, Bounced) && p == Requeueing) || (InPhase(s, id, Releasing) && p == HalfReleased)
    ensures Fits(s, UserGiven(s, id, p), {}, {})
  {
    var job, t := s.db.jobs[id], UserGiven(s, id, p);
    assert PhaseFits(s.flight[id], job.status);
    forall x: Slot | x.job == id ensures x in t.db.sems.slots <==> SlotFits(t, x) {
      assert x in s.db.sems.slots <==> SlotFits(s, x);
    }
    assert t.db.jobs == s.db.jobs[id := job.(status := job.status)];
    MovesFit(s, t, id, p, job.status);
  }

  /** The end of a worker's call: a job that was never settled is dropped here. */
  lemma GiveProjectFits(s: State, id: JobId)
    requires Inv(s) && InPhase(s, id, HalfReleased)
    ensures Fits(s, ProjectGiven(s, id), if Unsettled(s, id) then {id} else {}, {})
  {
    var t := ProjectGiven(s, id);
    forall x ensures x in t.db.sems.slots <==> SlotFits(t, x) {
      assert x in s.db.sems.slots <==> SlotFits(s, x);
      if x.job != id { assert SlotFits(t, x) <==> SlotFits(s, x); }
    }
    assert PhaseFits(s.flight[id], s.db.jobs[id].status) && id !in Jobs(s.db.queue);
  }

  /** Inside the try statement both slots stay held. */
  lemma HoldingFits(s: State, t: State, id: JobId, p: Phase, status: JobStatus)
    requires Inv(s) && id in s.flight && id in s.db.jobs && !s.flight[id].Crashed? && !p.Crashed?
    requires HoldsBoth(s.flight[id]) && HoldsBoth(p) && PhaseFits(p, status)
    requires t.db.queue == s.db.queue && t.db.sems == s.db.sems && t.flight == s.flight[id := p]
    requires t.db.jobs == s.db.jobs[id := s.db.jobs[id].(status := status)]
    ensures Fits(s, t, {}, {})
  {
    forall x: Slot | x.job == id ensures x in t.db.sems.slots <==> SlotFits(t, x) {
      assert x in s.db.sems.slots <==> SlotFits(s, x);
    }
    MovesFit(s, t, id, p, status);
  }

  /** What a transition out of a build's step makes of the status: refused exactly when it is FAILED already. */
  lemma TriedInBuild(jobs: map<JobId, Job>, id: JobId, n: nat, to: JobStatus)
    requires id in jobs && n <= |STAGES| && (jobs[id].status == StatusAfter(n) || jobs[id].status == Failed)
    requires to == Failed || to == if n < |STAGES| then STAGES[n] else Ready
    ensures Transitioned(jobs, id, to).0
            == jobs[id := jobs[id].(status := if jobs[id].status == Failed then Failed else to)]
  {
    if jobs[id].status == Failed {
      assert jobs[id := jobs[id].(status := Failed)] == jobs;
    } else {
      assert to in Successors(StatusAfter(n));
    }
  }

  lemma AdvanceFits(s: State, id: JobId)
    requires Inv(s) && InBuild(s, id)
    ensures Fits(s, Advanced(s, id), {}, {})
  {
    var n, status := s.flight[id].done, s.db.jobs[id].status;
    assert PhaseFits(s.flight[id], status);
    var to := if n < |STAGES| then STAGES[n] else Ready;
    TriedInBuild(s.db.jobs, id, n, to);
    HoldingFits(s, Advanced(s, id), id, if n < |STAGES| then Building(n + 1) else Writing(Ready),
                if status == Failed then Failed else to);
  }

  lemma FailFits(s: State, id: JobId)
    requires Inv(s) && CanFail(s, id)
    ensures Fits(s, Tried(s, id, Failed, Writing(Failed)), {}, {})
  {
    var status := s.db.jobs[id].status;
    assert PhaseFits(s.flight[id], status);
    if InBuild(s, id) {
      TriedInBuild(s.db.jobs, id, s.flight[id].done, Failed);
      HoldingFits(s, Tried(s, id, Failed, Writing(Failed)), id, Writing(Failed), Failed);
    } else {
      assert s.db.jobs[id := s.db.jobs[id].(status := status)] == s.db.jobs;
      HoldingFits(s, Tried(s, id, Failed, Writing(Failed)), id, Writing(Failed), status);
    }
  }

  /** A step inside the try statement that leaves the database alone. */
  lemma SameStatusFits(s: State, t: State, id: JobId, p: Phase)
    requires Inv(s) && InTry(s, id) && (p == Archiving || p == Releasing)
    requires t.db == s.db && t.flight == s.flight[id := p] && (p == Archiving ==> InWrite(s, id))
    ensures Fits(s, t, {}, {})
  {
    var status := s.db.jobs[id].status;
    assert PhaseFits(s.flight[id], status);
    assert s.db.jobs[id := s.db.jobs[id].(status := status)] == s.db.jobs;
    HoldingFits(s, t, id, p, status);
  }

  /** A user's cancellation settles the job wherever it is, and changes nothing else. */
  lemma AbortFits(s: State, id: JobId)
    requires Inv(s) && Unsettled(s, id)
    ensures Fits(s, s.(db := s.db.(jobs := Transitioned(s.db.jobs, id, Failed).0)), {}, {id})
  {
    var t := s.(db := s.db.(jobs := s.db.jobs[id := s.db.jobs[id].(status := Failed)]));
    assert Failed in Successors(s.db.jobs[id].status);
    assert forall x :: SlotFits(t, x) <==> SlotFits(s, x);
    assert id in s.flight ==> PhaseFits(s.flight[id], s.db.jobs[id].status);
  }

  lemma AbortRefused(s: State, id: JobId)
    requires !Unsettled(s, id)
    ensures Acted(s, Abort(id)) == s
  {
  }

  /** A crash changes nothing but that nobody goes on: job, status and slots stay as they are. */
  lemma CrashFits(s: State, id: JobId)
    requires Inv(s) && id in s.flight && !s.flight[id].Crashed?
    ensures Fits(s, s.(flight := s.flight[id := Crashed(s.flight[id])]), if Unsettled(s, id) then {id} else {}, {})
  {
    var t := s.(flight := s.flight[id := Crashed(s.flight[id])]);
    assert PhaseFits(s.flight[id], s.db.jobs[id].status);
    assert forall x :: SlotFits(t, x) <==> SlotFits(s, x);
  }

  /** Leases and the clock do not matter to the invariant. */
  lemma LeaseFits(s: State, sems: Leases)
    requires Inv(s) && sems.slots == s.db.sems.slots
    ensures Fits(s, s.(db := s.db.(sems := sems)), {}, {})
  {
    var t := s.(db := s.db.(sems := sems));
    assert forall x :: SlotFits(t, x) <==> SlotFits(s, x);
  }

  lemma CreateFits(s: State, a: Action)
    requires Inv(s) && a.Create?
    ensures StepFits(s, a)
  {
    var t := Acted(s, a);
    assert forall x :: SlotFits(t, x) <==> SlotFits(s, x);
  }

  lemma NothingFits(s: State)
    requires Inv(s)
    ensures Fits(s, s, {}, {})
  {
  }

  /** The steps that change who holds which slot. */
  lemma SlotStepFits(s: State, a: Action)
    requires Inv(s) && (a.TakeUser? || a.TakeProject? || a.GiveBack? || a.FreeUser? || a.FreeProject?)
    ensures StepFits(s, a)
  {
    NothingFits(s);
    match a
    case TakeUser(id) => if InPhase(s, id, Claimed) { TakeFits(s, id, true); }
    case TakeProject(id) => if InPhase(s, id, UserHeld) { TakeFits(s, id, false); }
    case GiveBack(id) => if InPhase(s, id, Bounced) { GiveUserFits(s, id, Requeueing); }
    case FreeUser(id) => if InPhase(s, id, Releasing) { GiveUserFits(s, id, HalfReleased); }
    case FreeProject(id) => if InPhase(s, id, HalfReleased) { GiveProjectFits(s, id); }
  }

  /** The steps inside the try statement. */
  lemma BuildStepFits(s: State, a: Action)
    requires Inv(s) && (a.Advance? || a.Fail? || a.Interrupt? || a.WriteRow? || a.Close?)
    ensures StepFits(s, a)
  {
    NothingFits(s);
    match a
    case Advance(id) => if InBuild(s, id) { AdvanceFits(s, id); }
    case Fail(id) => if CanFail(s, id) { FailFits(s, id); }
    case Interrupt(id) => if InTry(s, id) { SameStatusFits(s, Left(s, id), id, Releasing); }
    case WriteRow(id, up) =>
      if InWrite(s, id) { SameStatusFits(s, Written(s, id, up), id, Written(s, id, up).flight[id]); }
    case Close(id) => if InPhase(s, id, Archiving) { SameStatusFits(s, Left(s, id), id, Releasing); }
  }

  /** The steps that put a job where somebody will find it. */
  lemma PlacingStepFits(s: State, a: Action)
    requires Inv(s) && (a.Defer? || a.FirstEnqueue? || a.PromoteEnqueue? || a.RollBack? || a.Requeue?)
    ensures StepFits(s, a)
  {
    NothingFits(s);
    match a
    case Defer(id) => if InPhase(s, id, Submitting) { SetAsideFits(s, id); }
    case FirstEnqueue(id) => if InPhase(s, id, Submitting) { PutFits(s, id); }
    case PromoteEnqueue(id) => if InPhase(s, id, Promoting) { PromotePutFits(s, id); }
    case RollBack(id) => if InPhase(s, id, RollingBack) { SetAsideFits(s, id); }
    case Requeue(id) => if InPhase(s, id, Requeueing) { PutFits(s, id); }
  }

  /** The steps that take a job in hand. */
  lemma EntryStepFits(s: State, a: Action)
    requires Inv(s) && (a.Create? || a.Promote? || a.Claim?)
    ensures StepFits(s, a)
  {
    NothingFits(s);
    match a
    case Create(_, _, _, _) => CreateFits(s, a);
    case Promote(id) => if id in s.db.jobs && s.db.jobs[id].status == Scheduled { PromoteFits(s, id); }
    case Claim => ClaimFits(s);
  }

  /** The steps of others than the job's process, and those that only touch leases. */
  lemma OtherStepFits(s: State, a: Action)
    requires Inv(s) && (a.Abort? || a.Crash? || a.Beat? || a.Tick?)
    ensures StepFits(s, a)
  {
    NothingFits(s);
    match a
    case Abort(id) => if Unsettled(s, id) { AbortFits(s, id); } else { AbortRefused(s, id); }
    case Crash(id) => if id in s.flight && !s.flight[id].Crashed? { CrashFits(s, id); }
    case Beat(_, _) => LeaseFits(s, Acted(s, a).db.sems);
    case Tick(_) => LeaseFits(s, Acted(s, a).db.sems);
  }

  lemma EveryStepFits(s: State, a: Action)
    requires Inv(s)
    ensures StepFits(s, a)
  {
    if a.TakeUser? || a.TakeProject? || a.GiveBack? || a.FreeUser? || a.FreeProject? {
      SlotStepFits(s, a);
    } else if a.Advance? || a.Fail? || a.Interrupt? || a.WriteRow? || a.Close? {
      BuildStepFits(s, a);
    } else if a.Defer? || a.FirstEnqueue? || a.PromoteEnqueue? || a.RollBack? || a.Requeue? {
      PlacingStepFits(s, a);
    } else if a.Create? || a.Promote? || a.Claim? {
      EntryStepFits(s, a);
    } else {
      OtherStepFits(s, a);
    }
  }

  // ---------- Runs ----------

  /** Jobs are never deleted, never change owner, project or tier, and keep a terminal status. */
  ghost predicate Grows(s: State, t: State) {
    forall id :: id in s.db.jobs ==>
      && id in t.db.jobs && t.db.jobs[id] == s.db.jobs[id].(status := t.db.jobs[id].status)
      && (Terminal(s.db.jobs[id].status) ==> t.db.jobs[id].status == s.db.jobs[id].status)
  }

  /** The transition an action attempts. */
  function Attempt(s: State, a: Action): Option<JobStatus> {
    match a
    case Defer(id) => if InPhase(s, id, Submitting) then Some(Scheduled) else None
    case RollBack(id) => if InPhase(s, id, RollingBack) then Some(Scheduled) else None
    case Promote(id) => if Transitioned(s.db.jobs, id, Queued).1 then Some(Queued) else None
    case Advance(id) =>
      if !InBuild(s, id) then None
      else if s.flight[id].done < |STAGES| then Some(STAGES[s.flight[id].done]) else Some(Ready)
    case Fail(id) =>
      if CanFail(s, id) then Some(Failed) else None
    case Abort(id) => Some(Failed)
    case _ => None
  }

  lemma JobsAfter(s: State, a: Action)
    requires !a.Create?
    ensures Acted(s, a).db.jobs
            == if Attempt(s, a).None? then s.db.jobs else Transitioned(s.db.jobs, a.id, Attempt(s, a).value).0
  {
  }

  lemma StepGrows(s: State, a: Action)
    ensures Grows(s, Acted(s, a))
  {
    if !a.Create? { JobsAfter(s, a); }
  }

  lemma {:induction false} RunGrows(s: State, actions: seq<Action>)
    ensures Grows(s, RunOf(s, actions))
    decreases |actions|
  {
    if actions != [] {
      StepGrows(s, actions[0]);
      RunGrows(Acted(s, actions[0]), actions[1..]);
    }
  }

  /** A settled job is in no danger. */
  lemma {:induction false} SettledIsSafe(s: State, actions: seq<Action>, id: JobId)
    requires id in s.db.jobs && Terminal(s.db.jobs[id].status)
    ensures id !in Losses(s, actions)
    decreases |actions|
  {
    if actions != [] {
      StepGrows(s, actions[0]);
      SettledIsSafe(Acted(s, actions[0]), actions[1..], id);
    }
  }

  lemma AbortSettles(s: State, a: Action, id: JobId)
    requires id in Aborted(s, a)
    ensures var t := Acted(s, a); id in t.db.jobs && t.db.jobs[id].status == Failed
  {
    assert Failed in Successors(s.db.jobs[id].status);
  }

  /** One step and then the rest, when nothing the step saved is lost again. */
  lemma FitsThen(s: State, t: State, u: State,
                 lost: set<JobId>, saved: set<JobId>, lost': set<JobId>, saved': set<JobId>)
    requires Fits(s, t, lost, saved) && Fits(t, u, lost', saved') && saved !! lost'
    ensures Fits(s, u, lost + lost', saved + saved')
  {
  }

  /**
   Over any interleaving the invariant holds, and the lost jobs are exactly those whose enqueue
   was refused with nobody looking, or whose process was interrupted or crashed before
   settling them, except those that their users cancelled.
   */
  lemma {:induction false} LostExactlyWhenDropped(s: State, actions: seq<Action>)
    requires Inv(s)
    ensures Fits(s, RunOf(s, actions), Losses(s, actions), Aborts(s, actions))
    decreases |actions|
  {
    if actions != [] {
      var a, t := actions[0], Acted(s, actions[0]);
      EveryStepFits(s, a);
      LostExactlyWhenDropped(t, actions[1..]);
      forall id | id in Aborted(s, a) ensures id !in Losses(t, actions[1..]) {
        AbortSettles(s, a, id);
        SettledIsSafe(t, actions[1..], id);
      }
      FitsThen(s, t, RunOf(t, actions[1..]), Loss(s, a), Aborted(s, a),
               Losses(t, actions[1..]), Aborts(t, actions[1..]));
    }
  }

  // ---------- Where a job is ----------

  ghost predicate Waiting(s: State, id: JobId) {
    id in s.db.jobs && s.db.jobs[id].status == Queued && id in Jobs(s.db.queue) && id !in s.flight
  }

  /** Cancelled by its user, and still in the queue: a worker will build it all the same. */
  ghost predicate Withdrawn(s: State, id: JobId) {
    id in s.db.jobs && s.db.jobs[id].status == Failed && id in Jobs(s.db.queue) && id !in s.flight
  }

  ghost predicate PutAway(s: State, id: JobId) {
    id in s.db.jobs && s.db.jobs[id].status == Scheduled && id !in Jobs(s.db.queue) && id !in s.flight
  }

  ghost predicate InHand(s: State, id: JobId) {
    id in s.flight && !s.flight[id].Crashed? && id !in Jobs(s.db.queue)
  }

  ghost predicate InDeadHands(s: State, id: JobId) {
    id in s.flight && s.flight[id].Crashed? && id !in Jobs(s.db.queue)
  }

  ghost predicate Finished(s: State, id: JobId) {
    && id in s.db.jobs && Terminal(s.db.jobs[id].status) && id !in Jobs(s.db.queue) && id !in s.flight
    && (forall x :: x in s.db.sems.slots ==> x.job != id)
  }

  /** Each place counts one. */
  ghost function Places(s: State, id: JobId): nat {
    (if Waiting(s, id) then 1 else 0) + (if Withdrawn(s, id) then 1 else 0) + (if PutAway(s, id) then 1 else 0)
    + (if InHand(s, id) then 1 else 0) + (if InDeadHands(s, id) then 1 else 0)
    + (if Finished(s, id) then 1 else 0) + (if Stranded(s, id) then 1 else 0)
  }

  lemma OnePlace(s: State, id: JobId)
    requires Inv(s) && id in s.db.jobs
    ensures Places(s, id) == 1
    ensures Stranded(s, id) ==> forall x :: x in s.db.sems.slots ==> x.job != id
  {
    if id !in s.flight {
      assert forall x :: x in s.db.sems.slots ==> SlotFits(s, x);
    }
  }

  /** No job is in two places, and none but a refused or dropped one is out of reach. */
  lemma EveryJobIsInOnePlace(s: State, actions: seq<Action>, id: JobId)
    requires Inv(s) && id in RunOf(s, actions).db.jobs
    ensures Places(RunOf(s, actions), id) == 1
    ensures Stranded(RunOf(s, actions), id) ==> (Lost(s, id) || id in Losses(s, actions)) && id !in Aborts(s, actions)
  {
    LostExactlyWhenDropped(s, actions);
    OnePlace(RunOf(s, actions), id);
  }

  ghost predicate NothingLost(s: State) {
    forall id :: id in s.db.jobs ==> !Lost(s, id)
  }

  /** A system that has lost nothing has lost nothing later iff its users have cancelled all the jobs dropped. */
  lemma NothingLostIff(s: State, actions: seq<Action>)
    requires Inv(s) && NothingLost(s)
    ensures NothingLost(RunOf(s, actions)) <==> Losses(s, actions) <= Aborts(s, actions)
  {
    LostExactlyWhenDropped(s, actions);
    NothingLostWhen(s, RunOf(s, actions), Losses(s, actions), Aborts(s, actions));
  }

  lemma NothingLostWhen(s: State, t: State, lost: set<JobId>, saved: set<JobId>)
    requires NothingLost(s) && Fits(s, t, lost, saved)
    ensures NothingLost(t) <==> lost <= saved
  {
    if !(lost <= saved) {
      var id :| id in lost && id !in saved;
      assert Lost(t, id) && id in t.db.jobs;
      assert !NothingLost(t);
    } else {
      forall id | id in t.db.jobs ensures !Lost(t, id) {
        assert Lost(s, id) ==> id in s.db.jobs;
      }
    }
  }

  // ---------- Without interruptions and crashes ----------

  predicate Disturbs(a: Action) {
    a.Interrupt? || a.Crash?
  }

  /** Whoever gives slots back has settled the job. */
  ghost predicate Settled(s: State) {
    forall id :: id in s.flight && id in s.db.jobs && (s.flight[id] == Releasing || s.flight[id] == HalfReleased)
      ==> Terminal(s.db.jobs[id].status)
  }

  lemma NothingDropped(s: State, a: Action)
    requires Settled(s) && !Disturbs(a)
    ensures Loss(s, a) == Refusal(s, a)
  {
  }

  /** Who starts to release has a row behind it, or was releasing already. */
  lemma ReleasingAfter(s: State, a: Action, id: JobId)
    requires !Disturbs(a) && id in Acted(s, a).flight
    requires Acted(s, a).flight[id] == Releasing || Acted(s, a).flight[id] == HalfReleased
    ensures id in s.flight
    ensures || s.flight[id] == Releasing || s.flight[id] == HalfReleased
            || s.flight[id] == Archiving || s.flight[id].Writing?
    ensures !a.Create? || id !in Acted(s, a).db.jobs || id in s.db.jobs
  {
  }

  lemma ReleasedIsSettled(s: State, id: JobId)
    requires Inv(s) && Settled(s) && id in s.flight
    requires || s.flight[id] == Releasing || s.flight[id] == HalfReleased
             || s.flight[id] == Archiving || s.flight[id].Writing?
    ensures id in s.db.jobs && Terminal(s.db.jobs[id].status)
  {
    assert PhaseFits(s.flight[id], s.db.jobs[id].status);
  }

  lemma StepSettled(s: State, a: Action)
    requires Inv(s) && Settled(s) && !Disturbs(a)
    ensures Settled(Acted(s, a))
  {
    var t := Acted(s, a);
    StepGrows(s, a);
    forall id | id in t.flight && id in t.db.jobs && (t.flight[id] == Releasing || t.flight[id] == HalfReleased)
      ensures Terminal(t.db.jobs[id].status)
    {
      ReleasingAfter(s, a, id);
      ReleasedIsSettled(s, id);
      assert t.db.jobs[id].status == s.db.jobs[id].status;
    }
  }

  /** When nobody is interrupted or crashes, a refused enqueue is the only way to lose a job. */
  lemma {:induction false} OnlyRefusalsLose(s: State, actions: seq<Action>)
    requires Inv(s) && Settled(s) && forall a :: a in actions ==> !Disturbs(a)
    ensures Losses(s, actions) == Refusals(s, actions)
    decreases |actions|
  {
    if actions != [] {
      assert actions[0] in actions;
      StepSettled(s, actions[0]);
      NothingDropped(s, actions[0]);
      EveryStepFits(s, actions[0]);
      OnlyRefusalsLose(Acted(s, actions[0]), actions[1..]);
    }
  }

  function EmptySystem(now: int): State {
    State(Db(map[], Queue([], 0), Leases({}, map[], now)), map[], map[])
  }

  /** The empty system is sound and has lost nothing. */
  lemma EmptySystemIsSound(now: int)
    ensures var s := EmptySystem(now); Inv(s) && NothingLost(s) && Settled(s)
  {
  }

  // ---------- Runs put together ----------

  lemma {:induction false} RunAppend(s: State, a: seq<Action>, b: seq<Action>)
    ensures RunOf(s, a + b) == RunOf(RunOf(s, a), b)
    decreases |a|
  {
    if a == [] {
      assert a + b == b;
    } else {
      assert (a + b)[1..] == a[1..] + b;
      RunAppend(Acted(s, a[0]), a[1..], b);
    }
  }

  lemma RunOne(s: State, a: Action)
    ensures RunOf(s, [a]) == Acted(s, a)
  {
    assert RunOf(s, [a]) == RunOf(Acted(s, a), []);
  }

  lemma RunTwo(s: State, a: Action, b: Action)
    ensures RunOf(s, [a, b]) == Acted(Acted(s, a), b)
  {
    assert [a, b][1..] == [b];
    RunOne(Acted(s, a), b);
  }

  lemma RunThree(s: State, a: Action, b: Action, c: Action)
    ensures RunOf(s, [a, b, c]) == Acted(Acted(Acted(s, a), b), c)
  {
    assert [a, b, c][1..] == [b, c];
    RunTwo(Acted(s, a), b, c);
  }
}
