# Verification of the build queue, the founder journey and their helpers

A Dafny model of the parts of the co-founder platform that keep state: the build-job queue, the
founder journey, the two stream splitters, the artifact cascade, and the lease- and time-based
helpers. Classes stand for the source's objects and their methods for its methods. Each method is
proved equal to a function of the old state, and the properties are lemmas about those functions
and about runs of them. `dafny verify dfyconfig.toml` checks everything.

## The build queue

* `RedisStore` is the part of Redis the queue uses: job hashes, the sorted set with its counter, slot
  sets, lease keys with expiry times, and a clock; one method per command. `SortedSet` is the ranked
  set behind it, `QueueSchemas` the tier constants.
* `JobQueue`, `Semaphores`, `JobLifecycle` and `GenerationPipeline` are the queue manager, the leased
  semaphores, the job state machine and the status skeleton of a build.
* `Scheduler` and `Worker` tie them together as whole calls, method by method.
* `WorkerProtocol` drops the assumption that a call runs alone. Every queue, semaphore and
  state-machine call that changes anything is one atomic action, and so is each write of a row; actions
  of any number of requests, workers and re-schedulers interleave freely. A user may cancel a job at any
  moment (`Abort`), a build may be interrupted by asyncio (`Interrupt`), and any process may crash
  between two actions (`Crash`).
* `ProtocolLimits`, `LossWitness` and `StoreAgreement` are about its runs: concurrent builds, a run that
  loses a job, and the rows of the jobs table.
* `Routes` are the API routes that create and cancel jobs. `WholeCalls` goes back to uninterrupted calls,
  as particular runs of the protocol.

The reference for the scored set is a queue of three FIFO lanes. The reference for the protocol is the
placement of jobs: queued, cancelled but queued, scheduled, in live or dead hands, finished, or stranded.

## The founder journey

`Journey` is the event-logged project as a value with one function per call, over the rules in
`StageRules` and the arithmetic in `Progress`; `JourneyServices` is the service over a session that
commits or rolls back. The build hook of the generation service is one of the calls. `JourneyEffects` says
part by part what each call does.

## Streams, cascade, locks, counters

`TextFraming` defines splitting once; `LogStreaming` (server side) and `BuildLogs` (browser side) show
that incremental splitting agrees with it. The browser side accepts an LF-only subset of section 9.2.6
of the WHATWG HTML standard. `ArtifactCascade`, `FileLocks`, `DailyUsage` and `WaitTime` follow one
source file each; `DailyLimit` joins the counter with the submission route and the re-scheduler.

## What is not true of the code

Seven properties that one might expect do not hold. Each is replaced by the exact condition, proved both
ways.

* *Jobs are never lost.* The worker ignores a refused re-enqueue (`backend/app/queue/worker.py:69`,
  `backend/app/queue/worker.py:76`), the generation route ignores a refused first one
  (`backend/app/api/routes/generation.py:259`), and no handler settles the job of an interrupted or
  crashed worker. A job is lost exactly in these ways, unless its user cancels it
  (`WorkerProtocol.LostExactlyWhenDropped`, `WorkerProtocol.NothingLostIff`); with nobody interrupted or
  crashing, only by ignored refusals (`WorkerProtocol.OnlyRefusalsLose`), and
  `LossWitness.EmptySystemCanLoseAJob` builds such a run. When every call runs uninterrupted, the worker's
  re-enqueue always finds room, and the jobs lost are exactly those of generations that met a full queue
  and of interrupted builds (`WholeCalls.WholeCallsLoseExactly`, `WholeCalls.GenerationLosesIff`). The
  comment at `backend/app/queue/worker.py:68` says "same priority"; the job keeps its tier and goes to
  the back.
* *Cancelling a job stops it.* The route documents that it stops the agent
  (`backend/app/api/routes/generation.py:348-349`); it only attempts the transition to FAILED, which
  is refused exactly for a job put off to the next day (`Routes.CancelledIff`). A queued job stays in the
  queue and is built all the same (`WorkerProtocol.EveryJobIsInOnePlace`,
  `Worker.AdmittedJobIsSettled`).
* *The two job stores agree.* `Worker.StoresAgreeIff` gives the exact condition for one call, and
  `Worker.CancelledJobIsRecordedReady` the case without any fault. Over all runs, a row disagrees exactly
  when it is READY and the user had cancelled the job, or FAILED and an exception found the job READY
  (`StoreAgreement.RowsAgreeIff`); whether there is a row also depends on the table being reachable.
* *The daily limit bounds the jobs queued on a day.* It bounds what the submission route accepts
  (`DailyLimit.AcceptedPerDay`). The re-scheduler adds the jobs put off before, unchecked and uncounted;
  `DailyLimit.QueuedPerDay` says exactly when the total stays within the limit, and
  `DailyLimit.LimitCanBeExceeded` builds a run where it does not.
* *Higher tiers always go first.* Exactly while the arrival counter is at most 2*10^12
  (`JobQueue.TiersSeparateIff`, `JobQueue.PriorityFailsPastTheLimit`).
* *The stage never falls by proceeding, and never changes while parked.* `Journey.ProceedLowersIff` and
  `Journey.ParkedStageMovesIff` say exactly when it does.
* *A lock recognises its owner.* Exactly when the holder's name has no colon
  (`FileLocks.OwnershipIsExactIff`).

The scheduler's documentation promises a random delay of up to an hour per job
(`backend/app/queue/scheduler.py:21-24`); the code delays nothing, and the model follows the code.

## Assumptions

* Each method of the queue manager, the semaphores, the state machine, the lock and the usage tracker is
  atomic, and so is the submission route's check and count in `DailyLimit`. The source checks and then
  acts in separate Redis commands (`backend/app/queue/semaphore.py:20-25`,
  `backend/app/queue/manager.py:34-53`); at command level the capacity bounds are not guaranteed.
* Outcomes of sandboxes, runners, generators and database writes, SCAN batches and the passing of time
  are inputs that range over every possibility. Redis commands themselves do not fail.
* In the protocol a dequeue includes the worker's read of the job's hash, and a promotion the
  re-scheduler's: both read only owner, project and tier, which never change. The status the cancel route
  reads first does not matter either, since the transition looks again. An interruption outside the
  worker's try statement releases nothing and is a crash of that call.
* The output callbacks and `flush` of the log streamer do not overlap: `flush` empties a buffer only after
  awaiting its write (`backend/app/services/log_streamer.py:136-141`), and a chunk arriving meanwhile
  would be dropped.
* SCAN returns every existing job hash at least once and any key any number of times; job ids hold no
  colon (they are UUIDs).
* Journey calls are all-or-nothing: exceptions are raised before the commit. A gate belongs to a project,
  and a stage has at most one configuration.
* Percentages are exact quotients where the source divides floats; for the templates' weights, multiples
  of five that total 100 in each stage, the two agree. Wait times are exact reals.

## Model

| member | source | states |
|---|---|---|
| `JobQueue.QueueManager.Enqueue` | backend/app/queue/manager.py:23-58 | Refuses exactly at the cap of 100 with a retry of at least a minute and no change; otherwise draws the next arrival number, stores the score of the tier by its name (995, 998 or 1000 times 10^12, plus the number) and reports the 1-based position. The whole new database is stated, job table and slot sets included. |
| `JobQueue.QueueManager.Dequeue` | backend/app/queue/manager.py:60-70 | Removes and returns the job of lowest score, or returns none and changes nothing. |
| `JobQueue.QueueManager.GetPosition` | backend/app/queue/manager.py:72-78 | The 1-based rank, or 0 for a job that is not queued. |
| `JobQueue.QueueManager.Remove` | backend/app/queue/manager.py:84-86 | Takes out that job and nothing else. |
| `JobQueue.StepRefines` | backend/app/queue/manager.py:33-86 | One enqueue, dequeue or remove on the scored set does to the FIFO lanes inside it exactly what the same operation does to three plain FIFO lanes, and shows the caller the same answer. |
| `JobQueue.RunRefinesFifoLanes` | backend/app/queue/manager.py:33-86 | Over any run whose arrival numbers stay within 2*10^12, the single sorted set is observably the strict-priority queue of three FIFO lanes, chosen by the name of the tier (cto_scale, partner, everything else): same answers, same order, cap kept. |
| `JobQueue.EmptyQueueRefinesFifoLanes` | backend/app/queue/manager.py:17-86 | The same from a newly created queue, with no assumption on its contents. |
| `JobQueue.TiersSeparateIff` | backend/app/queue/manager.py:45-50 | A higher boost is served first whatever the arrival numbers if and only if they stay within 2*10^12. |
| `JobQueue.PriorityFailsPastTheLimit` | backend/app/queue/manager.py:45-53 | The witness past that bound: with the counter at 2*10^12, a bootstrapper job leaves before a partner job. |
| `JobQueue.ScoresAreExactDoubles` | backend/app/queue/manager.py:48-53 | Every score in that range is an integer below 2^53, so the float the source stores is exact. |
| `JobQueue.ScoreRoundTrip` | backend/app/queue/manager.py:48-50 | Boost class and arrival number can be read back from a score, so no two enqueues share one. |
| `JobQueue.EnqueueTidy` | backend/app/queue/manager.py:33-58 | Enqueue keeps every job listed once and the length at most the cap, and is refused exactly when the queue is full, for any counter. |
| `JobQueue.EnqueueRanked` | backend/app/queue/manager.py:45-53 | Enqueue puts the job at the end of the lane of its tier's name and moves no other job, also when the job was queued already. |
| `JobQueue.RetrySays` | backend/app/queue/manager.py:36-42 | A refused caller is told two fifths of a minute for each job over the cap, truncated, and at least one. |
| `JobQueue.PositionCountsDequeues` | backend/app/queue/manager.py:60-78 | The reported position is n exactly when the n-th dequeue from now returns this job; 0 exactly when it is not queued. |
| `JobQueue.LanesInOrder` | backend/app/queue/manager.py:48-53 | Rank order of the set is lane after lane, arrival order within each. |
| `Semaphores.RedisSemaphore.Acquire` | backend/app/queue/semaphore.py:17-30 | True exactly when there is room and the job holds no slot; then the slot and a full-term lease exist and nothing else changed. Otherwise nothing changed. |
| `Semaphores.RedisSemaphore.Release` | backend/app/queue/semaphore.py:32-36 | Slot and lease of this job are gone; every other slot and lease is untouched. |
| `Semaphores.RedisSemaphore.Heartbeat` | backend/app/queue/semaphore.py:38-40 | The new leases are those of a beat, whose effect over time the next rows state. |
| `Semaphores.HeartbeatRenews` | backend/app/queue/semaphore.py:38-40 | After a beat in time the holder keeps slot and lease through any events of less than 3600 seconds, whatever was left of the lease before. |
| `Semaphores.BeatingHolderKeepsSlot` | backend/app/queue/semaphore.py:28-62 | A holder whose gaps between beats are below one term keeps its slot over runs of any length, cleanup and all other holders included. |
| `Semaphores.AcquiredSlotIsLeased` | backend/app/queue/semaphore.py:25-30 | So does one that has just acquired it: an acquired slot comes with a full lease. |
| `Semaphores.LateBeatIsLost` | backend/app/queue/semaphore.py:38-62 | A beat after the lease lapsed does not revive it: the next cleanup removes the slot. |
| `Semaphores.RedisSemaphore.CleanupStale` | backend/app/queue/semaphore.py:46-62 | Removes exactly the members of this semaphore whose lease expired and returns how many those were. |
| `Semaphores.CapacityHolds` | backend/app/queue/semaphore.py:17-62 | Over any run of acquire, release, heartbeat, clock ticks, silent crashes and cleanup, the slot set never exceeds the limit. |
| `Semaphores.LeasesStaySound` | backend/app/queue/semaphore.py:17-62 | Over any such run a live lease belongs to a member of the slot set, and no lease outlasts one full term. |
| `Semaphores.CrashedSlotIsRecovered` | backend/app/queue/semaphore.py:28-62 | A holder that falls silent loses its slot once its term is over and cleanup runs, whatever other holders did meanwhile. |
| `Semaphores.LiveHolderKeepsSlot` | backend/app/queue/semaphore.py:25-62 | No event of anyone else, cleanup included, takes the slot of a holder whose lease has not run out. |
| `Semaphores.AcquireReleaseIsNeutral` | backend/app/queue/semaphore.py:17-36 | Release undoes a successful acquire on all slot sets. |
| `Semaphores.UserSemaphore` | backend/app/queue/semaphore.py:65-77 | The per-user semaphore: 10 slots at cto_scale, 3 at partner, 2 at every other tier. |
| `Semaphores.ProjectSemaphore` | backend/app/queue/semaphore.py:80-92 | The per-project semaphore: 5 slots at cto_scale, 3 at partner, 2 at every other tier. |
| `JobLifecycle.JobStateMachine.Transition` | backend/app/queue/state_machine.py:84-138 | Succeeds exactly when the job exists and the table allows the step; then only this job's status changes. A refusal changes nothing. |
| `JobLifecycle.JobStateMachine.CreateJob` | backend/app/queue/state_machine.py:65-82 | The job exists with status QUEUED; the rest of the database is as it was. |
| `JobLifecycle.StoredStatusEndsItsHistory` | backend/app/queue/state_machine.py:84-138 | Whatever transitions are attempted, the stored status is the end of the history of accepted ones, and no other job is touched. |
| `JobLifecycle.HistoryIsLegal` | backend/app/queue/state_machine.py:46-60 | Every history of a job is a path in the transition table; from READY or FAILED it never moves. |
| `JobLifecycle.TerminalIsLast` | backend/app/queue/state_machine.py:57-58 | READY and FAILED can only be the last status of a history. |
| `JobLifecycle.ReadyHistoriesExactly` | backend/app/queue/state_machine.py:46-60 | A history from creation to READY is exactly: QUEUED, any number of SCHEDULED/QUEUED deferrals, STARTING, one or more full rounds of the four build stages, READY. |
| `JobLifecycle.ReadyEndsWithFullBuild` | backend/app/queue/state_machine.py:46-60 | Any history reaching READY ends with SCAFFOLD, CODE, DEPS, CHECKS, READY whatever retries came before. |
| `Scheduler.ProcessScheduledJobs` | backend/app/queue/scheduler.py:20-95 | Under any repetition of keys by SCAN: returns min(distinct scheduled jobs, free places); exactly that many scheduled jobs are now QUEUED and queued once each, and everything else, other jobs and slot sets, is unchanged. |
| `Scheduler.MoveToQueue` | backend/app/queue/scheduler.py:66-95 | The second loop is the fold of one-job moves over the list found, repetitions included. |
| `Scheduler.CollectScheduled` | backend/app/queue/scheduler.py:46-57 | The ids of one SCAN batch that belong to scheduled jobs; auxiliary keys are skipped. |
| `Scheduler.MoveAllExact` | backend/app/queue/scheduler.py:68-92 | For any list of scheduled ids with repetitions: as many as fit are moved, each counted once, the rest stay SCHEDULED and unqueued; a full queue is the only reason not to move. |
| `Scheduler.MovedCases` | backend/app/queue/scheduler.py:76-92 | A refused enqueue is rolled back completely; an accepted one leaves the job QUEUED and queued. |
| `Scheduler.ScanPicksScheduled` | backend/app/queue/scheduler.py:41-60 | A complete SCAN, however often it repeats a key, picks exactly the scheduled jobs. |
| `GenerationPipeline.GenerationService.ExecuteBuild` | backend/app/services/generation_service.py:64-304 | Returns, raises or is interrupted; the job table gets the stage transitions up to that point, plus FAILED when it raised. |
| `GenerationPipeline.GenerationService.ExecuteIterationBuild` | backend/app/services/generation_service.py:306-633 | The same with the extra failure point: a failing health check fails the job once, and the handler does not fail it again. |
| `GenerationPipeline.BuiltFromQueued` | backend/app/services/generation_service.py:102-298 | From QUEUED, a pipeline that raises at any point leaves the job FAILED, one that returns leaves it in CHECKS, and one that is interrupted leaves it where it had got to; nothing else in the table changes. |
| `GenerationPipeline.StagedFromTerminal` | backend/app/services/generation_service.py:102-199 | The pipeline goes on over a job that was settled meanwhile, and all its transitions are refused. |
| `Worker.ProcessNextJob` | backend/app/queue/worker.py:21-187 | The imperative call, with its queue, semaphores, state machine and jobs table, computes the call on values, an interrupted build included, leaves both slot sets as they were, and writes the row the outcome calls for. |
| `Worker.Execute` | backend/app/queue/worker.py:80-185 | The try statement with its except clause: terminal status and row for every place an exception can strike, and neither for an interruption, which the clause does not catch. |
| `Worker.Simulate` | backend/app/queue/worker.py:96-104 | The fallback loop without a runner, with heartbeats after each stage but the first. |
| `Worker.FirstWriteWins` | backend/app/queue/worker.py:273-321 | Over any writes of any workers, refused and duplicate inserts included, a row never changes once written, and a new row holds the first status that reached the table. |
| `Worker.SlotsAreConserved` | backend/app/queue/worker.py:62-78 | On every return path, for every job, both slot sets equal what they were before the call, the path that gives the user slot back included. |
| `Worker.AdmittedJobIsSettled` | backend/app/queue/worker.py:80-187 | A job that gets both slots leaves the queue; a queued one ends FAILED exactly when its build raised, half-built exactly when it was interrupted, READY otherwise; one cancelled by its user while queued is built all the same and stays FAILED; no other job changes. |
| `Worker.RefusedJobGoesToTheBack` | backend/app/queue/worker.py:66-78 | A job refused a slot is queued again at the end of its tier's lane with nothing else changed: in an uninterrupted call its own dequeue freed the place. |
| `Worker.StoresAgreeIff` | backend/app/queue/worker.py:115-178 | Postgres has a row with the status the job hash ends with if and only if the table took the write, the build was not interrupted, and either it raised, or the job was QUEUED when taken exactly if no exception struck between READY and the write; otherwise its user had cancelled it in the queue. |
| `Worker.CancelledJobIsRecordedReady` | backend/app/queue/worker.py:97-150 | The witness without any fault: a job its user cancelled in the queue is built, stays FAILED in Redis, and gets a READY row in Postgres. |
| `Worker.ExecutedShape` | backend/app/queue/worker.py:85-180 | Real and simulated execution make the same status changes and leave queue and slot sets alone. |
| `WorkerProtocol.LostExactlyWhenDropped` | backend/app/queue/worker.py:48-187 | Over any interleaving of requests, cancellations by users, workers and re-schedulers, with interruptions and crashes anywhere, the invariant (queue, statuses and slot sets all agree with what is in flight) holds, and the jobs out of reach are exactly those whose enqueue was refused with nobody looking or whose process was interrupted or crashed before settling them, except those their users cancelled. |
| `WorkerProtocol.EveryJobIsInOnePlace` | backend/app/queue/worker.py:48-187 | After any run every job is in exactly one place: queued, cancelled but still queued, scheduled, in live hands, in the hands of a crashed process, finished and out of every slot set, or stranded. |
| `WorkerProtocol.NothingLostIff` | backend/app/queue/worker.py:66-78 | A run loses no job if and only if each job of an ignored refusal, of an interrupted build's end, or of a crash with it unsettled in hand, is also cancelled by its user. |
| `WorkerProtocol.OnlyRefusalsLose` | backend/app/queue/worker.py:66-78 | When nobody is interrupted or crashes, jobs are only dropped by enqueues that meet a full queue with nobody looking; the re-scheduler's refused enqueue drops none. |
| `WorkerProtocol.AbortFits` | backend/app/api/routes/generation.py:362-376 | A user's cancellation keeps the invariant, settles an unsettled job wherever it is, queued, in hand or lost, and touches no other. |
| `WorkerProtocol.SettledIsSafe` | backend/app/queue/state_machine.py:57-58 | A settled job is dropped by no later action of anybody. |
| `WorkerProtocol.PromotePutFits` | backend/app/queue/scheduler.py:76-89 | A re-scheduler refused by a full queue still has the job in hand to put it back; an accepted one has it queued; either way the invariant holds and nothing is lost. |
| `WorkerProtocol.EmptySystemIsSound` | backend/app/queue/manager.py:17-21 | An empty database with nothing in flight satisfies the invariant and has lost nothing, so the theorems apply to every system grown from it. |
| `ProtocolLimits.ConcurrentBuildsWithinLimit` | backend/app/queue/worker.py:62-78 | However workers interleave, no user and no project has more builds running than the largest tier limit among its jobs. |
| `LossWitness.RequeueCanLoseAJob` | backend/app/queue/worker.py:67-71 | A worker holds a dequeued job, requests fill the queue, the re-enqueue is refused and ignored, and the job is out of reach. |
| `LossWitness.RequestsFillTheQueue` | backend/app/api/routes/jobs.py:121-146 | From any sound state, that many new requests in a row bring the queue to that length and touch no other job. |
| `LossWitness.EmptySystemCanLoseAJob` | backend/app/queue/worker.py:66-71 | A run from the empty system, with nobody interrupted, crashed or cancelled, that loses a job through the ignored re-enqueue. |
| `StoreAgreement.RowsAgreeIff` | backend/app/queue/worker.py:115-178 | Over any run from the empty system: a job with a row is settled, the row says READY or FAILED, and row and hash agree if and only if the row is READY and the user had not cancelled the job, or it is FAILED and no exception found the job READY. |
| `Routes.SubmitJob` | backend/app/api/routes/jobs.py:87-146 | Over limit: created and put off. Otherwise refused without a trace at a full queue, else created and queued. |
| `Routes.StartGeneration` | backend/app/api/routes/generation.py:244-259 | Creates the job and enqueues it, ignoring the answer. |
| `Routes.CancelGeneration` | backend/app/api/routes/generation.py:340-376 | 404 for a stranger's or missing job, 409 for a settled one, otherwise the transition to FAILED is attempted; queue and slot sets are left alone. |
| `Routes.CancelledIff` | backend/app/api/routes/generation.py:362-376 | The route answers cancelled, and the job is FAILED afterwards if and only if it was not SCHEDULED: a job put off to the next day is not cancelled. |
| `Routes.StrangersChangeNothing` | backend/app/api/routes/generation.py:362-366 | Anybody but the owner gets 404 and changes nothing. |
| `Routes.SubmissionSays` | backend/app/api/routes/jobs.py:87-146 | A submitted job is put off over the limit, at the end of its tier's lane when there is room, and otherwise never existed. |
| `Routes.GenerationSays` | backend/app/api/routes/generation.py:244-259 | A generation always creates its bootstrapper job, and queues it only when there is room. |
| `WholeCalls.WholeCallIsARun` | backend/app/queue/worker.py:48-187 | process_next_job run without interruption by others, on values, is one particular run of the interleaved protocol: heartbeats, the row, late faults, an interrupted build and a job cancelled in the queue included. |
| `WholeCalls.WholeMoveIsARun` | backend/app/queue/scheduler.py:68-92 | So is the move of one scheduled job: transition, enqueue and, when that is refused, the transition back. |
| `WholeCalls.CallLosesExactly` | backend/app/api/routes/generation.py:244-259 | A whole submission, generation, cancellation, worker call or re-scheduling keeps the invariant, whatever other processes keep in hand, loses exactly the job of a generation that meets a full queue or of an interrupted build, and saves exactly the unsettled job a user cancels. |
| `WholeCalls.WholeCallsLoseExactly` | backend/app/queue/scheduler.py:62-92 | Over any run of whole calls the jobs lost are exactly those, without those saved. |
| `WholeCalls.WholeCallsLoseNothing` | backend/app/api/routes/jobs.py:91-161 | Over any run of whole submissions, cancellations, worker calls and re-schedulings without interruption no job is lost or duplicated: every job is waiting, withdrawn but queued, put away, in hand, or finished and out of every slot set. |
| `WholeCalls.GenerationLosesIff` | backend/app/api/routes/generation.py:244-259 | The generation route, run alone from any sound state, leaves its job out of reach if and only if the queue is full. |
| `Progress.ComputeGlobalProgress` | backend/app/domain/progress.py:30-55 | The accumulating loop computes the truncated weighted average of the stage percentages. |
| `Progress.StageTruncation` | backend/app/domain/progress.py:7-27 | A stage's percentage times its weight is within one weight below 100 times the completed weight, and is 100 exactly when all (non-zero) weight is completed. |
| `Progress.TruncationIsUnderTwoPoints` | backend/app/domain/progress.py:7-55 | total*global <= 100*completed < total*(global+2), global stays within 0..100, and it is 100 exactly when all weight is completed; any number of stages, zero-weight ones included. |
| `Progress.OnePointIsNotEnough` | backend/app/domain/progress.py:18-55 | A project with exactly half its weight done that shows 49, so the bound of two points cannot be replaced by one. |
| `Progress.StageProgressMonotone` | backend/app/domain/progress.py:7-27 | Resetting milestones never raises a stage's percentage, completing never lowers it. |
| `Progress.OverallMonotone` | backend/app/domain/progress.py:7-55 | The same for the project's percentage, through both truncations. |
| `Progress.RowOrderIsIrrelevant` | backend/app/services/journey.py:455-469 | The percentage does not depend on the order in which the unordered query returns the stages. |
| `Journey.JourneySafety` | backend/app/services/journey.py:138-492 | After any mix of calls, build hooks and deletions: replaying the transition events gives the stage, each event starts where the one before ended, the stage stays in 1..4 once set, and the cached percentage is never below the computed one. |
| `Journey.ExecKeepsInv` | backend/app/services/journey.py:44-492 | Every single call keeps that invariant, a call that raises included, and never unsets the stage. |
| `Journey.NewProjectIsSafe` | backend/app/services/journey.py:44-84 | A project without stage configurations and events satisfies it. |
| `Journey.DecideSucceedsIff` | backend/app/services/journey.py:138-254 | Exactly when a decision goes through: pending gate, known decision, and per decision the condition on gate stage, project stage and stored status, which may be deleted. |
| `Journey.StageAfterDecide` | backend/app/services/journey.py:188-231 | The stage each successful decision leads to. |
| `Journey.ProceedLowersIff` | backend/app/domain/gates.py:57-73 | Proceeding lowers the stage if and only if the project had already moved past the stage after the gate's. |
| `Journey.ParkedStageMovesIff` | backend/app/services/generation_service.py:753-779 | While a project is parked or deleted its stage changes if and only if the first-build hook runs below stage 3; no journey call changes it. |
| `Journey.ParkThenUnparkRestores` | backend/app/services/journey.py:367-416 | Park followed by unpark restores stage, milestones, cached percentage and active status, and leaves exactly three entries in the log. |
| `Journey.PivotClearsLaterStages` | backend/app/services/journey.py:213-228 | After a pivot no milestone of stages 2 to 5 is completed, the reported keys are exactly those of stages 2 to 5 in order, and stage 1 is untouched. |
| `Journey.CompleteKeepsInv` | backend/app/services/journey.py:444-474 | Right after completing a milestone the cached percentage equals the computed one, and the invariant holds. |
| `Journey.InitializeKeepsInv` | backend/app/services/journey.py:44-84 | Installs the templates of all five stages and keeps the invariant; with configurations present nothing happens. |
| `Journey.TransitionKeepsInv` | backend/app/services/journey.py:256-317 | A transition to 1..4 succeeds exactly for an active project at another stage, and leaves it there with a matching event. |
| `JourneyEffects.NarrowReopensItsStage` | backend/app/services/journey.py:205-212 | After narrowing no milestone of the gate's stage is completed, the reported keys are exactly that stage's in order (none without a configuration), every other stage is as it was, and reset and decision are logged. |
| `JourneyEffects.DecisionSays` | backend/app/services/journey.py:138-254 | A successful decision closes its gate with the decision on record, reports and logs its target and the number of milestones reset, leaves other gates and the cached percentage alone; only parking changes the status, only narrowing and pivoting reset. |
| `JourneyEffects.DecisionRefused` | backend/app/services/journey.py:164-200 | What a decision of a missing gate, of a decided gate, and an unknown decision is told. |
| `JourneyEffects.CreatedGateIsPending` | backend/app/services/journey.py:86-136 | A created gate is pending at its stage; nothing else changes but the log. |
| `JourneyEffects.DecidedOnce` | backend/app/services/journey.py:160-190 | After one successful decision every later decision of the same gate fails, over any run of calls that does not recreate it. |
| `JourneyEffects.CompleteSucceedsIff` | backend/app/services/journey.py:438-446 | Completing succeeds exactly for a milestone of a configured stage. |
| `JourneyEffects.CompletionSays` | backend/app/services/journey.py:444-474 | On success exactly the milestone of that key in that stage is completed; every other milestone, the other stages, gates, stage and status are as before, and neither the stage percentage nor the project percentage falls. |
| `JourneyEffects.FirstMilestone` | backend/app/services/journey.py:444-474 | On a freshly initialised project, completing brief_generated makes stage 1 show 40 percent and the project 10. |
| `JourneyEffects.InitializeSays` | backend/app/services/journey.py:44-84 | Initialising configures the five stages once, each with its template, and logs it. |
| `JourneyEffects.StatusCallsSay` | backend/app/services/journey.py:391-416 | Unparking sets the status to active whatever it was, and is logged; nothing else changes. |
| `JourneyEffects.HookSays` | backend/app/services/generation_service.py:736-794 | The first build moves a project below stage 3 to stage 3 and logs both events; any other build does nothing. |
| `JourneyEffects.TemplateTable` | backend/app/domain/templates.py:10-54 | Keys and weights of the five templates. |
| `JourneyEffects.TemplatesWeigh` | backend/app/domain/templates.py:10-54 | Every stage but the last weighs 100 and starts open; the last is empty. |
| `StageRules.TransitionAllowedIff` | backend/app/domain/stages.py:64-87 | A transition is allowed exactly for an active project, to another stage of 1 to 4, and forward with a decision to proceed. |
| `JourneyServices.JourneyService.InitializeJourney` | backend/app/services/journey.py:44-84 | The loop over the five templates commits the configurations of all stages, once. |
| `JourneyServices.JourneyService.DecideGate` | backend/app/services/journey.py:138-254 | Session, commit and rollback: the committed project is exactly the decided one, or unchanged when the call raises, and the caller is told target (none for the pre-stage) and reset keys, or that error. |
| `JourneyServices.JourneyService.Apply` | backend/app/services/journey.py:202-230 | The branch on the decision computes the effect used in the lemmas. |
| `JourneyServices.JourneyService.ResetLaterStages` | backend/app/services/journey.py:217-228 | The loop over stages 2 to 5 resets them one after the other and collects the keys. |
| `JourneyServices.JourneyService.ResetMilestones` | backend/app/services/journey.py:319-365 | The loop over keys clears exactly the named milestones of that stage and logs them; unknown keys and stages are ignored. |
| `JourneyServices.JourneyService.MoveTo` | backend/app/services/journey.py:256-317 | A refused transition leaves the session as it was. |
| `JourneyServices.JourneyService.UnparkProject` | backend/app/services/journey.py:391-416 | Commits the active status and an event. |
| `JourneyServices.JourneyService.CompleteMilestone` | backend/app/services/journey.py:418-492 | Commits exactly the completion of that milestone or nothing; returns the new percentage of that stage; on success the cached percentage equals the computed one. |
| `JourneyServices.JourneyService.GetProjectProgress` | backend/app/services/journey.py:494-535 | Computes from the milestones, whatever is cached. |
| `TextFraming.SplitJoins` | backend/app/services/log_streamer.py:116-120 | Splitting on a delimiter and joining again gives the text back, and no piece contains the delimiter; with the newline this is the line splitting the buffers rely on. |
| `LogStreaming.LinesAreTheWholeTextSplit` | backend/app/services/log_streamer.py:113-141 | For any cut of a source's output into chunks, interleaved in any way with chunks of the other source and stage events and ended by flush, the lines handed to the writer are the newline split of the whole text without an empty last piece. |
| `LogStreaming.AllInStep` | backend/app/services/log_streamer.py:113-128 | At every moment written lines plus the buffer are the split of all text received so far. |
| `LogStreaming.FlushTwice` | backend/app/services/log_streamer.py:130-141 | A second flush adds nothing. |
| `LogStreaming.StoredLengths` | backend/app/services/log_streamer.py:169-180 | Every stored text is at most 2000 characters plus the truncation marker, whatever sanitising does. |
| `LogStreaming.StoredSays` | backend/app/services/log_streamer.py:155-198 | The entries correspond in order, one each, to the lines handed over that are not all spaces: same source, and the sanitised text, whole up to 2000 characters and otherwise its first 2000 and the marker. |
| `LogStreaming.NothingRawIsStored` | backend/app/services/log_streamer.py:172-198 | Whatever holds of every sanitised and clipped text holds of every stored one, so no raw text gets through. |
| `LogStreaming.EventsAreWritten` | backend/app/services/log_streamer.py:143-149 | Stage events are written at once and in order, whatever is buffered, and flushing adds none. |
| `LogStreaming.FlushSays` | backend/app/services/log_streamer.py:130-141 | Flushing writes what is left of stdout, then what is left of stderr, and empties both buffers. |
| `TextFraming.TrimmedSays` | backend/app/services/log_streamer.py:169-170 | Trimming takes spaces off both ends and nothing else, until neither end is one. |
| `LogStreaming.LogStreamer.OnStdout` | backend/app/services/log_streamer.py:113-120 | Buffer and entries after a chunk are those of the buffering on values. |
| `LogStreaming.LogStreamer.OnStderr` | backend/app/services/log_streamer.py:122-128 | The same for the error stream; the other buffer is untouched. |
| `LogStreaming.LogStreamer.Flush` | backend/app/services/log_streamer.py:130-141 | Both buffers are written when non-empty and are empty afterwards. |
| `LogStreaming.LogStreamer.WriteEvent` | backend/app/services/log_streamer.py:143-149 | Written at once, past the buffers. |
| `BuildLogs.ReadingIsChunkInvariant` | frontend/src/hooks/useBuildLogs.ts:78-125 | For any cut of the decoded text into chunks, also one through the middle of a blank line, the view equals handling the blocks of the whole text without its unfinished tail, up to the first block that ends the connection. |
| `BuildLogs.FieldsSay` | frontend/src/hooks/useBuildLogs.ts:93-103 | Event and data of a block are the trimmed values of its last lines of that name, message and nothing without one. |
| `BuildLogs.ViewSays` | frontend/src/hooks/useBuildLogs.ts:90-165 | The view shows all log lines up to the first block that ends the connection, in order; it is done exactly when that is a done block, with that block's status, and connected exactly when there is none; the attempt shown is set by the last system line that starts or clears one. |
| `BuildLogs.ConnectSSE` | frontend/src/hooks/useBuildLogs.ts:76-165 | The reading loop with its mutable buffer computes exactly that, and stops reading after done or a null log line. |
| `BuildLogs.HandleBlocks` | frontend/src/hooks/useBuildLogs.ts:90-165 | Blocks take effect in order up to the first done, or the first log line whose JSON is null, which ends in the outer handler; heartbeats, blank blocks and undecodable lines have none. |
| `BuildLogs.ParseBlock` | frontend/src/hooks/useBuildLogs.ts:93-103 | Event name and data of a block; a later line of the same name wins. |
| `FileLocks.OneHolderAtATime` | backend/app/core/locking.py:53-98 | Over any timed run of calls by owners without a colon, at most one owner holds an unexpired grant of a file. |
| `FileLocks.PerformedBacked` | backend/app/core/locking.py:53-204 | Every call keeps each unexpired grant backed by the stored lock, with that owner and that expiry time. |
| `FileLocks.OwnershipIsExactIff` | backend/app/core/locking.py:64-69 | The prefix test recognises exactly the holder among all colon-free owners if and only if the holder's name has no colon. |
| `FileLocks.OthersCannotRelease` | backend/app/core/locking.py:92-98 | Release and extend succeed exactly for the holder; an expired owner can neither remove nor prolong its successor's lock. |
| `FileLocks.InfoRoundTrip` | backend/app/core/locking.py:117-132 | is_locked reports the owner, the time and the lease that acquire stored. |
| `FileLocks.LeaseIsTheCallers` | backend/app/core/locking.py:55-71 | A lock taken or prolonged with a positive lease time expires exactly then, otherwise after 300 seconds; prolonging keeps owner and time of the first acquisition. |
| `FileLocks.KeysAreDistinct` | backend/app/core/locking.py:31-33 | Two files of colon-free projects never share a lock key. |
| `FileLocks.Acquired` | backend/app/core/locking.py:53-71 | Succeeds exactly when the file is free or the caller's own; a refusal changes nothing, a success leaves the caller holding it for a full lease. |
| `FileLocks.FileLock.Acquire` | backend/app/core/locking.py:35-71 | The method's new lock table and answer are those of the function above. |
| `FileLocks.FileLock.Release` | backend/app/core/locking.py:73-98 | Removes the lock exactly when the caller owns it unexpired. |
| `FileLocks.FileLock.Extend` | backend/app/core/locking.py:177-204 | Prolongs the lock exactly when the caller owns it unexpired. |
| `FileLocks.ExitSparesOthers` | backend/app/core/locking.py:267-271 | Leaving the context manager after any timed run, lease expired or not, takes no unexpired grant away from anyone else, a successor on the same file included. |
| `FileLocks.WaitingEnds` | backend/app/core/locking.py:255-263 | A waiter that gets the lock holds it for a full lease and got it before its deadline; one that does not has changed nothing, whatever others did while it slept, and its deadline passes. |
| `FileLocks.FileLock.Enter` | backend/app/core/locking.py:225-267 | The waiting loop, or the single try without waiting, computes that. |
| `FileLocks.FileLock.Exit` | backend/app/core/locking.py:269-271 | Releases exactly when it had been acquired. |
| `ArtifactCascade.GenerateCascade` | backend/app/artifacts/generator.py:66-133 | For any pattern of generator failures: held contents verbatim, each other type exactly what the generator said to its completed predecessors, nothing behind a failed brief or scope, failed types in order, and the exact sequence of requests made with their contexts. |
| `ArtifactCascade.CascadeSays` | backend/app/artifacts/generator.py:107-131 | A missing brief stops everything behind it, a missing scope the three behind it, and nothing else stops anything: every other type not held is what the generator said to its context. |
| `ArtifactCascade.ContextSays` | backend/app/artifacts/generator.py:88-105 | A context holds exactly the finished types among the earlier ones, with their contents. |
| `ArtifactCascade.RequestsSay` | backend/app/artifacts/generator.py:90-105 | Each type is asked for at most once, in order and with its context, and exactly when it is neither held nor stopped. |
| `ArtifactCascade.FailedInOrder` | backend/app/artifacts/generator.py:107-131 | Failed types are listed in the order of generation. |
| `ArtifactCascade.FailTheRest` | backend/app/artifacts/generator.py:112-125 | Appends the later types that are not completed, in order. |
| `ArtifactCascade.CompletedAndFailedPartition` | backend/app/artifacts/generator.py:86-133 | Each of the five types is in exactly one of completed and failed, and failed has no repeats. |
| `ArtifactCascade.RetryOnlyGrows` | backend/app/artifacts/generator.py:86-95 | A retry from a partial result keeps every completed content and only shrinks failed. |
| `ArtifactCascade.RetriesOnlyGrow` | backend/app/artifacts/generator.py:86-133 | The same between any two attempts of a chain of retries of any length, with any generators. |
| `ArtifactCascade.RetryCompletes` | backend/app/artifacts/generator.py:91-105 | With a generator that answers everything, one call from any partial result completes the cascade. |
| `ArtifactCascade.OutcomeIsUnique` | backend/app/artifacts/generator.py:86-133 | The loop-free description of the outcome admits one result only, so it determines the loop's. |
| `DailyUsage.CounterIsTodaysCount` | backend/app/queue/usage.py:16-56 | Over any run of increments and passing time the counter shown for a user is the number of that user's increments on the current UTC day; no expiry drops one. |
| `DailyUsage.ResetIsNextMidnight` | backend/app/queue/usage.py:123-135 | The reset is the midnight starting the next day, later than now and at most 24 hours away. |
| `DailyUsage.UsageTracker.IncrementDailyUsage` | backend/app/queue/usage.py:16-39 | Counts the job, sets the expiry only on a fresh key, and returns today's new count. |
| `DailyLimit.AcceptedPerDay` | backend/app/api/routes/jobs.py:87-149 | Over any run of submissions, promotions and passing time, the jobs of a user accepted by the submission route on a UTC day are at most the largest daily limit used and at least the smaller of the least limit and the jobs counted: with one tier, exactly the minimum of limit and jobs counted. |
| `DailyLimit.SubmissionSays` | backend/app/api/routes/jobs.py:87-131 | A submission is put off exactly when the jobs counted today have reached 200, 50 or 5 by the name of the tier, full queue or not; below that it is accepted exactly when there is room. |
| `DailyLimit.PutOffIsConserved` | backend/app/queue/scheduler.py:68-92 | Over any such run every job of a user put off has been queued by the re-scheduler exactly once or is still waiting. |
| `DailyLimit.QueuedPerDay` | backend/app/queue/scheduler.py:68-92 | All jobs of a user queued on a day are those accepted and those the re-scheduler promoted, the latter no more than were ever put off; the total stays within the tier's limit if and only if none was promoted that day or counted and promoted together stay within it. |
| `DailyLimit.LimitCanBeExceeded` | backend/app/queue/scheduler.py:68-92 | The witness, for any tier: a run in which more jobs than the limit are queued on one day. |
| `DailyLimit.SubmitJob` | backend/app/api/routes/jobs.py:87-149 | The route looks at the limit, then at the queue, and counts every job it does not refuse, put-off ones included. |
| `WaitTime.AverageStaysWithin` | backend/app/queue/estimator.py:28-31 | For alpha in [0,1] the average never leaves bounds that hold for the default and all durations. |
| `WaitTime.EqualDurationsConverge` | backend/app/queue/estimator.py:28-31 | After k equal durations the distance to them is (1-alpha)^k times the initial one. |
| `WaitTime.EachTierAveragesItsOwn` | backend/app/queue/estimator.py:19-31 | After any completions in any mix of tiers, the stored average of a tier is that of its own durations, so the two results above hold of the stored averages. |
| `WaitTime.IntervalContainsEstimate` | backend/app/queue/estimator.py:62-76 | lower <= estimate <= upper after truncation. |
| `WaitTime.EstimateIsMonotone` | backend/app/queue/estimator.py:46-49 | The truncated estimate grows with position and falls with the number of workers. |
| `WaitTime.EstimateSaysHowLong` | backend/app/queue/estimator.py:46-49 | Workers (at least one) times the estimate is at most average times position, and less than one second per worker below it. |
| `WaitTime.WaitTimeEstimator.RecordCompletion` | backend/app/queue/estimator.py:19-31 | Stores the new average of this tier and leaves the other tiers alone. |
| `WaitTime.WaitTimeEstimator.EstimateWithConfidence` | backend/app/queue/estimator.py:51-76 | Estimate and interval bounds, truncated toward zero. |

## Left out

- ProtocolLimits.ConcurrentBuildsWithinLimit: bounds by the largest tier limit among the jobs concerned, because jobs of one user may carry different tiers.
- Semaphores.RedisSemaphore.CleanupStale: proved on its own and over runs of one semaphore; it is not a step of the worker protocol, because nothing in the application calls it.
- JobQueue.QueueManager.Remove: part of the lane refinement, not a step of the worker protocol, because no modelled caller removes a job.
- Worker.Simulate: stops after the heartbeats of a stage, not between them, which only matters to lease times.
- The sandbox the cancel route kills, which only decides where a build raises.
- Lease expiry during a build does not end that build: the source keeps the slot until release, and so does the protocol.
- `cleanup_stale_jobs`, which deletes a job hash and leaves its queue entry behind, so placement would not hold with it.
- Command-level interleavings inside one Redis-backed method, and failing Redis commands.
- Status messages, timestamps, pub/sub events, stored result fields and other hash fields that no branch reads.
- Sandboxes, LLM runners, prompts, documentation, narration, health checks and S3 archiving: they only decide where a build raises.
- Iteration counters and their confirmation depth, the usage summary for the API, and wait-time formatting.
- The call from the worker to the estimator; the estimator is proved on its own.
- Build-version numbering; the hook receives the version as an input.
- The generation route's builds in the daily count: that route neither checks nor counts.
- A project whose stored stage is 0 or whose milestones were edited outside the service.
- Risks, dismissal of risks, and the timeline of the journey.
- ANSI stripping, secret redaction, whitespace tests, JSON parsing and the auto-fix patterns are given functions; byte decoding is done before the model starts.
- Stream trimming and expiry of the log stream, swallowed `xadd` failures, loading earlier lines, reconnection and React state.
- The listing and the forced release of the file lock, and negative lease times.
- Tier filtering of artifacts, and the contents the generators produce.
- Floating-point rounding: a weight of 29 out of 100 shows 28 percent in doubles and 29 in the model.
