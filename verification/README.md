# Verified model of the multiscan pipelines

multiscan looks for proxies in large address ranges. A master splits a job over worker machines;
the workers find open ports with masscan, probe them, and verify the hits with an outside service.
This project models the parts in which the order of events or the arithmetic decides whether the
result is right, and proves what those parts promise.

| files | what they model |
|---|---|
| `Db.dfy` | the rows that the v2 master and workers share, one function for each SQL statement, and the `Store` object whose methods change the rows in place |
| `Pipeline.dfy`, `PipelineBase.dfy`, `PipelineSafe.dfy`, `PipelineScanned.dfy`, `PipelineTheorems.dfy`, `PipelineWitness.dfy` | one v2 job as a state machine: the goroutine that starts it, the two watchers, the phase-1 goroutines, and in each worker the scan loop, the verification loop and one goroutine per row; the invariants; the results about all runs; and runs that show what a cancel and a restart can do |
| `PipelineCommit.dfy`, `PipelinePanic.dfy`, `PipelineProgress.dfy` | that a claimed row is marked as done and what a panic does to it; that the watchers get a job to its end, and what stopping the master can undo |
| `PipelineRows.dfy`, `PipelineHistory.dfy` | where a stored result and its delay come from, who holds a row, what the job row counts, and what the history of a run records |
| `TaskStore.dfy`, `WorkerStore.dfy`, `Tick.dfy`, `TickProofs.dfy` | the stores of the v1 master as classes, and one scheduling pass that nothing interrupts |
| `Scheduler.dfy`, `SchedulerProofs.dfy`, `Capacity.dfy`, `Overlap.dfy`, `Owed.dfy`, `SchedulerRuns.dfy`, `SchedulerWitness.dfy` | the v1 master with everything that runs at once: passes, handlers, disconnects, the offline detector; what overlapping passes can do; who holds a task; and runs that show how a task is lost |
| `Load.dfy`, `TaskHistory.dfy`, `SoloPass.dfy` | the load counter and the fields of a task over any run; and that a pass nothing interrupts is the sequential pass |
| `Allocator.dfy`, `AllocatorProofs.dfy` | packing CIDR blocks into shards |
| `Text.dfy`, `MasscanReader.dfy` | digits, fields and host:port names; the batch parser and the streaming reader of masscan's output |
| `ScanPipeline.dfy`, `VerifyPipeline.dfy`, `VerifyHits.dfy` | the channel pipelines of a v1 task, any interleaving, and the marking of its entries |
| `Split.dfy`, `Expand.dfy` | the split of the CIDR list by scan rate; random addresses from CIDR blocks |

## How runs are modelled

In the state machines every goroutine has a program counter and one action is one SQL statement, one
store method under its mutex, one channel operation, or one local decision. Any enabled action may
come next. The outcome of a scan or of a verification, the rows a claim picks, and the answer of a
socket are chosen freely. The loops of the v2 watchers and workers are therefore steps of a state
machine and not methods. Each statement is a function on the rows. Those that the code calls through
v2/internal/pg/pg.go are methods of `Db.Store` too, each proved equal to its function; those that the
loops write out themselves (`StartJob`, `RejectResult`, `ReleaseOffline`, `DeleteTlsOk`, `SetStatus`
for a failed job) have the function only.

Assumptions about v2: statements succeed and are atomic; worker ids are distinct; a key (job, address,
port) has at most one row per table; a new job is `pending` in `phase1`; one master process runs at a
time, and it may stop and start again; a worker is `offline` only after its process has stopped. One
job is modelled; every statement names its job except crash recovery, which treats each row by itself.

What a cancel can do to a finished job: that a job set to done has every row scanned and done holds
whatever is cancelled. That no hit is left unverified holds unless the release of a cancel takes a row
away from its scanner when the watcher has picked up the job and not yet counted the rows that are not
done, or when the job is no longer marked as cancelled (`PipelineTheorems.Races`); `PipelineWitness.CancelledJobCanEndUnverified` is a run
with such a race, and `PipelineTheorems.UnverifiedNeedsARace` says that there is no other way. Results
about jobs that are still running ask for more, that no cancel has released a row that was being
processed (`hist.stole` is false).

Assumptions about v1: a message that was written arrives; a worker registers again only when the
disconnect of its earlier connection has ended or the handler of that connection was lost (a new
connection then starts from a fresh handler).

## What the code does and its comments do not say

- `randomIPInNetwork` says that it skips the broadcast address; it can return it from blocks of at most
  2^16 addresses (`Expand.BroadcastIsReachable`).
- `Tick` says that it marks the worker as busy; it writes to a copy, so only the load counter keeps the
  next pass from choosing the worker again. The assignment to the copy is not modelled.
- `handleResult` looks up the connection for its reply. When the offline detector has dropped it, the
  handler panics, which the HTTP server survives, and never gives its worker's tasks back (`SchedulerProofs.ReplySurvivesIff`,
  `SchedulerProofs.HandlerLostIff`, `SchedulerProofs.StrandedForEver`,
  `SchedulerWitness.LostHandlerStrandsATask`).
- A worker that registers with neither id nor name is given tasks, and they are never given back
  (`SchedulerWitness.UnnamedWorkerStrandsATask`).
- `handleResult` does not ask whether the reported task is still under way. A result for a task that is
  pending again leaves the ended task queued for ever; the tasks before it are still dispatched, and
  once it is at the head no pass dispatches anything. The queue holds nothing but pending tasks exactly
  as long as no such result has come (`SchedulerProofs.QueueIsCleanIff`, `SchedulerProofs.StaleForEver`,
  `TickProofs.LateResultStopsAt`, `SchedulerWitness.LateResultStopsTheQueue`).
- A row whose scan panics stays with its worker, because crash recovery looks at offline workers only; the
  job cannot be done while that worker runs (`PipelinePanic.PanickedRowBlocks`).
- A master that stops after the statement that sets the phase of a job to `done` never goes on with that
  job: the status stays `running` and refused results are not deleted (`PipelineProgress.RestartDropsJob`,
  `PipelineWitness.RestartStrandsJob`).
- Passes that overlap can load a worker above its limit, by at most one task for every pass but the
  first (`Overlap.OverlapBound`, `Overlap.OverlapBoundIsMet`).
- Between assigning a task and sending it a pass does not look at the task again, and taking a task back
  does not look at its owner. Both can leave a worker with a task that is no longer its own, and nothing
  else can (`Owed.OwedByOwnerIff`, `SchedulerWitness.ReturningWorkerIsSentAQueuedTask`,
  `SchedulerWitness.TaskTakenFromItsWorker`).
- With as many blocks of 2^32 or more addresses as shards, the next block overflows a running total
  (`AllocatorProofs.TooManyCapped`). The totals are right exactly when the blocks fit into the shards
  at all (`AllocatorProofs.TotalsAreLoads`, `AllocatorProofs.PackableIff`).
- `verifyHits` has a branch that sets `failed-verify`; no answer that `VerifyBatch` returns takes it.
- `VerifyBatch` waits for ever when a target does not parse (`VerifyPipeline.ReturnsIffAllParse`).
- Rounding every share up to one CIDR can leave a later worker with none (`Split.WorkerGetsSomethingIff`,
  `Split.LastCanStarve`).

## Model

| member | source | states |
|---|---|---|
| `PipelineTheorems.DoneMeansComplete` | v2/cmd/master/main.go:263-288 | when the job is set to done, although the counts are read one by one while workers go on, the queue holds exactly the rows that some insert of phase 1 named, and each of them has been scanned and is done; and that stays so for ever, whatever was cancelled |
| `PipelineTheorems.DoneMeansVerified` | v2/cmd/master/main.go:267-285 | nor does a `tls-ok` row wait for verification then or later, unless a cancel raced with the watcher |
| `PipelineTheorems.UnverifiedNeedsARace` | v2/internal/pg/pg.go:222-225 | an unverified row in a job that was set to done has such a race behind it |
| `PipelineTheorems.StolenIsHalted` | v2/cmd/master/main.go:250-251 | without such a race a job from which a cancel has taken a row stays cancelled and is never set to done |
| `PipelineTheorems.NotStolenNoRace` | v2/internal/pg/pg.go:222-225 | a run in which no cancel takes a row away has no race |
| `PipelineTheorems.StoleIff` | v2/internal/pg/pg.go:222-225 | a run counts as one in which a cancel took a row away exactly if some release found a row being processed |
| `PipelineScanned.DoneRowsWereScanned` | v2/cmd/worker/main.go:391-427 | in every run a work row is done, and a result stored, only for a row that was scanned |
| `PipelineTheorems.CleanedResults` | v2/cmd/master/main.go:282-288 | once the clean-up delete has run and unless a cancel raced with the watcher: at every later moment the results are exactly the rows whose verification succeeded, every row that some insert named was scanned and, if its last scan was a hit, verified or refused, and what `GetResults` lists is verified rows only, as they are stored |
| `PipelineTheorems.DoneCannotBeStolen` | v2/internal/pg/pg.go:222-225 | once every row is done no cancel or crash recovery takes one back |
| `PipelineTheorems.NeverCancelled` | v2/cmd/master/main.go:344-349 | in a run without cancels, or with cancels only while no row is being processed, no cancel has taken a row away |
| `PipelineWitness.CancelledJobCanEndUnverified` | v2/internal/pg/pg.go:222-225 | a concrete run: a cancel releases a row under its scanner, and the job ends done and cleaned up with an unverified hit |
| `PipelineTheorems.HitsAreStoredBeforeDone` | v2/cmd/worker/main.go:404-419 | while no cancel has taken a row away: a row marked done was scanned, and if its last scan was a hit its result is stored, up to the clean-up of refused ones |
| `PipelineTheorems.VerifiedStaysVerified` | v2/cmd/worker/main.go:498-513 | while no cancel has taken a row away: a verified row never returns to `tls-ok` and is never deleted, although several workers verify it without claiming it |
| `PipelineTheorems.ScannedRowsAreQueued` | v2/cmd/worker/main.go:391-404 | only rows of the queue are ever scanned |
| `PipelineTheorems.OneScanner` | v2/internal/pg/pg.go:166-175 | while no cancel has taken a row away: a row that one worker is scanning is not being scanned by another, and no other is about to store a hit for it |
| `PipelineTheorems.Phase2bDrains` | v2/cmd/worker/main.go:460-517 | while no cancel has taken a row away: once every row is scanned the rows still to be verified never get more, and every pass of a worker's loop leaves strictly fewer, whatever the other workers do |
| `PipelineTheorems.AtMostOnePassPerRow` | v2/cmd/worker/main.go:460-517 | while no cancel has taken a row away: a worker's verification loop makes at most as many passes as there are rows, not counting a pass in which every check panics |
| `PipelineTheorems.PassProgressesIff` | v2/cmd/worker/main.go:486-516 | while no cancel has taken a row away: a pass of a worker's verification loop leaves fewer rows open exactly when some check in it did not panic |
| `PipelineTheorems.LoopEndMeansDrained` | v2/cmd/worker/main.go:482-484 | while no cancel has taken a row away: when a worker's phase 2 ends and not by a cancel, no row waits for verification, then and ever after |
| `PipelineTheorems.Phase1Barrier` | v2/cmd/master/main.go:225-230 | when the queue is filled every chunk has been counted exactly once; from then on the queue holds exactly the rows that some insert of phase 1 named, no more are inserted, and filling it again changes nothing |
| `PipelineTheorems.InsertedIff` | v2/internal/pg/pg.go:55-98 | in every run a key is in the table exactly if one of the inserts so far named it: no insert overwrites or drops what another chunk or batch inserted |
| `PipelineCommit.RunKept` | v2/cmd/worker/main.go:363-420 | in every run a row whose goroutine is through is done, or waits in the buffer of its worker, or is in a batch that is being committed; a buffer holds fewer than 250 rows and a goroutine commits exactly 250 |
| `PipelineCommit.ClaimedRowsAreCommitted` | v2/cmd/worker/main.go:381-427 | a claimed row is in the hands of its worker until it is done, as long as the worker runs and its goroutine does not panic; once the worker has gone on, the row is done |
| `PipelinePanic.CommittedIffNoPanic` | v2/cmd/worker/main.go:396-427 | while no cancel has taken a row away: when the worker has gone on from a batch, a row of it is done exactly if its scan did not panic |
| `PipelinePanic.PanickedRowBlocks` | v2/cmd/master/main.go:245-248 | a row whose scan panicked stays claimed, and the job cannot leave phase 2, as long as the worker runs and no cancel takes the row away |
| `PipelineProgress.Phase1Ends` | v2/cmd/master/main.go:213-238 | in any run without a restart every step of the first watcher brings the job one step nearer to phase 2: at most five are needed |
| `PipelineProgress.Watch1GoesOn` | v2/cmd/master/main.go:217-225 | with every chunk counted and the job running in phase 1 the first watcher can take a step |
| `PipelineProgress.JobEnds` | v2/cmd/master/main.go:250-290 | with every row scanned and verified, no row stolen and no restart, at most eight steps of the second watcher set the job to done, wherever in its round it is and whatever else goes on |
| `PipelineProgress.Watch2GoesOn` | v2/cmd/master/main.go:250-290 | while the job is running past phase 1 and not done, the second watcher can take a step that belongs to it |
| `PipelineProgress.RestartDropsJob` | v2/cmd/master/main.go:250-251 | when the master stops after the phase was set to done, the watcher never comes back to the job: a status or a clean-up still missing then is missing for ever |
| `PipelineWitness.RestartStrandsJob` | v2/internal/pg/pg.go:215-220 | a concrete run: the master stops between the two statements, and the job is in phase `done` with the status `running` |
| `PipelineRows.ResultSource` | v2/internal/pg/pg.go:199-207 | behind every stored result there is a scan that stored it as `tls-ok` with its delay, later changed in its colo at most, or a verification that stored exactly this row |
| `PipelineHistory.DelaysAreMeasured` | v2/cmd/worker/main.go:404-411 | in every run the delay of a result, verified or not, is one that a scan of this row measured |
| `PipelineRows.CrashRecovery` | v2/cmd/master/main.go:245-248 | crash recovery makes exactly those rows pending that a worker who is not online was processing; every row being processed names its worker |
| `PipelineRows.ItemsAreInsertedRows` | v2/cmd/master/main.go:227-230 | in phase 2 and once the job is done its number of items is the number of inserted rows |
| `PipelineHistory.HistoryIsTheActions` | v2/cmd/worker/main.go:404-419 | what the results call scanned, accepted, refused and cleaned up is what the actions of the run did: the last outcome for a row, the verdicts stored for it, the delete |
| `PipelineTheorems.ChunkCountedOnce` | v2/cmd/worker/main.go:201-256 | each chunk increments `done_workers` at most once, also after a panic or a failed start |
| `PipelineTheorems.NoInsertAfterMark` | v2/cmd/worker/main.go:230-254 | no insert of a chunk follows its increment |
| `PipelineTheorems.MasscanFrozen` | v2/cmd/master/main.go:225-227 | once all chunks are counted the inserted rows never change |
| `PipelineTheorems.NoWorkBeforeTheBarrier` | v2/cmd/worker/main.go:284-342 | no worker scans or verifies before every chunk is counted and the queue equals the inserted rows, however its phase 2 was triggered |
| `PipelineTheorems.PhasesAndDoneRowsOnlyAdvance` | v2/internal/pg/pg.go:215-225 | across both watchers, restarts and cancels the phase never goes back, no work row disappears, and a done row stays done |
| `PipelineTheorems.ClaimedTwiceOnlyAfterRelease` | v2/internal/pg/pg.go:166-175 | between two claims of one row there is a crash recovery or a cancel that releases it |
| `PipelineTheorems.CancelStopsClaims` | v2/cmd/worker/main.go:374-389 | after a cancel past phase 1 each worker claims at most one more batch, and none unless it had already passed its check |
| `PipelineSafe.RunGood` | v2/cmd/worker/main.go:353-526 | the invariants hold in every reachable state, with any number of workers, crashes and restarts |
| `Db.Store.InsertMasscanResults` | v2/internal/pg/pg.go:55-98 | the slices of 500 together insert exactly the given keys; what was in the table stays, and no other table changes |
| `Db.Store.PopulateQueue` | v2/internal/pg/pg.go:241-249 | inserts a pending row for every key without one, leaves the rows that are there and the other tables alone |
| `Db.PopulateKeepsRows` | v2/internal/pg/pg.go:241-249 | filling the queue gives it exactly the inserted keys, keeps every row that is there, and a second time changes nothing |
| `Db.Store.FetchWorkBatch` | v2/internal/pg/pg.go:166-191 | claims unlocked pending rows, as many as the limit or all there are, for this worker, and changes no other row |
| `Db.Store.MarkWorkScannedBatch` | v2/internal/pg/pg.go:136-154 | marks exactly the listed rows that exist as done |
| `Db.MarkScannedComposes` | v2/internal/pg/pg.go:150-153 | committing two batches is committing their union |
| `Db.Store.MarkPhase1Done` | v2/internal/pg/pg.go:161-163 | one more chunk is counted, nothing else changes |
| `Db.Store.InsertResult` | v2/internal/pg/pg.go:199-207 | stores or overwrites the whole result, then marks its work row, and nothing else |
| `Db.Store.UpdateJobPhase` | v2/internal/pg/pg.go:215-220 | sets the phase and the number of items, and the status only with `done` |
| `Db.Store.CancelJob` | v2/internal/pg/pg.go:222-225 | sets the status and makes the rows being processed pending without a worker; all other rows stay as they are |
| `SchedulerProofs.NoTaskStranded` | internal/master/handler.go:58-60 | for any number of concurrent passes interleaved call by call with disconnects: once the disconnect of a named worker has given its tasks back and no pass is under way, no task is assigned to that worker |
| `SchedulerProofs.StrandedOnlyInAPass` | internal/master/task_scheduler.go:57-90 | before that, such a task is in the hands of a pass that will take it back |
| `SchedulerProofs.ReplySurvivesIff` | internal/master/handler.go:203-205 | a handler gets past its reply to a result exactly when the store still has a connection to its worker; otherwise it is lost |
| `SchedulerProofs.HandlerLostIff` | internal/master/handler.go:203-205 | at any moment of any run the handler of a worker is lost exactly when, since the last registration of the worker, a reply to it found no connection |
| `SchedulerProofs.StrandedForEver` | internal/master/handler.go:55-66 | a task held by a worker without a name, or by one whose handler was lost, stays assigned and out of the queue until a cancel or a result ends it or the named worker registers again |
| `SchedulerProofs.QuietMasterLosesNoTask` | internal/master/task_store.go:424-444 | with every named worker gone and no pass under way each task has ended, waits in the queue, once, or is held by a worker that registered without a name |
| `SchedulerWitness.LostHandlerStrandsATask` | internal/master/worker_store.go:243-251 | a run: a silent worker loses its connection in the store, its result for one of two tasks arrives, and the other task stays with it |
| `SchedulerWitness.UnnamedWorkerStrandsATask` | internal/master/handler.go:107-114 | a run: a worker registers with neither id nor name, is given a task and leaves, and the task stays with it |
| `SchedulerWitness.LateResultStopsTheQueue` | internal/master/handler.go:182-186 | a run: a worker leaves, comes back and delivers its result late, and an ended task heads the queue |
| `SchedulerProofs.QueueAgreesWithTasks` | internal/master/task_store.go:61-345 | in every interleaving the queue has no duplicates, holds every pending task and no active one, pending tasks have no owner, and an ended task stays ended |
| `SchedulerProofs.StaleHeadBlocksForEver` | internal/master/task_store.go:348-355 | an ended task at the head of the queue stays there for ever, and no look at the queue finds a task that can be assigned |
| `SchedulerProofs.StaleForEver` | internal/master/task_store.go:253-266 | an ended task that is queued never leaves the queue |
| `SchedulerProofs.QueueIsCleanIff` | internal/master/handler.go:182-186 | every queued task can be assigned exactly when no result has ever come for a task that was pending |
| `Capacity.CapacityHolds` | internal/master/task_scheduler.go:92-101 | when passes do not overlap, a worker reports only what it was sent and registers again only after its disconnect: active tasks are at most the load counter, and that is at most the limit, cancels included |
| `Overlap.OverlapBound` | internal/master/task_scheduler.go:39-101 | with at most p passes under way at any time, whatever workers report and whenever they register, the load counter of a worker is at most its limit plus p - 1 |
| `Overlap.OverlapBoundIsMet` | internal/master/task_scheduler.go:39-101 | for every limit and every p there is a run that meets this bound, and the worker then has as many active tasks |
| `Owed.OwedByOwnerIff` | internal/master/task_scheduler.go:57-90 | all along a run what a worker was sent and has not answered is assigned to it or has ended, exactly when no pass sends a task that is no longer assigned to the receiver and none takes back a task that its owner was sent |
| `Owed.SerialOwedIff` | internal/master/task_scheduler.go:57-90 | when passes do not overlap, exactly when no pass sends a task that is no longer assigned to the receiver |
| `Owed.OneWorkerPerTask` | internal/master/task_store.go:191-216 | then a task under way is owed by its owner and by nobody else |
| `SchedulerWitness.ReturningWorkerIsSentAQueuedTask` | internal/master/task_scheduler.go:57-85 | a run without overlapping passes: a worker leaves and comes back between the assignment and the send, and works on a task that waits in the queue |
| `SchedulerWitness.TaskTakenFromItsWorker` | internal/master/task_store.go:326-345 | a run with two passes: the first takes the task back from the worker that the second sent it to |
| `TaskStore.TaskStore.constructor` | internal/master/task_store.go:54-58 | a new store knows no task |
| `TaskStore.TaskStore.CreateTask` | internal/master/task_store.go:61-83 | a fresh id, pending, at the tail of the queue |
| `TaskStore.TaskStore.AssignTask` | internal/master/task_store.go:191-216 | succeeds exactly for a known pending task, which then has an owner and has left the queue |
| `TaskStore.TaskStore.CompleteTask` | internal/master/task_store.go:253-266 | a known task is completed with these hits, whatever its status was; no other task and not the queue changes |
| `TaskStore.TaskStore.CancelTask` | internal/master/task_store.go:269-297 | succeeds exactly for a known task that has not ended, and takes a pending one off the queue |
| `TaskStore.TaskStore.FailTask` | internal/master/task_store.go:311-323 | a known task is failed, whatever its status was; no other task and not the queue changes |
| `TaskStore.TaskStore.ReassignTask` | internal/master/task_store.go:326-345 | puts an active task back at the tail, without an owner |
| `TaskStore.TaskStore.ReassignWorkerTasks` | internal/master/task_store.go:424-444 | gives back exactly the active tasks of the worker except running ones within the grace period, in some order at the tail; no other task changes |
| `TaskStore.RemoveFirstExact` | internal/master/task_store.go:207-212 | taking an id off a queue without duplicates removes that id and nothing else |
| `TaskStore.CreateKeeps` | internal/master/task_store.go:61-83 | creating a task keeps the queue invariant |
| `TaskStore.AssignKeeps` | internal/master/task_store.go:191-216 | assigning keeps the queue invariant, and ended tasks stay ended |
| `TaskStore.EndKeeps` | internal/master/task_store.go:253-323 | completing, failing and cancelling keep the queue invariant, and ended tasks stay ended |
| `TaskStore.ReassignKeeps` | internal/master/task_store.go:326-345 | putting a task back keeps the queue invariant, and never revives an ended task |
| `TaskStore.GiveBackKeeps` | internal/master/task_store.go:424-444 | giving back a worker's tasks keeps the queue invariant in whatever order the map is walked |
| `WorkerStore.WorkerStore.RegisterWorker` | internal/master/worker_store.go:77-100 | a registered worker is online with no load |
| `WorkerStore.WorkerStore.Disconnect` | internal/master/worker_store.go:117-128 | marks the worker offline, closes and forgets its connection, and delivers nothing; the other workers stay as they are |
| `WorkerStore.WorkerStore.DropSilent` | internal/master/worker_store.go:242-255 | marks a silent worker offline and forgets its connection; the other workers stay as they are |
| `WorkerStore.WorkerStore.DecrementRunningTasks` | internal/master/worker_store.go:181-189 | the counter of the worker is one less if it is positive and stays if it is zero; nothing else changes |
| `Load.LoadIsConserved` | internal/master/worker_store.go:172-189 | between any two moments of a run in which a worker neither registers nor is reset, its load changes by the tasks counted for it less the results counted while the load was positive |
| `Load.FreeAgain` | internal/master/task_scheduler.go:92-101 | so a worker that was idle and has had as many results counted as tasks is idle again, if it is online |
| `Load.ResetIsZero` | internal/master/handler.go:55-66 | a registration and the end of a disconnect set the load to zero |
| `TaskHistory.EndSource` | internal/master/handler.go:182-186 | in every run a task that has ended carries its last word: completed with the hits that were reported, failed by a result that did not say completed, or cancelled |
| `TaskHistory.AttemptsAreAssignments` | internal/master/task_store.go:198-202 | in every run the attempts of a task are the times it was assigned, those taken back included |
| `WorkerStore.WorkerStore.IncrementRunningTasks` | internal/master/worker_store.go:172-178 | one more for a known worker, nothing for an unknown one |
| `WorkerStore.WorkerStore.ResetRunningTasks` | internal/master/worker_store.go:193-199 | the load of a known worker is zero, whether it is online stays as it is |
| `WorkerStore.WorkerStore.SetConnection` | internal/master/worker_store.go:103-107 | the worker's connection is the latest one, known worker or not; the earlier one is not closed |
| `WorkerStore.SafeConn.Write` | internal/master/worker_store.go:43-50 | a write to a closed connection reports success and delivers nothing |
| `Tick.TaskScheduler.GetIdleWorkers` | internal/master/task_scheduler.go:137-154 | each online worker below its limit once and nobody else; a worker that reported no positive limit has the limit one |
| `Tick.TaskScheduler.Offer` | internal/master/task_scheduler.go:57-101 | a pending task ends up assigned, counted and delivered over the connection of the worker and no other, or back at the tail when the send fails |
| `Tick.TaskScheduler.Tick` | internal/master/task_scheduler.go:39-105 | an uninterrupted pass does what the specification of a pass says, for some order of the idle workers |
| `SoloPass.AloneIsPass` | internal/master/task_scheduler.go:39-105 | a pass of the concurrent master that goes to its end without an interruption leaves the tasks and the load counters as the sequential pass does |
| `TickProofs.LoadsGoUp` | internal/master/task_scheduler.go:92-101 | a pass adds to the load of each worker the number of tasks sent to it |
| `TickProofs.PassIsFifo` | internal/master/task_scheduler.go:45-105 | when sends succeed a pass dispatches exactly the pending tasks at the front of the queue, in order, one to each idle worker |
| `TickProofs.FifoUntouched` | internal/master/task_scheduler.go:45-105 | such a pass changes no other task |
| `TickProofs.FifoAssigned` | internal/master/task_scheduler.go:57-60 | each dispatched task is assigned to the worker it was sent to |
| `TickProofs.PassMovesIff` | internal/master/task_scheduler.go:45-60 | a pass over willing workers dispatches something exactly when the head of the queue is pending |
| `TickProofs.LateResultBlocksQueue` | internal/master/handler.go:182-186 | after a result for the task at the head of the queue no pass does anything |
| `TickProofs.LateResultStopsAt` | internal/master/handler.go:182-186 | a result for the pending task at position i of the queue lets a pass dispatch at most the i tasks before it; once they are gone the ended task is at the head |
| `TickProofs.LateResultBlocksIff` | internal/master/handler.go:182-186 | the very next pass dispatches nothing exactly when the result was for the task at the head |
| `TickProofs.FailedTasksGoToTheTail` | internal/master/task_scheduler.go:84-90 | with failing sends and no more idle workers than tasks the i-th task is offered to the i-th worker only, and the failed ones end at the tail in order |
| `TickProofs.PassConservesQueue` | internal/master/task_scheduler.go:45-105 | whatever fails and however often: what was sent and what is still queued are together the queue, and every queued task is pending without an owner |
| `TickProofs.SentIsAssigned` | internal/master/task_scheduler.go:57-101 | whatever fails, a task that was sent is assigned to the worker it was sent to |
| `TickProofs.PassDispatchesAllItCan` | internal/master/task_scheduler.go:45-105 | whatever fails, a pass dispatches min(queued, willing) tasks |
| `TickProofs.PassUsesWorkersOnce` | internal/master/task_scheduler.go:54-55 | no worker gets two tasks in one pass, and only idle workers get one |
| `AllocatorProofs.GreedyIsOptimal` | internal/master/shard.go:56-70 | whenever the totals do not overflow no assignment of the same blocks to as many shards has a smaller largest shard |
| `AllocatorProofs.DistributionIsOptimal` | internal/master/shard.go:17-73 | in the sizes of the CIDRs themselves: if the valid CIDRs can be distributed over the shards with no shard above some limit, at most 2^63 - 1, then no shard of the result is above it |
| `AllocatorProofs.SortedSizes` | internal/master/shard.go:24-39 | every packed entry carries the size of its own CIDR: a CIDR with o of b bits fixed has h addresses with h · 2^o = 2^b, or 2^63 - 1 if 32 or more bits are free |
| `AllocatorProofs.GreedyIsFair` | internal/master/shard.go:56-70 | whenever the totals do not overflow a shard without any one of its blocks is no larger than any other shard |
| `AllocatorProofs.TotalsAreLoads` | internal/master/shard.go:58-69 | the int64 totals are the true loads after every block exactly when some assignment keeps every shard within an int64 |
| `AllocatorProofs.PackableIff` | internal/master/shard.go:36-38 | that is so, if the blocks below the cap have at most 2^63 - 1 addresses, exactly with fewer capped blocks than shards or no more blocks than shards |
| `AllocatorProofs.TooManyCapped` | internal/master/shard.go:36-38 | with a capped block for every shard the next block makes a total negative |
| `AllocatorProofs.DistributionIsPartition` | internal/master/shard.go:17-73 | every valid CIDR is in exactly one shard, whatever order the sort leaves equal blocks in |
| `AllocatorProofs.SortedBlocks` | internal/master/shard.go:24-54 | the sorted entries are powers of two or the cap, largest first |
| `Allocator.DistributeCIDRs` | internal/master/shard.go:17-73 | one shard gets the list as it is; without a valid CIDR the raw strings go round the shards; otherwise the shards are those of the greedy packing of the sorted entries |
| `Allocator.Pack` | internal/master/shard.go:57-70 | the two loops compute the greedy packing, the first smallest total winning |
| `Allocator.SpreadRaw` | internal/master/shard.go:42-49 | the i-th string goes to shard i modulo the number of shards, in order |
| `AllocatorProofs.RoundRobinAt` | internal/master/shard.go:42-49 | without a valid CIDR shard j of n gets the strings at j, j + n, j + 2n and so on, in this order |
| `MasscanReader.Stream` | internal/masscan/masscan.go:239-332 | if the file only grows and polls see whole lines, the batches together are what the batch parser finds in the final file, in order; every batch sent from the loop is full; Done comes last and once |
| `MasscanReader.ParseMasscanOutput` | internal/masscan/masscan.go:113-155 | the results are the first-seen results of the lines |
| `MasscanReader.ResultsAreFirstMentions` | internal/masscan/masscan.go:145-151 | a result is in the output exactly when some line is the first to mention its address and gives that port |
| `MasscanReader.ResultsInOrder` | internal/masscan/masscan.go:145-151 | each address comes once, and the results come in the order of their first lines |
| `MasscanReader.SeenIps` | internal/masscan/masscan.go:145-151 | an address is in the output exactly when some line mentions it |
| `MasscanReader.ReadingOnAppends` | internal/masscan/masscan.go:244-293 | reading more of the file only appends results |
| `MasscanReader.LineRoundTrip` | internal/masscan/masscan.go:124-143 | a line in masscan's format is read back as its address and port |
| `MasscanReader.ReadPoll` | internal/masscan/masscan.go:261-287 | one poll carries the reader from one prefix of the file to the next, with nothing lost between batches |
| `Text.Itoa` | internal/worker/runner.go:403-415 | filling the buffer from the right gives the decimal digits, and nothing for a negative number |
| `Text.ParseTarget` | internal/verifier/verifier.go:150-163 | takes the text apart at its last colon |
| `Text.TargetRoundTrip` | internal/verifier/verifier.go:150-163 | a host and a port that are joined are taken apart into the same host and port, colons in the host included |
| `Text.JoinedInjective` | internal/worker/runner.go:340-341 | different hosts or ports have different names |
| `ScanPipeline.EachPairScannedOnce` | internal/worker/runner.go:152-228 | when the collector has finished, every pair of an address and a port was probed exactly once, in any interleaving |
| `ScanPipeline.EachJobScannedOnce` | internal/worker/runner.go:152-228 | at no time is a job probed more often than it was produced; at the end every job was probed and collected, and hits and entries correspond one to one |
| `ScanPipeline.HitsAreOutcomes` | internal/worker/runner.go:169-228 | at the end exactly the outcomes of the probes have been collected, and the hits are the positive ones, each as often as it was found |
| `ScanPipeline.AtMostConcurrencyInFlight` | internal/worker/runner.go:169-191 | no more probes run than the semaphore allows, and nothing is sent on a closed channel |
| `ScanPipeline.NeverStuck` | internal/worker/runner.go:152-228 | until the collector has finished some goroutine can go on |
| `ScanPipeline.RunsAreBounded` | internal/worker/runner.go:152-228 | every run ends, after at most eight steps for each job and three more |
| `ScanPipeline.Concurrency` | internal/worker/runner.go:135-143 | a fiftieth of the rate, rounded down, or 50 for rates below 2500, cut to the hardware limit if there is one |
| `VerifyPipeline.ReturnsIffAllParse` | internal/verifier/verifier.go:100-147 | when nothing more can happen, the call has returned exactly if every target parses; otherwise it waits for ever |
| `VerifyPipeline.BatchIsComplete` | internal/verifier/verifier.go:126-147 | when it returns, every target has one answer, these are the answers the service gave, and the batch is the accepted ones in the order they came |
| `VerifyPipeline.BatchIsAccepted` | internal/verifier/verifier.go:126-142 | the batch holds an address as often as the service accepted it, with the answer it gave, and nothing else |
| `VerifyPipeline.AtMostConcurrencyVerify` | internal/verifier/verifier.go:86-124 | no more verifications run at once than asked for, or 16 |
| `VerifyPipeline.RunsAreBounded` | internal/verifier/verifier.go:100-145 | every run comes to rest |
| `VerifyHits.Run` | internal/worker/runner.go:335-367 | only the last hit with a name has its entry marked, by the last answer for that name; every other entry is untouched |
| `VerifyHits.BuildTargets` | internal/worker/runner.go:337-343 | the targets name the hits in order, and the map leads from a name to its last hit |
| `VerifyHits.VerificationReturns` | internal/worker/runner.go:353 | the verification of the hits returns exactly if no port is negative |
| `VerifyHits.VerifiedIffAnswered` | internal/worker/runner.go:355-367 | an entry ends verified exactly when the service accepted its own address and port and it is their last hit; it carries that answer, and no entry ends `failed-verify` |
| `VerifyHits.DistinctHits` | internal/worker/runner.go:335-367 | with distinct hits each has exactly one answer, and that answer decides about its entry |
| `Split.SplitByRate` | v2/cmd/master/main.go:166-194 | the chunks one after another are the CIDR list; for L CIDRs, rates with the sum R > 0 and n workers, chunk i before the last has max(1, L·rate(i)/R) CIDRs or what is left, and R·last is at most L·r + (n−1)(R−1) and at least L·r when every earlier part is at least one, r the last rate; with all rates zero the same with 1 for each rate and n for R |
| `Split.ChunksPartition` | v2/cmd/master/main.go:179-194 | the chunks one after another are the CIDR list |
| `Split.StartNext` | v2/cmd/master/main.go:182-194 | one step of the loop; while CIDRs are left a worker gets at least one |
| `Split.LastChunk` | v2/cmd/master/main.go:179-194 | for L CIDRs, n workers, total rate R and last rate r: R·last ≤ L·r + (n−1)(R−1), and R·last ≥ L·r when every earlier share is at least one |
| `Split.WorkerGetsSomethingIff` | v2/cmd/master/main.go:179-194 | a worker gets a CIDR exactly when the shares of the workers before it, each rounded up to one, leave some |
| `Split.LastCanStarve` | v2/cmd/master/main.go:187-189 | three equal workers and two CIDRs: nothing is left for the last one |
| `Expand.AddOffset` | internal/resolver/expand.go:63-68 | the byte loop computes base plus offset; what is carried out of the first byte is lost |
| `Expand.ValueUpdate` | internal/resolver/expand.go:66 | changing one byte changes the number by that byte's weight |
| `Expand.RandomIPInNetwork` | internal/resolver/expand.go:56-75 | the result is exactly base plus an offset from 1 to below the sample size and lies in the network, so the not-contained branch is never taken |
| `Expand.BlockFits` | internal/resolver/expand.go:70-73 | base plus offset stays inside the address space and inside its block |
| `Expand.ContainsIff` | internal/resolver/expand.go:70-73 | an address is in a network exactly if it lies between the base and the end of the block |
| `Expand.QuotaIsEvenPart` | internal/resolver/expand.go:15-19 | each of n prefixes is drawn from as often as keeps n times that within maxIPs, at least once |
| `Expand.BroadcastIsReachable` | internal/resolver/expand.go:60-61 | the last address of a block is a possible result exactly when the block has at most 2^16 addresses |
| `Expand.ExpandCIDR` | internal/resolver/expand.go:10-53 | distinct texts, each of an address drawn from inside one of the given blocks and within its sample size, at most max(maxIPs, 0) of them; each usable block is drawn from as often as an even part of maxIPs allows, at least once, unless maxIPs was reached |

## Left out

- `Db.Store`: `DeleteJob`, `MarkWorkDone`, `InsertMasscanResultsBulk`, `GetJobStats`, heartbeats and activity are not modelled; neither are failing statements and retries.
- The watchers of v2/cmd/master/main.go and the loops of v2/cmd/worker/main.go are steps of a state machine, not methods, because what matters about them is how their statements interleave; the local variables `scanned` and `totalVerified`, which only go to the log, are left out.
- `Pipeline`: `scanConc` bounds a claimed batch; the semaphores of the v2 worker, which only slow its goroutines down, are not modelled. The order and the ports in which phase 1 inserts rows are taken as given: the code stores a whole batch with the port of its first result.
- `Pipeline`: the number of items shown during phase 2b is what the watcher counted row by row, and nothing is proved about it.
- `PipelineProgress`: that a goroutine which can take a step takes it at some time is not modelled; `PipelineProgress.Phase1Ends` and `PipelineProgress.JobEnds` bound the steps, and `PipelineProgress.Watch1GoesOn` and `PipelineProgress.Watch2GoesOn` say that a step is possible.
- `AllocatorProofs.DistributionIsOptimal`: says nothing about limits above 2^63 - 1, beyond which the running totals of the code overflow.
- `PipelineTheorems.AtMostOnePassPerRow`: a pass in which every check panics is not counted, because such a pass can repeat; by `PipelineTheorems.PassProgressesIff` it is the only kind that makes no progress.
- `TickProofs.FailedTasksGoToTheTail`: with more idle workers than tasks a failed task is offered again in the same pass, and the order at the tail is not stated; `TickProofs.PassConservesQueue` and `TickProofs.SentIsAssigned` hold there too.
- `Scheduler`: `StartTask` has no caller, so tasks are never running there, and the grace period of 180 seconds appears only in `TaskStore.ReassignWorkerTasks`. `PopPending` has no caller and is left out. Registering twice over one connection, and a second connection of a worker whose first handler is still at work, are left out. The dashboard, which a panicking handler does not tell that its worker is gone, is left out too.
- `Capacity.CapacityHolds`: does not hold for overlapping passes, which can share one snapshot of idle workers; `Overlap.OverlapBound` bounds the load counter there, and `Overlap.OverlapBoundIsMet` shows that the bound is met.
- `TaskStore`: names, ports, progress, time stamps, groups and shard numbers of tasks, the ways of creating many tasks at once, and the list and count getters are left out.
- `WorkerStore`: what a heartbeat reports, except that its absence can take a worker offline at any time.
- `AllocatorProofs.GreedyIsOptimal`: says nothing once a running total has overflowed; when that happens is what `AllocatorProofs.TotalsAreLoads` states.
- `MasscanReader.Stream`: a poll that catches a half-written line, lines longer than the scanner's buffer, and blanks outside ASCII are not modelled; sleeping and the channel of the batches are left out.
- `ScanPipeline`: a stop in the middle of a run and the progress ticker are not modelled.
- `VerifyPipeline`: region and country of an answer are left out.
- `Text.ParseTarget`: blanks before a number are spaces and tabs only.
- `Expand.RandomIPInNetwork`: which address is drawn is free; nothing is said about probabilities. That two networks are compared under their masks is taken from the Go library.
- `Expand.ExpandCIDR`: the text of an address is a parameter; addresses with equal texts count once, as in the code's map.
- The event queue, the dashboard, the HTTP, WebSocket and NATS layers, TLS and the verification service, RIPE lookups, hardware and rate probing, CSV and the web page are not modelled.
