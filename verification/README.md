# Avtomatika: a verified model of the orchestrator

Avtomatika runs jobs along blueprints. A job's record sits in a shared store; an executor handles
its messages, workers poll tasks and report results, a watcher fires timeouts, schedulers start
jobs, people cancel and approve. This project models that machinery in Dafny and proves what the
actors keep together.

## How it is built

- `Lifecycle.dfy` gives the store as a value and each actor's step as a function of it. `Actors.dfy`
  carries out the same steps as the program does: classes over one store that changes in place, one
  storage call at a time. Each method is proved equal to its step, so what is proved of runs of steps
  holds of the objects.
- `NoLoss.dfy`, `NoLossExact.dfy`, `Frames.dfy`, `Ids.dfy`, `BoundedWork.dfy`, `Fencing.dfy`,
  `Ownership.dfy` and `StaticRuntime.dfy` prove properties of all runs: no job is lost, work is
  bounded, ended jobs stay ended, stale results change nothing, only the owner's latest result counts,
  validated jobs stay in defined states.
- `Writes.dfy` says what a handled message and a result leave in the store, field by field and without the
  functions that define the steps; `JobCourse.dfy` builds on it: where a job stands and what its history holds
  at any moment of any run, told from the actions alone.
- `Crash.dfy` lists the executor's storage calls and proves what survives a kill between any two of
  them; `HalfDone.dfy` does the same for the watcher and for results; `JobStream.dfy` is the message stream with
  its consumer group. The lifecycle counts
  unacknowledged messages per job; the stream is proved to keep exactly that count.
- `OptimisticUpdate.dfy`, `FanIn.dfy` and `StaleRecord.dfy` are about interleavings inside one record:
  the WATCH loop against the lock, concurrent branch results, and a record read too early.
- `TaskQueues.dfy`, `WorkerIndex.dfy`, `Overflow.dfy`, `Dispatcher.dfy`: queues and stealing, the
  Redis worker index against the plain scan, the choice of a worker.
- `Blueprint.dfy`, `Actions.dfy`: the integrity check and the one-action guard.
- `Scheduler.dfy`, `Watcher.dfy`, `RateLimit.dfy`, `Reputation.dfy`: locks with lifetimes, the request
  counter, the reputation arithmetic.

`dafny verify dfyconfig.toml` checks everything.

## Where code and claims part

The model follows the code. These facts about it are proved, or show in the functions cited:

- `cancelled` is not among the terminal statuses: a late result, timeout or message moves a cancelled
  job on.
- A child resumes its parent whatever the parent's status, twice at its end and three times when its
  handler is quarantined; a child that fails elsewhere never resumes it.
- `current_task_id` is kept after a result, so the same result for a single task is accepted again. A
  result with an unknown id is recorded during a fan-out.
- A handler without an action outside the end states, a fan-out without tasks, and a branch dispatch
  that raises can each leave a job that nothing will wake. After a broken fan-out the current state is
  already the aggregator's.
- A branch's timeout saves the whole record it read before: a result recorded in between is lost, and the job with
  it. No crash is needed.
- The watcher pops an entry before it handles it, and a result removes its entry before anything else: a kill right
  after that strands the job.
- A scheduler that dies between the trigger and the record lets the job be triggered again as soon as the lock is
  gone.
- `go_to("")` counts as no action.
- A second start state is refused only after its handler was registered.
- The watch lock is held per instance id; two watchers on one host without an explicit id share it.
- A handler run without an action saves nothing, its transition count and its data included; a repeated result wakes the
  job again, so such runs are not bounded.
- Any poll of a single task of a job, of an old one too, makes the poller the assignee; the worker that holds the
  latest task is then refused.
- The acknowledgement also runs when a handling is cancelled or raises; between saving a new state and queueing
  the job it then loses the job.
- The index and the scan find a worker by a skill's type, the dispatcher then accepts it by name only.
- A worker registered without a status drops out of the idle index at its first plain heartbeat.
- Redis drops a rate-limit key at the instant of its expiry, the in-memory store just after; the
  guaranteed windows differ by their end points.

## Model

| member | source | states |
|---|---|---|
| `NoLoss.NoJobIsLost` | src/avtomatika/services/worker_service.py:408-566 | in every store reachable from the empty one by any interleaving of the actors, a pending, running or retrying job has a message, a job waiting for a worker has its watch entry, and a job waiting for branches has some, each with its watch entry; for handlers that act and fan-outs whose dispatches succeed, and jobs that ran no sub-blueprint |
| `NoLoss.StepKeeps` | src/avtomatika/executor.py:73-316 | each step of each actor keeps the invariant behind that claim, from any store that meets it |
| `NoLossExact.KeptExactlyWhenSound` | src/avtomatika/executor.py:94-127 | handling a ready job's only message leaves it wired, with all outstanding branches watched, if and only if it has no transitions left and fails; or the handler acted or stands in an end state, and a fan-out has tasks and a worker for each; or a fan-out that finds too few workers has no retries left and ends in quarantine |
| `NoLossExact.NoActionUnwires` | src/avtomatika/executor.py:273-300 | with transitions left, a handler without an action outside the end states leaves a job that nothing will wake |
| `NoLossExact.EmptyFanOutUnwires` | src/avtomatika/executor.py:536-561 | with transitions left, a fan-out without tasks leaves a job that waits for nothing |
| `NoLossExact.BrokenFanOutLosesJob` | src/avtomatika/executor.py:550-585 | a concrete run: the second branch finds no worker, the handler run of the retry asks a human, the first branch times out, and the job waits for a branch that nobody has and nothing watches, without a message |
| `BoundedWork.RunStaysWithinBudget` | src/avtomatika/executor.py:94-127 | over every run, with nothing asked of the handlers, the handler runs of a job are paid by its transition counter or chose no action outside the end states, and its single-task enqueues are paid by transitions and retries |
| `BoundedWork.WorkIsBounded` | src/avtomatika/engine.py:697-743 | for every blueprint, worker and interleaving one job has at most (MAX_TRANSITIONS + 1) * (JOB_MAX_RETRIES + 1) single-task enqueues, and runs at most MAX_TRANSITIONS handlers beside those that chose no action outside the end states |
| `BoundedWork.ActingWorkIsBounded` | src/avtomatika/executor.py:94-127 | a job whose handlers all act or stand in an end state runs at most MAX_TRANSITIONS of them |
| `BoundedWork.PaidExactlyWhenActing` | src/avtomatika/executor.py:94-127 | the handler run of a stored, unended job with transitions left is paid for if and only if the handler acted or stands in an end state |
| `BoundedWork.IdleRunsAreUnbounded` | src/avtomatika/executor.py:273-300 | the bound fails for handlers that do not act: for every n there is a run with at least n handler runs of one job, a repeated result waking it each time |
| `BoundedWork.ProcessBooks` | src/avtomatika/executor.py:644-659 | one handled message costs a transition for its handler run and at most one single task; or runs no handler and costs nothing; or its handler did not act and nothing pays for it |
| `Ids.RunIds` | src/avtomatika/dispatcher.py:457 | over every run all task and job ids in records, watch entries and queues were drawn before, and single tasks carry no id of their own |
| `Fencing.TerminalAbsorbs` | src/avtomatika/executor.py:86-88 | over every run a finished, failed, errored or quarantined job without children keeps its status and current state through every message, result, event, poll, timeout, cancel and approval |
| `Fencing.EndedStaysEnded` | src/avtomatika/services/worker_service.py:423-447 | one step of any actor, from any well-identified store, leaves an ended job without children alone |
| `Fencing.ChildRevivesParent` | src/avtomatika/executor.py:675-713 | the condition is needed: a child that ends makes its parent run again whatever the parent's status |
| `Fencing.RetriesAreFenced` | src/avtomatika/services/worker_service.py:390-420 | over every run of timeouts and re-dispatches, a result that carries a superseded attempt's id changes neither status, state, history nor messages at any later moment |
| `Ownership.OnlyTheOwnerMoves` | src/avtomatika/services/worker_service.py:390-421 | over every run, a result that moves a job outside a fan-out, whose current task is a single one, carries that task's id, the latest the job sent out, and comes from the worker the job is assigned to; there always is one |
| `Ownership.RunAssigned` | src/avtomatika/dispatcher.py:493-515 | over every run a job that sent out a single task is assigned to somebody, and no single task is later than the current one |
| `Ownership.OwnerIsLastPoller` | src/avtomatika/services/worker_service.py:257-270 | while a task stays current, the assignee is the last worker to poll a single task of the job, an old one included, or else the one it was sent to |
| `Ownership.AcceptedExactly` | src/avtomatika/services/worker_service.py:218-242 | the result of the worker a task was sent to is accepted if and only if nobody else was the last to poll a single task of the job meanwhile |
| `Ownership.LatePollTakesTheJob` | src/avtomatika/services/worker_service.py:257-270 | a concrete run in which a late poll of an old task takes the job from the right worker: its result with the latest id is refused, and so is the poller's |
| `Fencing.FencedRun` | src/avtomatika/dispatcher.py:457-546 | a concrete run to which the fence applies: sent out, picked up, timed out, sent out again to another worker |
| `Fencing.TimeoutDrawsFreshId` | src/avtomatika/engine.py:697-733 | a timed-out task that finds a worker goes out under an id never used before, watched, with the old id fenced |
| `StaticRuntime.CurrentStateIsDefined` | src/avtomatika/blueprint.py:265-345 | for a graph that the integrity check accepts, a job that begins in the start state and whose steps use the analysed targets is, at every moment of every run, in a defined state that the start reaches |
| `StaticRuntime.StepStaysOnMap` | src/avtomatika/services/worker_service.py:523-548 | one step of any actor keeps a job's state, its transitions and its aggregation target among the defined states |
| `Crash.ProcessPlayed` | src/avtomatika/executor.py:73-316 | the executor's storage calls, carried out one after another, make its step; the acknowledgement is the last call on every path |
| `Crash.BodyCallsOnlyAdd` | src/avtomatika/executor.py:313-316 | no call before the last acknowledges anything or removes a watch entry |
| `Crash.KillLosesNothing` | src/avtomatika/executor.py:313-316 | a kill between any two storage calls of the executor leaves every message unacknowledged and every job stored |
| `Crash.AcknowledgedJobIsWired` | src/avtomatika/executor.py:416-420 | once a handling that came to its end is acknowledged, the job's next wake-up is there, whatever half-done store the handling began in |
| `Crash.InterruptedWiredExactly` | src/avtomatika/executor.py:313-316 | a handling that is cancelled or raises is acknowledged too; its job is then wired if and only if the calls made, with what was there before, provide what the last saved record waits for |
| `Crash.InterruptedTransition` | src/avtomatika/executor.py:416-420 | for a ready job with one message, an interrupted transition leaves the job wired if and only if the job was queued again; between the save and the queueing it is lost |
| `Crash.InterruptedDispatch` | src/avtomatika/executor.py:480-485 | an interrupted dispatch leaves the job wired if and only if the watch entry was set, or the record was saved and an old entry was there |
| `Crash.InterruptedFailedDispatch` | src/avtomatika/executor.py:644-652 | a dispatch without a worker: wired while the record waits under its entry and again once queued; lost between the retry's save and its queueing |
| `Crash.InterruptedFanOut` | src/avtomatika/executor.py:550-608 | a fan-out of m tasks, all with workers, interrupted after any of its 4m + 3 calls: wired if and only if the last branch was dispatched up to its watch entry |
| `Crash.HandledAtLeastOnce` | src/avtomatika/executor.py:728-764 | over every run with kills and interruptions at any call and steps of all actors in between, a job with a message keeps one until a handling came to its end, which leaves it wired, or was interrupted and acknowledged, which leaves it wired exactly when its calls provide for it |
| `HalfDone.FirePlayed` | src/avtomatika/watcher.py:41-67 | the watcher's storage calls for one entry, in order, make its step |
| `HalfDone.ResultPlayed` | src/avtomatika/services/worker_service.py:449-566 | the storage calls for a result, in order, make its step |
| `HalfDone.KilledTimeoutExactly` | src/avtomatika/watcher.py:41-67 | a single task's timeout strands the job if and only if the watcher dies right after the pop |
| `HalfDone.KilledBranchTimeoutExactly` | src/avtomatika/watcher.py:50-57 | a branch's timeout strands the job if and only if the watcher dies after the pop and before the retry set the entry again, or before the quarantine was saved |
| `HalfDone.KilledResultExactly` | src/avtomatika/services/worker_service.py:482-559 | for every kind of result of a single task: after which calls a kill leaves the job stranded |
| `HalfDone.KilledBranchResultExactly` | src/avtomatika/services/worker_service.py:449-473 | a branch's result strands the job if and only if its handling dies between removing the entry and recording the result, or, for the last branch, before queueing |
| `JobStream.JobStream.EnqueueJob` | src/avtomatika/storage/redis.py:817-820 | adds one unacknowledged entry for the job |
| `JobStream.JobStream.DequeueJob` | src/avtomatika/storage/redis.py:822-846 | claims the oldest entry left pending for the minimal idle time, else delivers the next unread one, else nothing; acknowledges nothing |
| `JobStream.JobStream.AckJob` | src/avtomatika/storage/redis.py:859-860 | takes exactly one unacknowledged entry of its job away, and only if the entry was pending |
| `JobStream.CountedIffLive` | src/avtomatika/storage/redis.py:817-860 | a job is in the count of unacknowledged entries if and only if one of its entries is queued or pending |
| `JobStream.NoDeliveryAfterAck` | src/avtomatika/storage/redis.py:859-860 | over every run an acknowledged entry is never handed out again |
| `JobStream.DeliveriesAreApart` | src/avtomatika/storage/redis.py:827-834 | two deliveries of one entry are at least the minimal idle time apart |
| `JobStream.IdleEntryIsRedelivered` | src/avtomatika/storage/redis.py:827-837 | an entry left behind by a dead process is handed out again after exactly as many deliveries as there are older idle entries |
| `Actors.Orchestrator.Perform` | src/avtomatika/engine.py:688-860 | each action, carried out by its actor on the shared store in place, makes exactly one step of the lifecycle and keeps its invariants |
| `Actors.JobExecutor.ProcessJob` | src/avtomatika/executor.py:73-316 | makes the executor's step, by exactly the listed storage calls, and leaves the store as Writes.ProcessTold says; after go_to the named state is saved, the handler's data are merged, and the message is replaced by a new one |
| `Actors.JobExecutor.HandleTerminalReached` | src/avtomatika/executor.py:318-389 | saves the end status, failed when the output breaks the contract, and resumes the parent before and after |
| `Actors.JobExecutor.HandleDispatch` | src/avtomatika/executor.py:422-485 | saves, watches and then queues a single task; the job waits with the task's transitions |
| `Actors.JobExecutor.HandleRunBlueprint` | src/avtomatika/executor.py:487-534 | draws, links, stores and queues the child before it saves the waiting parent |
| `Actors.JobExecutor.HandleParallelDispatch` | src/avtomatika/executor.py:536-608 | the loop over the branches makes the fan-out step: all ids saved first, then each branch dispatched and watched, with a failed dispatch handled on the record the loop had reached |
| `Actors.JobExecutor.HandleFailure` | src/avtomatika/executor.py:610-673 | queues the handler again with one retry fewer while retries are left, else quarantines the job |
| `Actors.JobExecutor.ResumeParent` | src/avtomatika/executor.py:675-713 | saves the parent as running, by the transition for success if the child stood in the state finished and for failure otherwise, or in the state failed, without looking at the parent's status |
| `Actors.Dispatcher.Dispatch` | src/avtomatika/dispatcher.py:457-546 | queues the task, updates the stored record and watches the task, in this order and with nothing else changed |
| `Actors.Engine.CreateBackgroundJob` | src/avtomatika/engine.py:608-686 | stores, perhaps watches, and queues a new job in its start state, with nothing counted |
| `Actors.Engine.HandleTaskFailure` | src/avtomatika/engine.py:688-743 | a single task is retried under a new id, a branch under its own, each on its own count of retries; without retries the job is quarantined; an ended job is let alone |
| `Actors.Engine.HandleJobTimeout` | src/avtomatika/engine.py:770-831 | an ended job is let alone, one that nobody picked up fails, another's task has failed |
| `Actors.Engine.HandlePopped` | src/avtomatika/watcher.py:50-67 | one popped watch entry, of a branch or of a job: the entry is removed first, the rest is done on the record as stored; it sends no message |
| `Actors.Engine.CancelJob` | src/avtomatika/engine.py:833-860 | cancels unless the job is missing or ended, and says which; messages and watch entries stay |
| `Actors.Engine.ApproveJob` | src/avtomatika/api/handlers.py:410-446 | answers 404, 409, 400 or 200 each exactly in its case; at 200, and only then, the job is queued in the decision's target |
| `Actors.WorkerService.MarkPickedUp` | src/avtomatika/services/worker_service.py:244-306 | records who picked the task up, and watches it, with nothing else changed |
| `Actors.WorkerService.ProcessTaskResult` | src/avtomatika/services/worker_service.py:308-566 | accepts a result exactly when ownership, task id and status allow it, and leaves the store as Writes.ResultTold says; a success with a transition merges every key of the worker's data, and no other, into the history and queues the job in the target |
| `Actors.WorkerService.RecordResult` | src/avtomatika/services/worker_service.py:452-467 | the fan-in callback: result recorded, one branch struck out, job sent on to the aggregator after the last |
| `Actors.WorkerService.HandleTaskFailure` | src/avtomatika/services/worker_service.py:576-620 | transient errors retry, invalid input and corrupted data fail the job, all others quarantine it |
| `Actors.WorkerService.ProcessWorkerEvent` | src/avtomatika/services/worker_service.py:692-702 | an event with a transition of the waiting job supersedes the current task and queues the job in the target, with the event's data; any other changes nothing |
| `Writes.ProcessTold` | src/avtomatika/executor.py:73-316 | whatever the handler does, a handled message leaves the store as written out field by field: where the job stands, its status, counters, data, task, branches, child, and its messages |
| `Writes.TaskWrites` | src/avtomatika/executor.py:422-485 | the whole store after a single task went out: new id, watch entry, queue entry, and the record |
| `Writes.ChildWrites` | src/avtomatika/executor.py:487-534 | the whole store after a sub-blueprint was started: the child stored, linked and queued, the parent waiting |
| `Writes.FanOutWrites` | src/avtomatika/executor.py:536-608 | the whole store after a fan-out of any size: each branch queued under its own new id for its worker, noted and watched, the job in the aggregator's state |
| `Writes.BrokenFanOutWrites` | src/avtomatika/executor.py:550-608 | the whole store after a fan-out that ran out of workers, with retries left: the branches before are out, and the job is queued again in the aggregator's state |
| `Writes.LastMessageAlone` | src/avtomatika/executor.py:297-380 | a handler in an end state ends the job: finished in the state finished with valid output, failed otherwise |
| `Writes.LastMessageBoth` | src/avtomatika/executor.py:355-387 | with a parent: it is sent on twice, by the child's state and not by its status |
| `Writes.RetryWrites` | src/avtomatika/executor.py:644-659 | after a failed handling with retries left: one retry more, one message for one, and what the failure left of the record |
| `Writes.QuarantineWritesBoth` | src/avtomatika/executor.py:660-713 | without retries left the job is quarantined, and its parent sent on three times to one place |
| `Writes.ResultTold` | src/avtomatika/services/worker_service.py:388-566 | whatever comes in, a result leaves the store as written out: for a success, a custom status, a cancelled task, each error code, a broken contract, and a branch |
| `Writes.AdmittedExactly` | src/avtomatika/services/worker_service.py:388-447 | a result is taken up if and only if its sender is the assignee, if any, its id is current or branches are awaited, and the job is not over; else nothing changes |
| `Writes.TaskFailureTold` | src/avtomatika/engine.py:688-743 | a failed task or branch leaves the store as written out: retry, quarantine, or nothing |
| `JobCourse.StepTells` | src/avtomatika/executor.py:408-420 | one action of any actor leaves a job in the state that the handler, the fan-out, or the blueprint's transition for a result, an event or a decision names, and adds exactly the handler's, result's or event's data to its history |
| `JobCourse.StateIsLastTarget` | src/avtomatika/executor.py:408-420 | over every run a job without children stands in the target of the last action that moved it |
| `JobCourse.HistoryIsMerge` | src/avtomatika/services/worker_service.py:529-532 | over every run the history of a job without children is what it was, merged in order with all that its handlers, accepted results and events added since: nothing lost, nothing made up |
| `JobCourse.NextHandlerStandsThere` | src/avtomatika/executor.py:408-420 | the state a handler named is where the queued job stands at its next message, through all polls, timeouts and cancellations in between |
| `Actions.ActionFactory.Ask` | src/avtomatika/context.py:33-48 | an action method raises exactly when an action is set, and else sets its field |
| `Actions.ActionFactory.Choose` | src/avtomatika/executor.py:273-296 | the if-chain over the four fields |
| `Actions.TheFirstRequestWins` | src/avtomatika/context.py:33-48 | after any sequence of calls, refused ones included, at most one field holds an action, and the executor carries out the first call that was not an empty transition |
| `Actions.RefusedExactly` | src/avtomatika/context.py:33-48 | a call is refused exactly when a call other than an empty transition came before it |
| `Actions.EmptyTransitionIsNoAction` | src/avtomatika/context.py:104-108 | an empty transition slips past the guard and gives way to the next action |
| `OptimisticUpdate.RetryLoopIsTheLock` | src/avtomatika/storage/redis.py:367-397 | for any number of callers and plain writes in any interleaving, the stored value is the fold of the committed writes in commit order, each finished call committed exactly once with the value it answered, and was sent back at most once per foreign write between its start and its commit |
| `OptimisticUpdate.StepRefinesLock` | src/avtomatika/storage/memory.py:74-87 | each step of the loop is invisible or is one whole lock-protected update or save |
| `OptimisticUpdate.FailureMeansProgress` | src/avtomatika/storage/redis.py:380-397 | a transaction fails exactly when somebody wrote since the watch; else it applies the callback to the stored value |
| `OptimisticUpdate.UndisturbedCommits` | src/avtomatika/storage/redis.py:367-397 | whoever starts, or starts again, and is let alone for its four requests commits once, with the callback applied to the stored value; plain saves are possible at any time |
| `OptimisticUpdate.Key.UpdateAtomic` | src/avtomatika/storage/redis.py:367-397 | the loop ends with the first undisturbed attempt, as one application of the callback to the value the last disturbance left |
| `FanIn.FanInLosesNothing` | src/avtomatika/services/worker_service.py:449-480 | at every moment of every interleaving of results with atomic updates that leave the fan-in's fields alone, the issued branches split into those still active, in order, and those recorded; the job waits until the last |
| `FanIn.WholeSaveExactly` | src/avtomatika/engine.py:697-734 | a save of a whole record read earlier keeps the fan-in in order if and only if no result was recorded between its read and its save; then it is an update like the others |
| `StaleRecord.RetryMindsFanIn` | src/avtomatika/engine.py:697-734 | the record that a branch's retry saves has the fan-in's fields as they were read |
| `StaleRecord.StaleTimeoutLosesResult` | src/avtomatika/engine.py:697-734 | a branch times out and its record is read, another branch's result is recorded, the retry saves what was read: the result is gone, its branch is outstanding and unwatched, and no message is left |
| `StaleRecord.RaceLosesJob` | src/avtomatika/watcher.py:50-57 | from the empty store, a fan-out of two reaches this race |
| `StaleRecord.UndisturbedTimeoutIsHarmless` | src/avtomatika/watcher.py:50-57 | the same timeout and result one after the other, in either order, keep every job wired |
| `FanIn.FanInIsOrderIndependent` | src/avtomatika/services/worker_service.py:452-480 | once one result per branch is handled, in any order, results, status and state are the same, and exactly one handling queued the job |
| `FanIn.QueuedOnceAtTheEnd` | src/avtomatika/services/worker_service.py:471-473 | the job is never queued before the last result is recorded and never twice |
| `FanIn.NeverStuck` | src/avtomatika/services/worker_service.py:449-480 | every owned result can always take its next step |
| `FanIn.QueuedTwiceExactly` | src/avtomatika/services/worker_service.py:452-473 | when all results are acceptable and the first are those of the branches, some interleaving queues the aggregator twice if and only if there are more results |
| `FanIn.ExtraResultQueuesTwice` | src/avtomatika/services/worker_service.py:452-473 | in a fan-out of any size, any result beyond one per branch, repeated or with an unknown id, may queue the aggregator twice |
| `FanIn.RepeatedResultQueuesTwice` | src/avtomatika/services/worker_service.py:452-473 | in particular a repeated one |
| `TaskQueues.TaskQueues.EnqueueTask` | src/avtomatika/storage/memory.py:102-112 | the task enters its worker's queue under a new number; no other queue changes; the ledger holds |
| `TaskQueues.TaskQueues.DequeueTask` | src/avtomatika/storage/memory.py:114-165 | gives out a task of the worker's own queue or of a proper victim, of higher priority than all that stay in that queue, or of the same and older; the task was never given out before; without one there was nothing to take or to steal |
| `TaskQueues.TaskQueues.FindVictim` | src/avtomatika/storage/memory.py:137-156 | the first of the longest queues among the other registered workers that share the skill |
| `TaskQueues.TaskQueues.FindTheft` | src/avtomatika/storage/memory.py:130-164 | the first of the thief's skills with a victim decides |
| `TaskQueues.TaskQueues.DeregisterWorker` | src/avtomatika/storage/memory.py:323-327 | the queue goes with the worker, and its tasks are booked as dropped |
| `TaskQueues.InOnePlace` | src/avtomatika/storage/memory.py:102-165 | each enqueued task is in exactly one place: queued, delivered once, or dropped |
| `TaskQueues.NewItem` | src/avtomatika/storage/memory.py:102-112 | a new task keeps every queue in order and the ledger exact |
| `TaskQueues.GivenOut` | src/avtomatika/storage/memory.py:114-165 | what stays in a queue after its head was given out has a lower priority, or the same and came later; the head was never delivered, and the ledger stays exact |
| `Overflow.SelectOverflow` | src/avtomatika/dispatcher.py:252-291 | raises exactly when nobody states a cost within the limit; else picks the cheapest affordable worker with room, the earlier one among equals, or with no room anywhere the cheapest of the shortest queues |
| `Overflow.FillsInCostOrder` | src/avtomatika/dispatcher.py:281-291 | n dispatches to k workers with empty queues give exactly the stated loads: one worker after another up to the limit, then round |
| `Overflow.LoadsAreAFill` | src/avtomatika/dispatcher.py:281-291 | there is such a sequence of dispatches of any length |
| `Overflow.BalancedAfterSaturation` | src/avtomatika/dispatcher.py:288-291 | from saturation on, queue lengths differ by at most one |
| `Overflow.TallOnlyWhenAllAre` | src/avtomatika/dispatcher.py:281-291 | under arbitrary dequeues a queue is longer than the limit only because at an earlier moment all queues had reached it |
| `Overflow.RightExactlyChosen` | src/avtomatika/dispatcher.py:252-291 | the choice by position in the sorted list is exactly the right one among the workers as found |
| `Dispatcher.Dispatcher.Select` | src/avtomatika/dispatcher.py:314-444 | each error exactly in its case, warm workers before idle ones, and else a worker that passes all filters and meets its strategy's promise on costs, reputations, loads and queue lengths; only round robin moves the counter |
| `Dispatcher.DefaultFits` | src/avtomatika/dispatcher.py:170-196 | warm before cold, then cheapest, then best reputed |
| `Dispatcher.BestValueFits` | src/avtomatika/dispatcher.py:233-250 | no other worker has a lower ratio of cost to reputation; one without a cost or with reputation zero is chosen only if there are no others |
| `Dispatcher.Dispatcher.KeepCompliant` | src/avtomatika/dispatcher.py:365-379 | the first compliant workers up to the limit, at least one |
| `Dispatcher.KeptAreFirst` | src/avtomatika/dispatcher.py:365-379 | the k-th worker that complies is the k-th one kept, and as many are kept as comply, up to the limit |
| `Dispatcher.RoundRobinIsFair` | src/avtomatika/dispatcher.py:198-209 | over any k consecutive turns each of k workers is chosen exactly once |
| `WorkerIndex.LookupMatchesScan` | src/avtomatika/storage/redis.py:399-602 | after any sequence of aligned registrations, heartbeats, deregistrations and clean-ups, with expiries in between, the index lookup finds all that the scan finds and no other live worker with the skill; what the dispatcher's look at the records leaves is exactly the part of the scan that names the skill; and a live worker is in the idle index exactly when it is idle |
| `WorkerIndex.RecheckIsScanExactly` | src/avtomatika/dispatcher.py:99-108 | the dispatcher's look, which knows names only, is the whole scan if and only if no scanned worker supports the skill by its type alone |
| `WorkerIndex.TypeAloneIsDropped` | src/avtomatika/dispatcher.py:99-108 | a worker that offers "resize" of type "image" is found for "image" by index and scan and dropped by the dispatcher |
| `WorkerIndex.ExplicitIsInLine` | src/avtomatika/storage/redis.py:399-586 | stated statuses at registration and named skills in heartbeats keep every operation aligned |
| `WorkerIndex.DoKeepsInvExactly` | src/avtomatika/storage/redis.py:399-586 | an operation keeps the agreement of indexes and records if and only if it is aligned: a plain heartbeat finds or brings a status, and each new skill has a name, no type, or a type that is indexed anyway |
| `WorkerIndex.SkillsAgreeExactly` | src/avtomatika/storage/redis.py:536-555 | all skills of a heartbeat are indexed afterwards if and only if they were covered |
| `WorkerIndex.RedisStore.RegisterWorker` | src/avtomatika/storage/redis.py:399-445 | writes the record; idle exactly if it says so or says nothing; an index entry for each name and type of its skills, and the worker's own list of them |
| `WorkerIndex.RedisStore.UpdateWorkerStatus` | src/avtomatika/storage/redis.py:473-586 | what the heartbeat brings is written and the rest stays; the idle index follows the script's rule when nothing seems new and else the new status; new skills are indexed by name, and by type if named |
| `WorkerIndex.RedisStore.DeregisterWorker` | src/avtomatika/storage/redis.py:447-471 | the worker leaves the records, the idle index, and the skill indexes that its own list names |
| `WorkerIndex.RedisStore.CleanUp` | src/avtomatika/storage/redis.py:705-780 | strikes exactly the workers without a record |
| `WorkerIndex.RedisStore.FindWorkersForSkill` | src/avtomatika/storage/redis.py:588-602 | the intersection of the skill's index and the idle index |
| `WorkerIndex.PlainHeartbeat` | src/avtomatika/storage/redis.py:56-76 | a heartbeat without news keeps the idle index in line if and only if the record states a status |
| `WorkerIndex.HeartbeatHidesImplicitlyIdle` | src/avtomatika/storage/redis.py:56-76 | a worker that never stated a status drops out of the idle index at its first plain heartbeat |
| `WorkerIndex.HeartbeatSkipsUnnamed` | src/avtomatika/storage/redis.py:536-555 | a heartbeat does not index a skill that has only a type |
| `WorkerIndex.OldSkillStaysIndexed` | src/avtomatika/storage/redis.py:426-443 | a worker that changed its skills stays in the old skill's index, even after it deregistered |
| `BlueprintGraph.Walk` | src/avtomatika/blueprint.py:282-290 | the stack walk computes precisely the states joined to the start by a path, and ends |
| `BlueprintGraph.Blueprint.ValidateIntegrity` | src/avtomatika/blueprint.py:265-303 | accepts if and only if no transition dangles and, with a start and no parse errors, every defined state is reachable; a refusal names real culprits |
| `BlueprintGraph.Blueprint.Register` | src/avtomatika/blueprint.py:57-83 | which registrations are refused, and what a refused one leaves behind |
| `BlueprintGraph.Blueprint.RegisterAggregator` | src/avtomatika/blueprint.py:221-226 | one aggregator per state |
| `BlueprintGraph.Blueprint.FindHandler` | src/avtomatika/blueprint.py:369-384 | the first conditional handler that holds, else the default, else the aggregator |
| `BlueprintGraph.AcceptedGraphIsItsReachableSet` | src/avtomatika/blueprint.py:265-303 | in an accepted graph the defined states are precisely those the start reaches |
| `Scheduler.NeverEarly` | src/avtomatika/scheduler.py:46-75 | with any number of instances in any interleaving, recorded run times of one job are at least its interval apart when the two delays stay below the lock's lifetime |
| `Scheduler.NeverEarlyExactly` | src/avtomatika/scheduler.py:64-71 | for all delays, lifetimes and intervals: no interleaving fires early if and only if the two delays together are below the lock's lifetime |
| `Scheduler.EarlyRun` | src/avtomatika/scheduler.py:64-71 | two instances that fire early whenever the bound is broken: by a stale read, or by a write later than the lock lives |
| `Scheduler.TriggersNeverEarly` | src/avtomatika/scheduler.py:64-71 | the triggers themselves are the interval apart as long as no instance dies between a trigger and its record |
| `Scheduler.TriggersSpaced` | src/avtomatika/scheduler.py:64-71 | whoever dies and whenever, two triggers are at least the lock's lifetime less the second delay apart |
| `Scheduler.DeathLetsTriggersComeClose` | src/avtomatika/scheduler.py:66-71 | that bound is reached: after a death between trigger and record the job is triggered again as soon as the lock is gone |
| `Scheduler.ScheduleStore.ProcessIntervalJobs` | src/avtomatika/scheduler.py:46-75 | an undisturbed round triggers a name, once, if and only if no unexpired lock bears it and an entry of it never ran or last ran at least its interval ago; its run is recorded and its lock taken for five seconds |
| `Scheduler.RoundIsARun` | src/avtomatika/scheduler.py:46-75 | for each name such a round is a run of the interleaving model's events |
| `Scheduler.RoundIsNeverEarly` | src/avtomatika/scheduler.py:46-75 | so after any interleaving of any instances a round records a run only at least the interval after the last recorded one, when the delays are as they should be |
| `Scheduler.ScheduleStore.ProcessCalendarJob` | src/avtomatika/scheduler.py:113-141 | triggers exactly at the job's time of day, on its days and dates, if no lock of that date stands; then it is locked for a day |
| `Scheduler.ScheduleStore.SetNx` | src/avtomatika/storage/memory.py:415-423 | taken exactly when no unexpired key is there |
| `Watcher.HandedOutOnce` | src/avtomatika/watcher.py:41-74 | in every interleaving of watchers, those that outlive their lock included, each registration is handed out at most once and not while it is listed |
| `Watcher.ListedOrHandedOnce` | src/avtomatika/storage/memory.py:267-282 | nothing vanishes: a registration that no removal and no new registration of its key struck is listed or was handed out, exactly once |
| `Watcher.OneHolder` | src/avtomatika/storage/memory.py:527-544 | at most one watcher works within its lock's lifetime, if no two share an instance id |
| `Watcher.ExclusionExactly` | src/avtomatika/watcher.py:27-41 | no run has two watchers working within their locks' lifetimes if and only if no two share an instance id |
| `Watcher.SharedNameBreaksTheLock` | src/avtomatika/watcher.py:27-28 | any two watchers under one name break the lock: one outlives it, frees the other's, and enters again |
| `Watcher.WatchStore.AcquireLock` | src/avtomatika/storage/memory.py:527-534 | taken, for sixty seconds, exactly when no unexpired lock stands |
| `Watcher.WatchStore.ReleaseLock` | src/avtomatika/storage/memory.py:536-544 | the release of a non-holder changes nothing |
| `Watcher.WatchStore.PopTimedOut` | src/avtomatika/storage/memory.py:275-282 | takes the first due entries up to the limit, none that is not due, and leaves a due one only for want of room |
| `Watcher.WatchStore.AddToWatch` | src/avtomatika/storage/memory.py:267-269 | a new key comes last, a key set again keeps its place; either way it is a new registration |
| `Watcher.WatchStore.RemoveFromWatch` | src/avtomatika/storage/memory.py:271-273 | the entries under that key go, and no others |
| `Watcher.PopTakesFirst` | src/avtomatika/storage/memory.py:275-282 | the due entries are those taken, then those left, in order |
| `Watcher.PopSplits` | src/avtomatika/storage/memory.py:275-282 | a pop loses no entry |
| `Watcher.DrainedByCeiling` | src/avtomatika/storage/memory.py:275-282 | d due entries are drained by ceil(d / limit) pops and by no fewer |
| `RateLimit.WindowsAreBounded` | src/avtomatika/storage/memory.py:329-337 | for any non-decreasing request times every window of one period admits at most the limit |
| `RateLimit.AdmittedExactly` | src/avtomatika/engine.py:310-323 | a request is admitted if and only if fewer than the limit came before it since the last quiet period |
| `RateLimit.RefusedUntilQuiet` | src/avtomatika/engine.py:310-323 | who is refused and keeps asking stays refused |
| `RateLimit.QuietStartsOver` | src/avtomatika/storage/memory.py:329-337 | a request after one quiet period counts as the first |
| `RateLimit.Counter.Increment` | src/avtomatika/storage/memory.py:329-337 | counts on for one period after the last request, in memory through its last instant, and then starts from one |
| `RateLimit.Counter.Admit` | src/avtomatika/engine.py:310-335 | the check over a list of requests |
| `Reputation.StaysInUnit` | src/avtomatika/reputation.py:111-119 | under any mix of rewards, penalties and recalculations a reputation stays in [0, 1], when penalties are not negative |
| `Reputation.PenaltyInRangeExactly` | src/avtomatika/services/worker_service.py:375 | a penalty keeps every reputation in range if and only if it is not negative |
| `Reputation.Converges` | src/avtomatika/reputation.py:111-119 | k recalculations at success rate s come within 0.3^k plus 0.00005/0.7 of s clamped to [0.1, 1] |
| `Reputation.RecalculationContracts` | src/avtomatika/reputation.py:111-119 | one recalculation leaves at most three tenths of the distance, plus the rounding |
| `Reputation.ReputationStore.RewardSuccess` | src/avtomatika/services/worker_service.py:550-555 | a positive reward is added, capped at 1; any other changes nothing |
| `Reputation.ReputationStore.Penalise` | src/avtomatika/services/worker_service.py:596-605 | a penalty of either sign is taken off, floored at 0; one that is not negative keeps all reputations in range |
| `Reputation.ReputationStore.RecalculateAll` | src/avtomatika/reputation.py:58-83 | each active worker once, in chunks |

## Left out

- Sub-blueprint parents: modelled, but exempt from the no-loss, absorption and static-state claims, because the code resumes a parent without looking at it.
- Interleaving inside one actor's step: a step is atomic per job in the lifecycle; finer interleavings are covered only for record updates, fan-in, a branch's timeout against a result, locks, watch pops, and kills of the executor, the watcher and the handling of results.
- Callbacks that raise inside an atomic update: the update is then not made; the callbacks modelled do not raise.
- State histories: values are strings, and the result of a child is kept under one key instead of one per child.
- Two processes handling one redelivered message at the same time: deliveries of one entry are proved to be an idle time apart, and a handler that takes longer is not followed further.
- Time in the lifecycle: any watch entry may fire at any moment; deadlines, which only choose the moment, are not kept. The code's mixture of wall clock and monotonic clock is one clock.
- Actors.WorkerService.MarkPickedUp: a task of a job that is no longer stored is not modelled; the code then creates a record without an id.
- Actors.WorkerService.RecordResult: a fan-out record without an aggregation target, for which the code raises KeyError, is left waiting; the target is set by every fan-out and never cleared.
- Fan-out tasks that name their own `task_id`: the blueprint is taken to leave ids to the orchestrator.
- The in-memory store hands out its own dictionaries, so unsaved changes are visible to others; records are modelled as copies, as Redis returns them.
- The trimming of the message stream at about 100000 entries, and the bound on how many pending entries one claim scans.
- JobStream.JobStream.DequeueJob: the in-memory queue, which loses an entry at delivery and gives all the same message id, is not modelled.
- The executor's set of messages in progress, its semaphore and back-off, and the watcher's back-off: they delay work and do not change records.
- Progress events: they write fields that no step reads.
- Events that a handler emits while it runs: they take the event transition of their job's stored record, which waits for a worker only when a message is handled again; modelled as events between steps, not inside one.
- Storage calls that raise inside the handler's own try block and are then handled with the half-changed record: modelled when that handling raises at once, as an interruption, and not when it succeeds.
- WorkerIndex: hot skills, expiry scores, refresh without indexes, and `update_worker_data`, which in Redis drops the record's lifetime.
- TaskQueues: the Redis queues and their scripted stealing from a random sample of workers.
- Dispatcher.Dispatcher.Select: the two-second worker cache, and the matching of resources, artifacts and skills, which is one verdict per worker.
- The worker's load counter as an exact count: stealing moves work without moving it.
- Retry loops bounded at ten attempts in `update_worker_status`, and the non-atomic fallbacks for Redis servers without scripts.
- Parsing of handler sources: the transition map is an input, as is the number of parse errors.
- Security and metadata fields, signatures, tokens, contracts' schemas (a verdict each), histories, webhooks, files, metrics, tracing, HTTP and websockets.
- Floating point: costs, priorities and reputations are reals; only the rounding to four decimals is written out.
