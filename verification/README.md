# The task pipeline of task-orchestrator, modelled and proved in Dafny

The repository submits tasks, runs them either in the caller (synchronous runner) or through a Redis
list and a pool of worker goroutines (asynchronous runner), and lets clients poll their status in an
in-memory store. No single component enforces that this is safe: the store's `Update` never checks a
transition, `Save` keeps the submitter's own pointer, and workers act on a deserialised copy. This
project proves that it is safe as a whole, and where it falls short of what one might expect.

There are two layers, over one set of value rules (`Errors`, `Tasks`, `Lifecycle`).

**The objects** (`Tasks.Task`, `Contexts`, `Stores`, `Queues`, `Registries`, `Execution`, `Runners`,
`Workflows`, `Orchestrators`, `Workers`): classes with the source's fields, aliasing and frames, one
module per source file. Store outages and the clock are nondeterministic; the queue's failures and the
shutdown timer are schedules given from outside; contracts hold for every pattern of them. A `TaskStore` is the memory store behind a connection: a
`reliable` one is `MemoryTaskStore` itself.

**The running system** (`Pipeline` and the modules above it): a step system with any number of
asynchronous and synchronous submitters, one queue, any number of worker goroutines, a growing
registry, and any number of concurrent callers of the pool's `Start` and `Stop`. One step is one
access to shared state, in the order of the source's calls. An action fixes every choice (who moves,
the clock, a queue fault, the handler's outcome), so `Apply` is a function, a run is a sequence of
actions, and a theorem about all runs is a theorem about all sequences. `Ownership` says what each
holder of a task knows about its stored record at each control point; `Invariant` proves that
inductive; `Protocols` proves that an undisturbed submitter or goroutine of the step system does
what the methods promise; `Safety`, `Submissions`, `Updates`, `Order`, `Shutdown`, `Signals`,
`Drain`, `Restart`, `Quiescence`, `Refinement` and `Timestamps` draw the conclusions; `Witnesses`
exhibits runs that reach the states in which the code falls short. The fields `enqueued`,
`dequeued`, `finished` of the state, and `calls`, `place` of an entry, are history: no step reads
them, and the theorems about counts tie them to the actions of the run.

Both layers are proved against the same verdicts: `Lifecycle.SyncVerdict` is what `ExecuteSync` and a
synchronous submitter of the step system leave in the store, `Lifecycle.WorkerVerdict` what
`ProcessNextTask` and a goroutine of the step system leave there. `Lifecycle.SyncPromise`,
`AsyncPromise` and `WorkerPromise` say the same in literal texts, kinds and codes, without the functions
that build them, and are part of the contracts.

Assumptions: a handler writes only `task.Result`; `Enqueue` and `Dequeue` are atomic and an error of
either leaves the queue as it was (but for an undecodable message); field accesses are sequentially
consistent, and the copy that a poller's `Get` makes is one atomic read of the record, although its
submitter writes it without the store's lock; the asynchronous runner and the workers share one registry
and one store (main.go wires only the synchronous runner); payloads are present JSON values.

What the code does not do, proved here, each with a run that shows it:
- a stopped pool cannot be started again: once a `Stop` has begun to wait, whether it then drains or
  times out, no goroutine of a later `Start` ever calls `Dequeue`, because stop channels stay closed
  (`Restart.AnyStopIsFinal`, `Shutdown.GracefulStopDrains`). A goroutine before its check can dequeue
  again exactly when its worker's channel is open and its context is not done
  (`Restart.DequeuesAgainIff`), and a new `Start` can have any effect exactly when some worker's channel
  is open (`Restart.RestartWorksIff`). The run: `Witnesses.AStartAfterAStopIsInVain`;
- the stored record of a task that a worker ran never gets `StartedAt` or `CompletedAt`
  (`Timestamps.TimesAreChronological`). The runs, one for every handler outcome:
  `Witnesses.ATaskThatAWorkerRan`;
- a failed task at rest has an empty result exactly when a worker ran it and its handler returned a
  plain error with no text (`Safety.FailuresExplainThemselves`). The run: `Witnesses.ATaskThatAWorkerRan`
  with that outcome;
- an asynchronous task differs from its synchronous execution in status exactly when its `Enqueue`
  failed and the synchronous one would be done (`Refinement.AsyncRefinesSync`). The runs, one for every
  error of `Enqueue`: `Witnesses.AFailedEnqueueDiffers`.

## Model

| member | source | states |
|---|---|---|
| Tasks.ReachesIffPath | task-orchestrator/tasks/task.go:39-59 | One status is reachable from another in the transition graph exactly when they are equal or known with a falling rank. |
| Tasks.PathImpliesReaches | task-orchestrator/tasks/task.go:39-59 | Every path of allowed transitions strictly lowers the rank, so it has at most three edges. |
| Tasks.EdgesAreExactly | task-orchestrator/tasks/task.go:39-59 | The seven edges of the transition graph, and no other: in particular none from submitted to done. |
| Tasks.NamesTellStatusesApart | task-orchestrator/tasks/task.go:15-26 | Each known status has its own wire text, and no two share one. |
| Tasks.Task.constructor | task-orchestrator/tasks/task.go:90-99 | A new task is submitted, with an empty result and only its submission time. |
| Tasks.Task.SetStatus | task-orchestrator/tasks/task.go:102-108 | The status changes exactly when the transition is allowed; a refusal changes nothing and names the task and the two statuses, or the unknown one. |
| Errors.EmptyTextIffBlankPlain | task-orchestrator/errors/errors.go:26-28 | An error's text is empty exactly for a plain error without text; a structured one always has text. |
| Errors.FallbackIsNeverEmpty | task-orchestrator/tasks/orchestrator/execution/result_handler.go:36-47 | The fallback result for any error is non-empty. |
| Errors.TextsTellErrorsApart | task-orchestrator/errors/errors.go:26-28 | Two structured errors have the same text exactly when they have the same kind and message. |
| Lifecycle.WorkerAgreesWithSync | task-orchestrator/tasks/workers/worker.go:109-161 | For the same handler outcome, worker and synchronous execution agree on the status, and on the result when it is done. |
| Lifecycle.FailedResultIsEmptyIff | task-orchestrator/tasks/workers/worker.go:144-161 | Synchronous failures always carry a result; a worker's failure has an empty one exactly for a plain handler error without text. |
| Lifecycle.SyncPromiseIff | task-orchestrator/tasks/orchestrator/execution/workflow.go:97-142 | A verdict and an error are those of synchronous execution exactly when: the handler's result with nil; or failed, with the handler's own structured error, else execution/422, and the handler's own result if it left one, else the error's kind and message; or not_found/404 naming the type. |
| Lifecycle.AsyncPromiseIff | task-orchestrator/tasks/runners/async.go:24-45 | An error is that of an asynchronous submission exactly when it is nil for a pushed registered type, not_found/404 naming an unregistered one, and otherwise the queue's own structured error or execution/422. |
| Lifecycle.WorkerPromiseIff | task-orchestrator/tasks/workers/worker.go:109-161 | A verdict is the worker's exactly when it is done with the handler's result, or failed with the text of the handler's error. |
| Contexts.ExecutionContext.SetError | task-orchestrator/tasks/context/context.go:27-30 | Records the error and the end of the attempt. |
| Contexts.ExecutionContext.constructor | task-orchestrator/tasks/context/context.go:19-24 | A new attempt at this very task object, without an error. |
| Contexts.ExecutionContext.SetSuccess | task-orchestrator/tasks/context/context.go:33-35 | Records the end of the attempt and keeps the error as it is. |
| Stores.MemoryTaskStore.Save | task-orchestrator/tasks/store/memory.go:28-38 | Stores the caller's own object under its ID exactly when the ID is free; otherwise the map is unchanged; IDs stay keys. |
| Stores.MemoryTaskStore.Get | task-orchestrator/tasks/store/memory.go:43-54 | Returns a new object with the record's fields, so writing its fields cannot reach the store; an unknown ID is an error. |
| Stores.TaskStore.Get | task-orchestrator/tasks/store/store.go:9-13 | A store that may fail answers with a fresh copy of a stored record or with an error; a reliable one with an error exactly for an unknown ID. |
| Stores.MemoryTaskStore.Update | task-orchestrator/tasks/store/memory.go:58-73 | Writes status and result of the one record with that ID and nothing else, without checking the transition. |
| Stores.RecordsAreSeparate | task-orchestrator/tasks/store/memory.go:28-38 | Distinct keys hold distinct objects. |
| Queues.RedisTaskQueue.Enqueue | task-orchestrator/tasks/queue/redis.go:41-49 | Pushes the context by value on the left exactly when the command reaches Redis; otherwise returns its error and leaves the list as it was. |
| Queues.RedisTaskQueue.Dequeue | task-orchestrator/tasks/queue/redis.go:51-69 | Pops the rightmost message exactly when the command reaches Redis and there is one, into fresh objects with the same fields; a message with an error is popped and lost. |
| Queues.RedisTaskQueue.GetQueueDepth | task-orchestrator/tasks/queue/redis.go:71-73 | The length of the list, or the error of the command. |
| Registries.HandlerRegistry.Register | task-orchestrator/tasks/registry/registry.go:25-30 | Binds the type; no registered type is ever lost. |
| Registries.HandlerRegistry.Get | task-orchestrator/tasks/registry/registry.go:34-40 | Finds a handler exactly for the registered types. |
| Registries.HandlerRegistry.GetRegisteredTypes | task-orchestrator/tasks/registry/registry.go:44-53 | Returns every registered type exactly once. |
| Execution.StateManager.TransitionToQueued | task-orchestrator/tasks/orchestrator/execution/state_manager.go:36-56 | Refused: nothing changes and the store is not asked. Allowed: the task is queued and stamped even when the store fails; Update is called once; nil exactly when persisted. |
| Execution.StateManager.TransitionToRunning | task-orchestrator/tasks/orchestrator/execution/state_manager.go:60-77 | Nil exactly when the transition is allowed, and then Update is called once; StartedAt is stamped in any case; store failures are no errors. |
| Execution.StateManager.TransitionToFailed | task-orchestrator/tasks/orchestrator/execution/state_manager.go:81-100 | Never an error; fails the task when allowed, calls Update once with the current status in any case; needs an error in the context only when the store can fail. |
| Execution.StateManager.TransitionToCompleted | task-orchestrator/tasks/orchestrator/execution/state_manager.go:104-122 | Nil exactly when the transition is allowed, and then Update is called once; store failures are no errors. |
| Execution.ResultHandler.HandleFailure | task-orchestrator/tasks/orchestrator/execution/result_handler.go:36-47 | Keeps a result set by the handler, otherwise writes the error's kind and message, or a plain error's text; never empty afterwards. |
| Execution.ResultHandler.HandleSuccess | task-orchestrator/tasks/orchestrator/execution/result_handler.go:28-32 | Sets the end of the attempt to the clock's reading and touches neither the task nor the error. |
| Runners.SynchronousRunner.Run | task-orchestrator/tasks/runners/sync.go:25-44 | A structured handler error is returned itself, a plain one as execution/422 "task execution failed"; a missing handler is not_found/404 naming the type. |
| Runners.AsynchronousRunner.Run | task-orchestrator/tasks/runners/async.go:24-45 | Nil exactly when the context was pushed; Enqueue is called exactly for a registered type; the error is not_found/404 naming an unregistered type, and otherwise the queue's own structured error, or execution/422 for a plain one. |
| Workflows.Workflow.Execute | task-orchestrator/tasks/orchestrator/execution/workflow.go:44-53 | Chooses the protocol by the runner's type, with that protocol's verdict, error and queue effect for a submitted task. |
| Workflows.Workflow.ExecuteAsync | task-orchestrator/tasks/orchestrator/execution/workflow.go:56-95 | All or nothing under any store and queue failures: nil exactly when the queue grew by this one queued task; otherwise the queue is unchanged and the task is failed with a result; Enqueue is called at most once, and whenever it can be; a task that could be queued returns not-found for an unregistered type, and otherwise what the queue's answer decides. |
| Workflows.Workflow.MarkQueued | task-orchestrator/tasks/orchestrator/execution/workflow.go:56-72 | Only a submitted task is marked queued; a refusal or a store failure leaves it failed, unless it was final, with a result that explains the returned error. |
| Workflows.Workflow.HandOver | task-orchestrator/tasks/orchestrator/execution/workflow.go:74-94 | A queued task is pushed once and nil returned, or nothing is pushed, the task is failed with the returned error's text as result, and the error is the one a missing handler or the queue's answer decides. |
| Workflows.Workflow.FailEnqueue | task-orchestrator/tasks/orchestrator/execution/workflow.go:75-91 | After a failing runner the task is failed, its result shows the error's kind and message, Update is called twice, and the second transition to failed changes neither. |
| Workflows.Workflow.Fail | task-orchestrator/tasks/orchestrator/execution/workflow.go:103-119 | The error is recorded, the task gets a non-empty result that keeps the handler's own, and is failed if its status allows it. |
| Workflows.Workflow.RunNow | task-orchestrator/tasks/orchestrator/execution/workflow.go:103-142 | A running task ends done with its handler's result, or failed with the handler's error returned, recorded in the context and explained, under every store outage; the attempt's end is set and Update called once. |
| Workflows.Workflow.ExecuteSync | task-orchestrator/tasks/orchestrator/execution/workflow.go:97-142 | Total under any handler outcome and store outage: a task that may run ends final, nil exactly when done, with the handler's own structured error returned (a plain one as execution/422) and a result that is the handler's or explains the error; a reliable store shows the same. |
| Orchestrators.Orchestrator.SubmitTask | task-orchestrator/tasks/orchestrator/orchestrator.go:61-84 | A colliding ID or failing save changes no record and no queue and answers internal/500; a saved task is the stored object, stamped with the time of the call and executed by the runner's protocol; every error over the memory store is structured. |
| Orchestrators.Orchestrator.GetTask | task-orchestrator/tasks/orchestrator/orchestrator.go:92-98 | A copy of the record, or the not-found error, which also answers when the store fails on a stored ID; over a reliable store not-found means unknown. |
| Orchestrators.Orchestrator.GetTaskStatus | task-orchestrator/tasks/orchestrator/orchestrator.go:103-109 | The wire text of the record's status, or not_found/404 under the same conditions. |
| Workers.Worker.Stop | task-orchestrator/tasks/workers/worker.go:71-75 | Closes the stop channel, never a closed one. |
| Workers.Worker.ProcessNextTask | task-orchestrator/tasks/workers/worker.go:77-115 | One Dequeue; a message that it finds, queued and of a stored task, leaves its record with the worker's verdict: the handler's result, or its error's text, or the name of a type without handler; no other record changes, and none when there is no message or Redis fails. |
| Workers.Worker.ProcessTask | task-orchestrator/tasks/workers/worker.go:98-115 | A dequeued queued copy of a stored task leaves the record with that verdict, registered type or not; a copy that may not run leaves it alone. |
| Workers.Worker.ExecuteTask | task-orchestrator/tasks/workers/worker.go:117-125 | The handler's outcome, unwrapped; a plain error when there is no handler. |
| Workers.Worker.HandleTaskFailure | task-orchestrator/tasks/workers/worker.go:144-161 | The copy's result is a plain error's text verbatim, or a structured one's bracketed kind and message, and the record gets the failed status. |
| Workers.Worker.Start | task-orchestrator/tasks/workers/worker.go:38-68 | Whatever signals other goroutines raise between its checks, Dequeue is called once for each check before the first that finds a signal, failing ones included, and there the loop returns; exactly as many messages leave the queue, from the right, as commands reach a non-empty list; with a signal raised from the start nothing is dequeued or written. |
| Workers.PassedChecks | task-orchestrator/tasks/workers/worker.go:47-66 | How many checks find no signal: all those before the first that is raised, and none when one is raised already. |
| Workers.WorkerPool.constructor | task-orchestrator/tasks/workers/pool.go:23-40 | The given number of workers, numbered from one, each with its own open stop channel. |
| Workers.WorkerPool.Start | task-orchestrator/tasks/workers/pool.go:43-67 | One goroutine and one wait-group count per worker, all under one fresh context, which becomes cancelFn. |
| Workers.WorkerPool.Stop | task-orchestrator/tasks/workers/pool.go:70-113 | Cancels the latest context, leaves every stop channel closed, clears cancelFn; returns gracefully exactly when the whole group finishes before the timer. |
| Workers.WorkerPool.AwaitWorkers | task-orchestrator/tasks/workers/pool.go:90-107 | The wait only sees the group count down, and is graceful exactly when it comes to zero before the timer. |
| Ownership.AsyncStepKeeps | task-orchestrator/tasks/orchestrator/execution/workflow.go:56-95 | At each of its control points an asynchronous submitter's record is as stated, one step leads to the next, and the end is a queued snapshot equal to the record or a failed record with a result. |
| Ownership.SyncStepKeeps | task-orchestrator/tasks/orchestrator/execution/workflow.go:97-142 | The same for a synchronous submitter, whose end is the synchronous verdict. |
| Ownership.WorkStepKeeps | task-orchestrator/tasks/workers/worker.go:77-161 | The same for a worker's copy against the stored record, whose end is the worker's verdict. |
| Invariant.HandoffKeeps | task-orchestrator/tasks/store/memory.go:56-73 | A step that moves one task keeps the whole invariant when the task's new holder is right and no other holder is disturbed. |
| Invariant.StepKeeps | task-orchestrator/tasks/store/memory.go:56-73 | Every action keeps the invariant; no record disappears, each moves by an allowed transition or none, and a final status and its result are frozen, although Update checks nothing. |
| Updates.TransitionsArePersisted | task-orchestrator/tasks/orchestrator/execution/state_manager.go:36-122 | Over any run a task is written to the store once for each transition of its route: twice when run synchronously, three times when run by a worker or refused, once while queued, never before it is stored. |
| Protocols.SubmitterAloneIsTheMethod | task-orchestrator/tasks/orchestrator/execution/workflow.go:56-142 | A submitter of the step system that runs undisturbed returns, disturbs nothing else, and leaves what the contracts of ExecuteAsync and ExecuteSync promise: the synchronous verdict and error, or all or nothing with the error that the missing handler or the queue's fault decides, structured errors kept. |
| Protocols.GoroutineAloneIsTheMethod | task-orchestrator/tasks/workers/worker.go:77-161 | A goroutine that dequeues and runs undisturbed does what ProcessNextTask promises: one handler call, the worker's verdict on it in this record and no other field of it, back to its check; no other record, submitter or goroutine changes. |
| Protocols.RunAloneIsARun | task-orchestrator/tasks/orchestrator/execution/workflow.go:56-142 | Running undisturbed is a run of the step system, for any choices on a clock that runs forwards. |
| Safety.EachTaskInOnePlace | task-orchestrator/tasks/orchestrator/orchestrator.go:61-84 | In every reachable state each stored task is with one submitter, in one queue slot, with one goroutine, or at rest with a final status; nothing else is held. |
| Safety.StoredHistoryIsLegal | task-orchestrator/tasks/orchestrator/execution/state_manager.go:36-122 | In every run the statuses of a stored record form, up to repeats, a path of allowed transitions from submitted with at most three changes. |
| Safety.PollingIsMonotone | task-orchestrator/tasks/orchestrator/orchestrator.go:103-109 | Of two observations of an ID the later status is reachable from the earlier, and a final status is seen for ever with its result. |
| Safety.HandlerRunsAtMostOnce | task-orchestrator/tasks/workers/worker.go:109-124 | Over any run the handler is called at most once per ID, exactly once for a done or worker-finished task, never for a submitted or queued one. |
| Safety.FailuresExplainThemselves | task-orchestrator/tasks/workers/worker.go:144-161 | In every reachable state a failed task at rest has an empty result exactly when a worker ran it and its one handler call returned a plain error without text. |
| Safety.RestingTasksMeetTheirPromise | task-orchestrator/tasks/workers/worker.go:109-161 | In every reachable state a task at rest shows its handler's result when done, and when failed the handler's own words, its error's kind and message, or the type without handler, by the route it took. |
| Safety.RegistryGrowsExactly | task-orchestrator/tasks/registry/registry.go:25-30 | At the end of any run the registry holds what it held and what was registered, no more and no less. |
| Submissions.SubmissionIsAllOrNothing | task-orchestrator/tasks/orchestrator/execution/workflow.go:56-95 | Under every interleaving after its Save, an asynchronous submission that has returned has pushed exactly once if it returned nil, and never if it returned an error; that error is the one its Enqueue gave (a plain one as execution/422) or names the missing handler, and its record is failed with the error's text; a synchronous one has pushed nothing and left the verdict and error of its handler call. Type, payload and submission time are those submitted. |
| Safety.TasksAreEnqueuedAtMostOnce | task-orchestrator/tasks/orchestrator/orchestrator.go:61-84 | By task ID, whoever submits it: at most one push in any run, none for a refused task; every error a submission returns is structured, a refused Save included. |
| Safety.QueueIsFifo | task-orchestrator/tasks/queue/redis.go:41-73 | What was enqueued is what was dequeued followed by the reversed list; the depth is the difference. |
| Safety.SnapshotsMatchTheStore | task-orchestrator/tasks/queue/redis.go:41-49 | A queued snapshot has no error, is queued with an empty result and a registered type, and equals the stored record in every field. |
| Safety.NoTaskIsDropped | task-orchestrator/tasks/workers/worker.go:98-121 | A goroutine's move to running is never refused, its handler is always found, and each Update finds the record and makes it agree with the copy. |
| Order.OneWorkerFinishesInOrder | task-orchestrator/tasks/workers/worker.go:77-115 | With one goroutine at a time the finished tasks are a prefix of the enqueued ones, and at most one more is dequeued. |
| Order.FinishedTasksAreFinal | task-orchestrator/tasks/workers/worker.go:77-141 | With any number of workers, a task a goroutine has let go of has a final record and exactly one handler call. |
| Shutdown.WaitGroupCountsGoroutines | task-orchestrator/tasks/workers/pool.go:55-62 | The wait group counts the live goroutines, up to the one a Start is about to launch, and never goes negative. |
| Shutdown.GracefulStopDrains | task-orchestrator/tasks/workers/pool.go:70-113 | After any Stop's done branch no goroutine ever dequeues or works again, even after further Starts; the queue only grows and every accepted task is queued or at rest with a final status. |
| Shutdown.StoppedPoolStaysEmpty | task-orchestrator/tasks/workers/pool.go:90-107 | Once a Stop finds the group at zero with no Start under way, no goroutine exists until the next Start. |
| Shutdown.DequeuesAfterStopAreBounded | task-orchestrator/tasks/workers/worker.go:47-75 | After a stop channel is closed or a context is done, each goroutine of it that was past its check dequeues at most once and every other one, later ones included, never; so the dequeues are no more than the goroutines past their check. |
| Shutdown.StopSignalsEveryWorker | task-orchestrator/tasks/workers/pool.go:85-95 | A Stop that waits has closed every worker's channel, whatever Starts and Stops run beside it. |
| Signals.SignalsAreRaisedExactly | task-orchestrator/tasks/workers/pool.go:70-88 | Over any run a context is done, or a channel closed, exactly when it was before or its parent was cancelled, a Stop called the cancelFn it had read, or a Stop closed that channel; no signal is taken back. |
| Signals.CancelFnIsOfTheLatestStart | task-orchestrator/tasks/workers/pool.go:43-113 | The cancelFn a Stop finds is the latest Start's, counted over the run, or none when a Stop has ended since. |
| Signals.StopRaisesBothSignals | task-orchestrator/tasks/workers/pool.go:70-88 | After the first step of a Stop the context whose cancelFn it found is done, and from its wait on every channel is closed, for ever and whatever runs beside it. |
| Signals.StartLaunchesEveryWorker | task-orchestrator/tasks/workers/pool.go:43-67 | Whatever runs beside it, a Start launches one goroutine for each worker, in order and under its own context, which stays the one to cancel while it holds the mutex. |
| Signals.StartExcludesOthers | task-orchestrator/tasks/workers/pool.go:43-113 | While a Start is under way no other Start or Stop begins or ends. |
| Signals.StopReachesTheStart | task-orchestrator/tasks/workers/pool.go:43-88 | A Stop begun after a Start, with no other Start begun or Stop ended between, has raised both signals of every goroutine of that Start before it waits. |
| Drain.EveryStopCanReturn | task-orchestrator/tasks/workers/pool.go:70-113 | From every reachable state every Stop can return both ways: by the time-out with no step of a goroutine, and gracefully once all goroutines have ended their tasks and left. |
| Restart.DequeuesAgainIff | task-orchestrator/tasks/workers/worker.go:47-66 | A goroutine before its check can call Dequeue in some continuation exactly when its worker's stop channel is open and its context is not done. |
| Restart.AnyStopIsFinal | task-orchestrator/tasks/workers/pool.go:70-113 | Once any Stop has begun to wait, drained or timed out, whatever follows, Starts included, a goroutine past its check dequeues at most once and any other never. |
| Restart.RestartWorksIff | task-orchestrator/tasks/workers/pool.go:43-67 | Some goroutine started from now on can ever call Dequeue exactly when some worker's stop channel is still open. |
| Quiescence.TaskStepsAreBounded | task-orchestrator/tasks/workers/worker.go:47-67 | In every run from every state, the steps of submitters and goroutines are no more than a measure of the state, plus a constant for each new submission, launched goroutine and failed Dequeue; registrations, Stops and the rest of Start add nothing. |
| Quiescence.CanRunToTheEnd | task-orchestrator/tasks/workers/worker.go:47-67 | From every state some run of task steps leads to a state where none is left, with any prescribed outcome of the handlers and answer of Enqueue. |
| Quiescence.EveryTaskComesToRest | task-orchestrator/tasks/workers/worker.go:77-115 | In every continuation of every reachable state, whatever submissions, registrations, Starts, Stops and failing Dequeues it contains: when no task step is left and a goroutine is alive, the queue is empty and every stored task has a final status; a goroutine nobody had told to stop still serves exactly when neither of its signals was raised since, so no failing Dequeue and no task ends it. |
| Refinement.AsyncRefinesSync | task-orchestrator/tasks/orchestrator/execution/workflow.go:56-142 | With functional handlers and a fixed registry, in every run a task at rest has the status of synchronous execution exactly when its Enqueue did not fail (or that status is failed), and its result when done. |
| Timestamps.TimesAreChronological | task-orchestrator/tasks/orchestrator/execution/state_manager.go:36-122 | The present timestamps of every record and copy are non-decreasing, and which are present is fixed for every record by its holder: the submitter's control point, the queue or a worker, or the route taken. |
| Timestamps.StampsReadTheClock | task-orchestrator/tasks/orchestrator/execution/state_manager.go:36-122 | Every timestamp on a record or a copy is the clock's reading in the step that wrote it; SubmittedAt is that of the submission. |
| Witnesses.AStartAfterAStopIsInVain | task-orchestrator/tasks/workers/pool.go:70-113 | A run: a Stop, drained or timed out as wanted, then a Start whose goroutine never dequeues in any continuation. |
| Witnesses.ATaskThatAWorkerRan | task-orchestrator/tasks/workers/worker.go:77-161 | For every handler outcome a run in which a worker runs a task with it: the record has the worker's verdict, an empty result for a plain error without text, and neither StartedAt nor CompletedAt. |
| Witnesses.AFailedEnqueueDiffers | task-orchestrator/tasks/orchestrator/execution/workflow.go:74-91 | For every error of Enqueue a run in which the task rests failed although its synchronous execution would be done. |
| Witnesses.EverySubmissionCanBeAnswered | task-orchestrator/tasks/orchestrator/orchestrator.go:61-84 | From every reachable state every submission is answered in some run, under any queue answer and handler outcome: internal/500 and nothing changed for a stored ID, otherwise what its protocol promises. |

## Left out

- HTTP handlers, middleware, server, health endpoint, configuration and logging: they only call what is modelled or print.
- Redis client, JSON encoding and container setup: the list is a sequence and encoding copies values; a payload is a present value.
- Handler bodies: a handler is any outcome that writes only the result; real sleeping and payload decoding are not modelled.
- The details map of structured errors, and the text of the encode and decode errors: no branch depends on them.
- Store outages in the step system: it has the memory store itself, whose Update fails only for an unknown ID; outages are covered by the contracts of the objects. With a store that loses updates the stored history could jump from queued to done.
- ExecutionContext times in the step system: they are kept by the objects and read by no branch.
- Wall-clock accuracy of the shutdown time-out: the time-out branch is a free choice, and nothing is claimed about drain when it is taken.
- Deferred release of the mutex and Go's rule against reusing a wait group while waiting: Start holds the mutex from first to last step, and waiting ends in a state with the counter at zero.
- Workers.Worker.Start: is cut off after a given number of checks, because the source's loop is endless, and other goroutines only raise its signals during the loop; the endless loop beside other work is the goroutine of the step system.
- Workers.WorkerPool.Start: records the goroutines it launches instead of running them; they run in the step system.
- Stores.MemoryTaskStore.Get: the source copies the struct, so the payload's bytes and the time values behind the three pointers stay shared with the record; here both are values, and writing through the shared bytes is not modelled.
- Workers.WorkerPool.AwaitWorkers: stands for the waiter goroutine and the timer by a countdown; both are steps of a Stop in the step system.
- Workers.WorkerPool.Stop: waits while other goroutines only count the wait group down; their work is in the step system.
- Queues.RedisTaskQueue.Dequeue: an empty list ends the wait with an error, since nothing else can arrive during one call; blocking is a disabled step in the step system.
- Registries.TaskHandler.Run: an outcome fixed by type and payload; outcomes that vary, for instance on cancellation, are free choices of the step system and excluded only where synchronous and asynchronous execution are compared.
