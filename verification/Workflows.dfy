// tasks/orchestrator/execution/workflow.go: the synchronous and the asynchronous execution protocol.
module Workflows {
  import opened Wrappers
  import opened Errors
  import opened Tasks
  import opened Lifecycle
  import opened Clocks
  import opened Contexts
  import opened Stores
  import opened Queues
  import opened Execution
  import opened Runners

  class Workflow {
    const runner: Runner
    const stateManager: StateManager
    const resultHandler: ResultHandler
    const clock: Clock

    constructor (runner: Runner, stateManager: StateManager, resultHandler: ResultHandler, clock: Clock)
      requires stateManager.clock == clock && resultHandler.clock == clock
      ensures this.runner == runner && this.stateManager == stateManager
      ensures this.resultHandler == resultHandler && this.clock == clock && Valid()
    {
      this.runner, this.stateManager, this.resultHandler, this.clock := runner, stateManager, resultHandler, clock;
    }

    ghost predicate Valid() {
      stateManager.clock == clock && resultHandler.clock == clock
    }

    ghost function Memory(): MemoryTaskStore { stateManager.store.memory }

    // A reliable store shows the task's own status and result.
    ghost predicate StoreAgrees(task: Task)
      reads Memory(), Memory().RecordOf(task.id), task
    {
      stateManager.store.reliable && task.id in Memory().tasks ==>
        && Memory().tasks[task.id].status == task.status
        && Memory().tasks[task.id].result == task.result
    }

    // The queue has grown by one message, on the left: the queued task by value, without an error.
    ghost predicate PushedOnce(queue: RedisTaskQueue, before: seq<Message>, task: Task)
      reads queue, task
    {
      && |queue.list| == |before| + 1 && queue.list[1..] == before
      && queue.list[0].task == task.View() && queue.list[0].error.None? && task.status == Queued
    }

    ghost function Waiting(): seq<Message>
      reads runner.Frame()
    {
      if runner.AsyncRunner? then runner.async.queue.list else []
    }

    // What the queue would answer to the next command.
    ghost function NextAnswer(): Option<Error>
      reads runner.Frame()
    {
      if runner.AsyncRunner? then runner.async.queue.NextAnswer() else None
    }

    // What the runner's protocol made of a submitted task: its verdict and error, or all or nothing.
    ghost predicate Executed(task: Task, err: Option<Error>, before: seq<Message>, fault: Option<Error>)
      reads task, runner.Frame(), {runner.Registry()}, Memory()
    {
      match runner
      case SyncRunner(sync) =>
        var ran := sync.registry.OutcomeFor(task.taskType, task.payload);
        && Verdict(task.status, task.result) == SyncVerdict(task.taskType, ran)
        && err == SyncError(task.taskType, ran)
        && SyncPromise(task.taskType, ran, Verdict(task.status, task.result), err)
      case AsyncRunner(async) =>
        && (task.taskType !in async.registry.handlers ==> err.Some?)
        && (stateManager.store.reliable && task.id in Memory().tasks ==>
              && err == AsyncError(task.taskType, task.taskType in async.registry.handlers, fault)
              && AsyncPromise(task.taskType, task.taskType in async.registry.handlers, fault, err)
              && (err.Some? ==> Shows(task.result, err.value)))
        && if err.None? then PushedOnce(async.queue, before, task)
           else async.queue.list == before && task.status == Failed && task.result != ""
    }

    // Execute picks the protocol by the runner's type.
    method Execute(task: Task) returns (err: Option<Error>)
      requires Valid()
      modifies clock, stateManager.store`updates, runner.Frame()
      modifies task, Memory().RecordOf(task.id)`status, Memory().RecordOf(task.id)`result
      ensures old(task.status) == Submitted && (runner.SyncRunner? ==> old(task.result) == "") ==>
                Executed(task, err, old(Waiting()), old(NextAnswer()))
      ensures old(task.status) == Submitted && err.Some?
              && (runner.AsyncRunner? ==> stateManager.store.reliable && task.id in Memory().tasks) ==>
                err.value.TaskError?
      ensures old(clock.time) <= clock.time
    {
      var now := clock.Now();
      var ctx := new ExecutionContext(task, now);
      if runner.AsyncRunner? {
        err := ExecuteAsync(runner.async, ctx);
      } else {
        err := ExecuteSync(runner.sync, ctx);
      }
    }

    // The attempt has ended, at a reading of the clock since `began`.
    ghost predicate AttemptEnded(ctx: ExecutionContext, began: nat)
      reads ctx, clock
    {
      ctx.endTime.Some? && began <= ctx.endTime.value <= clock.time
    }

    // The failure branch of both protocols: the task is failed if its status allows it, with a result.
    method Fail(ctx: ExecutionContext, err: Error)
      requires Valid()
      modifies clock, stateManager.store`updates
      modifies ctx, ctx.task, Memory().RecordOf(ctx.task.id)`status, Memory().RecordOf(ctx.task.id)`result
      ensures ctx.error == Some(err) && AttemptEnded(ctx, old(clock.time))
      ensures ctx.task.result == KeepOrFallback(old(ctx.task.result), err) && ctx.task.result != ""
      ensures old(ctx.task.result) == "" ==> Explains(ctx.task.result, err)
      ensures ctx.task.status == if CanTransition(old(ctx.task.status), Failed) then Failed else old(ctx.task.status)
      ensures StoreAgrees(ctx.task) && old(clock.time) <= clock.time
      ensures stateManager.store.updates == old(stateManager.store.updates) + 1
    {
      var failedAt := clock.Now();
      ctx.SetError(err, failedAt);
      resultHandler.HandleFailure(ctx);
      var transitionErr := stateManager.TransitionToFailed(ctx);
    }

    // The branch of a failing runner in executeAsync. It asks for the failed state twice: the second request
    // is refused and changes neither status nor result.
    method FailEnqueue(ctx: ExecutionContext, err: Error)
      requires Valid() && err.TaskError? && CanTransition(ctx.task.status, Failed)
      modifies clock, stateManager.store`updates
      modifies ctx, ctx.task, Memory().RecordOf(ctx.task.id)`status, Memory().RecordOf(ctx.task.id)`result
      ensures ctx.task.status == Failed && ctx.task.result == Text(err) && ctx.task.result != ""
      ensures Shows(ctx.task.result, err)
      ensures ctx.error == Some(err) && AttemptEnded(ctx, old(clock.time))
      ensures StoreAgrees(ctx.task) && old(clock.time) <= clock.time
      ensures stateManager.store.updates == old(stateManager.store.updates) + 2
    {
      EmptyTextIffBlankPlain(err);
      TextShows(err);
      hide Text, Fallback;
      var failedAt := clock.Now();
      ctx.SetError(err, failedAt);
      ctx.task.result := Text(err);
      resultHandler.HandleFailure(ctx);
      var first := stateManager.TransitionToFailed(ctx);
      assert ctx.task.status == Failed;
      var transitionErr := stateManager.TransitionToFailed(ctx);
    }

    // The task is final; done exactly when nil is returned; a failed one explains itself; and from an empty
    // result it has the synchronous verdict.
    ghost predicate SyncFinished(task: Task, result: string, err: Option<Error>, ran: Option<Outcome>)
      reads task
    {
      && task.status.IsFinal() && (err.None? <==> task.status == Done)
      && (task.status == Failed ==> task.result != "")
      && err == SyncError(task.taskType, ran)
      && (result == "" || ran.Some? ==>
            && Verdict(task.status, task.result) == SyncVerdict(task.taskType, ran)
            && SyncPromise(task.taskType, ran, Verdict(task.status, task.result), err))
    }

    // The second half of executeSync, for a task that is now running.
    method RunNow(sync: SynchronousRunner, ctx: ExecutionContext) returns (err: Option<Error>)
      requires Valid() && ctx.task.status == Running
      modifies clock, stateManager.store`updates
      modifies ctx, ctx.task, Memory().RecordOf(ctx.task.id)`status, Memory().RecordOf(ctx.task.id)`result
      ensures SyncFinished(ctx.task, old(ctx.task.result), err,
                           sync.registry.OutcomeFor(ctx.task.taskType, ctx.task.payload))
      ensures StoreAgrees(ctx.task) && old(clock.time) <= clock.time
      ensures stateManager.store.updates == old(stateManager.store.updates) + 1
      ensures ctx.error == (if err.Some? then err else old(ctx.error)) && AttemptEnded(ctx, old(clock.time))
    {
      RunningCanFinish();
      hide CanTransition, Text, Fallback, Classify, NoHandlerText, SyncPromise, Keeps, NamesMissing, Explains;
      ghost var ran := sync.registry.OutcomeFor(ctx.task.taskType, ctx.task.payload);
      err := sync.Run(ctx);
      if err.Some? {
        Fail(ctx, err.value);
      } else {
        resultHandler.HandleSuccess(ctx);
        var transitionErr := stateManager.TransitionToCompleted(ctx);
      }
      SyncPromiseIff(ctx.task.taskType, ran, Verdict(ctx.task.status, ctx.task.result), err);
    }

    // From any status the protocol leaves the task final whenever the transition to running was allowed, and
    // refuses it otherwise. Store outages change neither the task nor the answer.
    method ExecuteSync(sync: SynchronousRunner, ctx: ExecutionContext) returns (err: Option<Error>)
      requires Valid()
      modifies clock, stateManager.store`updates
      modifies ctx, ctx.task, Memory().RecordOf(ctx.task.id)`status, Memory().RecordOf(ctx.task.id)`result
      ensures !CanTransition(old(ctx.task.status), Running) ==>
                err.Some? && ctx.task.status == old(ctx.task.status) && ctx.task.result == old(ctx.task.result)
      ensures CanTransition(old(ctx.task.status), Running) ==>
                && SyncFinished(ctx.task, old(ctx.task.result), err,
                                sync.registry.OutcomeFor(ctx.task.taskType, ctx.task.payload))
                && StoreAgrees(ctx.task)
      ensures old(clock.time) <= clock.time
      ensures stateManager.store.updates ==
                old(stateManager.store.updates) + if CanTransition(old(ctx.task.status), Running) then 2 else 0
      ensures CanTransition(old(ctx.task.status), Running) ==>
                ctx.error == (if err.Some? then err else old(ctx.error)) && AttemptEnded(ctx, old(clock.time))
    {
      hide CanTransition, SyncFinished, StoreAgrees;
      err := stateManager.TransitionToRunning(ctx);
      if err.None? {
        err := RunNow(sync, ctx);
      }
    }

    // All or nothing, under any pattern of store outages and queue faults: nil exactly when the queue has
    // grown by this one task; otherwise the queue is as it was, and the task is failed (unless it was already
    // final or unknown) with a result. Enqueue is never called twice, and is called whenever it can be. A task
    // that could be queued returns what a missing handler or the queue's own answer decides.
    method ExecuteAsync(async: AsynchronousRunner, ctx: ExecutionContext) returns (err: Option<Error>)
      requires Valid() && ctx.error.None?
      modifies clock, stateManager.store`updates, ctx, ctx.task, async.queue
      modifies Memory().RecordOf(ctx.task.id)`status, Memory().RecordOf(ctx.task.id)`result
      ensures err.None? ==> PushedOnce(async.queue, old(async.queue.list), ctx.task)
      ensures err.Some? ==>
                && async.queue.list == old(async.queue.list)
                && ctx.task.result != "" && StoreAgrees(ctx.task)
                && ctx.task.status == (if old(ctx.task.status).IsFinal() || old(ctx.task.status).Other?
                                       then old(ctx.task.status) else Failed)
      ensures old(async.queue.enqueueCalls) <= async.queue.enqueueCalls <= old(async.queue.enqueueCalls) + 1
      ensures (old(ctx.task.status) == Submitted && stateManager.store.reliable && ctx.task.id in Memory().tasks
               && ctx.task.taskType in async.registry.handlers) ==>
                async.queue.enqueueCalls == old(async.queue.enqueueCalls) + 1
      ensures old(ctx.task.status) != Submitted ==> err.Some?
      ensures ctx.task.taskType !in async.registry.handlers ==> err.Some?
      ensures (old(ctx.task.status) == Submitted && stateManager.store.reliable && ctx.task.id in Memory().tasks) ==>
                && (err.Some? ==> err.value.TaskError?)
                && err == AsyncError(ctx.task.taskType, ctx.task.taskType in async.registry.handlers,
                                     old(async.queue.NextAnswer()))
                && AsyncPromise(ctx.task.taskType, ctx.task.taskType in async.registry.handlers,
                                old(async.queue.NextAnswer()), err)
                && (err.Some? ==> Shows(ctx.task.result, err.value))
      ensures old(clock.time) <= clock.time
      ensures err.None? ==> stateManager.store.updates == old(stateManager.store.updates) + 1
      ensures err.Some? ==> 0 < stateManager.store.updates - old(stateManager.store.updates) <= 3
      ensures err.Some? && stateManager.store.reliable
              && old(ctx.task.status) == Submitted && ctx.task.id in Memory().tasks ==>
                stateManager.store.updates == old(stateManager.store.updates) + 3
    {
      hide CanTransition, Text, NoHandlerText, Classify;
      err := MarkQueued(ctx);
      if err.None? {
        err := HandOver(async, ctx);
      }
    }

    // The first half of executeAsync: the task is queued, or it is failed and the refusal returned.
    method MarkQueued(ctx: ExecutionContext) returns (err: Option<Error>)
      requires Valid() && ctx.error.None?
      modifies clock, stateManager.store`updates
      modifies ctx, ctx.task, Memory().RecordOf(ctx.task.id)`status, Memory().RecordOf(ctx.task.id)`result
      ensures err.None? ==> old(ctx.task.status) == Submitted && ctx.task.status == Queued && ctx.error.None?
      ensures err.Some? ==>
                && ctx.task.result != "" && StoreAgrees(ctx.task)
                && ctx.task.status == (if old(ctx.task.status).IsFinal() || old(ctx.task.status).Other?
                                       then old(ctx.task.status) else Failed)
                && ctx.error == err && (old(ctx.task.result) == "" ==> Explains(ctx.task.result, err.value))
      ensures old(ctx.task.status) == Submitted && stateManager.store.reliable && ctx.task.id in Memory().tasks ==>
                err.None?
      ensures old(clock.time) <= clock.time
      ensures stateManager.store.updates ==
                old(stateManager.store.updates)
                + if err.Some? && CanTransition(old(ctx.task.status), Queued) then 2 else 1
    {
      hide Text, KeepOrFallback;
      err := stateManager.TransitionToQueued(ctx);
      if err.Some? {
        Fail(ctx, err.value);
      }
    }

    // The second half of executeAsync, for a task that is now queued.
    method HandOver(async: AsynchronousRunner, ctx: ExecutionContext) returns (err: Option<Error>)
      requires Valid() && ctx.error.None? && ctx.task.status == Queued
      modifies clock, stateManager.store`updates, ctx, ctx.task, async.queue
      modifies Memory().RecordOf(ctx.task.id)`status, Memory().RecordOf(ctx.task.id)`result
      ensures err.None? ==> PushedOnce(async.queue, old(async.queue.list), ctx.task)
      ensures err.Some? ==>
                async.queue.list == old(async.queue.list) && ctx.task.status == Failed && ctx.task.result != ""
      ensures err.Some? ==> err.value.TaskError? && StoreAgrees(ctx.task)
      ensures err == AsyncError(ctx.task.taskType, ctx.task.taskType in async.registry.handlers,
                                old(async.queue.NextAnswer()))
      ensures AsyncPromise(ctx.task.taskType, ctx.task.taskType in async.registry.handlers,
                           old(async.queue.NextAnswer()), err)
      ensures err.Some? ==> Shows(ctx.task.result, err.value)
      ensures async.queue.enqueueCalls == old(async.queue.enqueueCalls)
                                          + if ctx.task.taskType in async.registry.handlers then 1 else 0
      ensures old(clock.time) <= clock.time
      ensures stateManager.store.updates == old(stateManager.store.updates) + if err.Some? then 2 else 0
    {
      hide Text, NoHandlerText;
      err := async.Run(ctx);
      if err.Some? {
        FailEnqueue(ctx, err.value);
      }
    }
  }
}
