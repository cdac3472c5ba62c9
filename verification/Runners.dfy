// tasks/runners: the two ways to run a prepared context.
module Runners {
  import opened Wrappers
  import opened Errors
  import opened Lifecycle
  import opened Contexts
  import opened Queues
  import opened Registries

  function NoHandler(taskType: string): Error { NewNotFoundError(NoHandlerText(taskType)) }

  class SynchronousRunner {
    const registry: HandlerRegistry

    constructor (registry: HandlerRegistry)
      ensures this.registry == registry
    {
      this.registry := registry;
    }

    // Every error is structured: the handler's own one is kept, a plain one is wrapped.
    method Run(ctx: ExecutionContext) returns (err: Option<Error>)
      modifies ctx.task`result
      ensures var ran := registry.OutcomeFor(ctx.task.taskType, ctx.task.payload);
              match ran
              case None =>
                && err == Some(NoHandler(ctx.task.taskType)) && NamesMissing(err.value, ctx.task.taskType)
                && ctx.task.result == old(ctx.task.result)
              case Some(Outcome(result, None)) => err.None? && ctx.task.result == result
              case Some(Outcome(result, Some(e))) =>
                && err == Some(Classify(e, "task execution failed")) && Keeps(err.value, e, "task execution failed")
                && ctx.task.result == result
    {
      var handler := registry.Get(ctx.task.taskType);
      if handler.None? {
        return Some(NoHandler(ctx.task.taskType));
      }
      err := handler.value.Run(ctx.task);
      if err.Some? {
        err := Some(Classify(err.value, "task execution failed"));
      }
    }
  }

  class AsynchronousRunner {
    const queue: RedisTaskQueue
    const registry: HandlerRegistry

    constructor (queue: RedisTaskQueue, registry: HandlerRegistry)
      ensures this.queue == queue && this.registry == registry
    {
      this.queue, this.registry := queue, registry;
    }

    // Nil exactly when the context was pushed; nothing is pushed for a type without a handler.
    method Run(ctx: ExecutionContext) returns (err: Option<Error>)
      modifies queue
      ensures queue.list == if err.None? then [Encoded(ctx)] + old(queue.list) else old(queue.list)
      ensures err == AsyncError(ctx.task.taskType, ctx.task.taskType in registry.handlers, old(queue.NextAnswer()))
      ensures AsyncPromise(ctx.task.taskType, ctx.task.taskType in registry.handlers, old(queue.NextAnswer()), err)
      ensures queue.enqueueCalls == old(queue.enqueueCalls) + if ctx.task.taskType in registry.handlers then 1 else 0
      ensures err.Some? ==> err.value.TaskError?
    {
      var handler := registry.Get(ctx.task.taskType);
      if handler.None? {
        return Some(NoHandler(ctx.task.taskType));
      }
      err := queue.Enqueue(ctx);
      if err.Some? {
        err := Some(Classify(err.value, "failed to enqueue task"));
      }
    }
  }

  // The Runner interface, by its two implementations.
  datatype Runner = SyncRunner(sync: SynchronousRunner) | AsyncRunner(async: AsynchronousRunner) {
    ghost function Registry(): HandlerRegistry {
      if AsyncRunner? then async.registry else sync.registry
    }

    ghost function Frame(): set<object> {
      if AsyncRunner? then {async.queue} else {}
    }
  }
}
