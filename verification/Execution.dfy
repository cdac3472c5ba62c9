// tasks/orchestrator/execution: the state manager and the result handler.
module Execution {
  import opened Wrappers
  import opened Errors
  import opened Tasks
  import opened Clocks
  import opened Contexts
  import opened Stores

  // The stored record, as an attempt to write these values may leave it: a record that is the task itself
  // has the task's fields; another one was written, or kept in an outage.
  twostate predicate Persisted(store: TaskStore, task: Task, status: TaskStatus, result: string)
    requires old(task.id in store.memory.tasks) && old(store.memory.tasks) == store.memory.tasks
    reads store.memory, store.memory.RecordOf(task.id), task
  {
    var record := store.memory.tasks[task.id];
    record != task ==>
      || record.View() == old(record.View()).(status := status, result := result)
      || (!store.reliable && record.View() == old(record.View()))
  }

  class StateManager {
    const store: TaskStore
    const clock: Clock

    constructor (store: TaskStore, clock: Clock)
      ensures this.store == store && this.clock == clock
    {
      this.store, this.clock := store, clock;
    }

    // An error means either that the transition was refused, and the task is as it was, or that the store
    // did not take it, and the task is queued all the same.
    method TransitionToQueued(ctx: ExecutionContext) returns (err: Option<Error>)
      modifies clock, store`updates
      modifies ctx.task, store.memory.RecordOf(ctx.task.id)`status, store.memory.RecordOf(ctx.task.id)`result
      ensures !CanTransition(old(ctx.task.status), Queued) ==>
                && err.Some? && ctx.task.View() == old(ctx.task.View())
                && (ctx.task.id in store.memory.tasks ==>
                      store.memory.tasks[ctx.task.id].View() == old(store.memory.tasks[ctx.task.id].View()))
      ensures CanTransition(old(ctx.task.status), Queued) ==>
                && (err.None? ==> ctx.task.id in store.memory.tasks)
                && (store.reliable && ctx.task.id in store.memory.tasks ==> err.None?)
                && ctx.task.View() == old(ctx.task.View()).(
                                        status := Queued,
                                        result := if err.None? && store.memory.Holds(ctx.task) then ""
                                                  else old(ctx.task.result),
                                        queuedAt := Some(clock.time))
                && (err.None? ==> store.memory.tasks[ctx.task.id].status == Queued
                                  && store.memory.tasks[ctx.task.id].result == "")
      ensures store.updates == old(store.updates) + if CanTransition(old(ctx.task.status), Queued) then 1 else 0
      ensures old(clock.time) <= clock.time
    {
      err := ctx.task.SetStatus(Queued);
      if err.Some? {
        return;
      }
      var now := clock.Now();
      ctx.task.queuedAt := Some(now);
      err := store.Update(ctx.task.id, ctx.task.status, "");
    }

    // StartedAt is written even when the transition is refused; a store failure is not an error.
    method TransitionToRunning(ctx: ExecutionContext) returns (err: Option<Error>)
      modifies clock, store`updates
      modifies ctx.task, store.memory.RecordOf(ctx.task.id)`status, store.memory.RecordOf(ctx.task.id)`result
      ensures err.None? <==> CanTransition(old(ctx.task.status), Running)
      ensures ctx.task.View() == old(ctx.task.View()).(
                                   status := if err.None? then Running else old(ctx.task.status),
                                   startedAt := Some(clock.time))
      ensures ctx.task.id in store.memory.tasks && err.None? ==>
                Persisted(store, ctx.task, Running, ctx.task.result)
      ensures ctx.task.id in store.memory.tasks && err.Some? && store.memory.tasks[ctx.task.id] != ctx.task ==>
                store.memory.tasks[ctx.task.id].View() == old(store.memory.tasks[ctx.task.id].View())
      ensures store.updates == old(store.updates) + if err.None? then 1 else 0
      ensures old(clock.time) <= clock.time
    {
      var now := clock.Now();
      ctx.task.startedAt := Some(now);
      err := ctx.task.SetStatus(Running);
      if err.Some? {
        return;
      }
      var ignored := store.Update(ctx.task.id, ctx.task.status, ctx.task.result);
    }

    // Never returns an error. A refused transition is ignored and the current status is persisted; a failing
    // Update reads ctx.error, which must then be present.
    method TransitionToFailed(ctx: ExecutionContext) returns (err: Option<Error>)
      requires ctx.error.Some? || (store.reliable && ctx.task.id in store.memory.tasks)
      modifies clock, store`updates
      modifies ctx.task, store.memory.RecordOf(ctx.task.id)`status, store.memory.RecordOf(ctx.task.id)`result
      ensures err.None?
      ensures ctx.task.View() == old(ctx.task.View()).(
                                   status := if CanTransition(old(ctx.task.status), Failed) then Failed
                                             else old(ctx.task.status),
                                   completedAt := Some(clock.time))
      ensures ctx.task.id in store.memory.tasks ==> Persisted(store, ctx.task, ctx.task.status, ctx.task.result)
      ensures store.updates == old(store.updates) + 1
      ensures old(clock.time) <= clock.time
    {
      var now := clock.Now();
      ctx.task.completedAt := Some(now);
      var ignored := ctx.task.SetStatus(Failed);
      var updateErr := store.Update(ctx.task.id, ctx.task.status, ctx.task.result);
      if updateErr.Some? {
        var originalError := Text(ctx.error.value);
      }
      return None;
    }

    method TransitionToCompleted(ctx: ExecutionContext) returns (err: Option<Error>)
      modifies clock, store`updates
      modifies ctx.task, store.memory.RecordOf(ctx.task.id)`status, store.memory.RecordOf(ctx.task.id)`result
      ensures err.None? <==> CanTransition(old(ctx.task.status), Done)
      ensures ctx.task.View() == old(ctx.task.View()).(
                                   status := if err.None? then Done else old(ctx.task.status),
                                   completedAt := Some(clock.time))
      ensures ctx.task.id in store.memory.tasks && err.None? ==>
                Persisted(store, ctx.task, Done, ctx.task.result)
      ensures ctx.task.id in store.memory.tasks && err.Some? && store.memory.tasks[ctx.task.id] != ctx.task ==>
                store.memory.tasks[ctx.task.id].View() == old(store.memory.tasks[ctx.task.id].View())
      ensures store.updates == old(store.updates) + if err.None? then 1 else 0
      ensures old(clock.time) <= clock.time
    {
      var now := clock.Now();
      ctx.task.completedAt := Some(now);
      err := ctx.task.SetStatus(Done);
      if err.Some? {
        return;
      }
      var ignored := store.Update(ctx.task.id, ctx.task.status, ctx.task.result);
    }
  }

  class ResultHandler {
    const clock: Clock

    constructor (clock: Clock)
      ensures this.clock == clock
    {
      this.clock := clock;
    }

    method HandleSuccess(ctx: ExecutionContext)
      modifies clock, ctx
      ensures ctx.error == old(ctx.error) && ctx.startTime == old(ctx.startTime)
      ensures ctx.endTime == Some(clock.time) && old(clock.time) <= clock.time
    {
      var now := clock.Now();
      ctx.SetSuccess(now);
    }

    // A result the handler has set stays; an empty one becomes the fallback text, never empty.
    // The error is read only when the result is empty.
    method HandleFailure(ctx: ExecutionContext)
      requires ctx.task.result == "" ==> ctx.error.Some?
      modifies ctx.task`result
      ensures ctx.task.result != ""
      ensures ctx.task.result == if old(ctx.task.result) == "" then Fallback(ctx.error.value) else old(ctx.task.result)
      ensures old(ctx.task.result) == "" ==> Explains(ctx.task.result, ctx.error.value)
    {
      if ctx.task.result == "" {
        FallbackIsNeverEmpty(ctx.error.value);
        FallbackExplains(ctx.error.value);
        ctx.task.result := Fallback(ctx.error.value);
      }
    }
  }
}
