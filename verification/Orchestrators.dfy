// tasks/orchestrator/orchestrator.go: submission, and the client's view of the store.
module Orchestrators {
  import opened Wrappers
  import opened Errors
  import opened Tasks
  import opened Clocks
  import opened Stores
  import opened Execution
  import opened Runners
  import opened Workflows

  class Orchestrator {
    const store: TaskStore
    const workflow: Workflow
    const clock: Clock

    // NewDefaultOrchestrator
    constructor (store: TaskStore, runner: Runner, clock: Clock)
      ensures Valid() && this.store == store && workflow.runner == runner && this.clock == clock
    {
      var stateManager := new StateManager(store, clock);
      var resultHandler := new ResultHandler(clock);
      this.store, this.clock := store, clock;
      this.workflow := new Workflow(runner, stateManager, resultHandler, clock);
    }

    ghost predicate Valid() {
      workflow.Valid() && workflow.stateManager.store == store && workflow.clock == clock
    }

    // The frame says that no record already stored is touched, not even when the generated ID collides with
    // one: then, and whenever Save fails, nothing is enqueued and the caller gets the internal error.
    // A saved task is stored as the returned object itself, under its own ID.
    method SubmitTask(id: string, taskType: string, payload: string) returns (task: Task, err: Option<Error>)
      requires Valid()
      modifies clock, store`updates, store.memory, workflow.runner.Frame()
      ensures fresh(task) && task.id == id && task.taskType == taskType && task.payload == payload
      ensures old(clock.time) <= task.submittedAt <= clock.time
      ensures old(store.memory.Valid()) ==> store.memory.Valid()
      ensures store.memory.tasks == if store.memory.Holds(task) then old(store.memory.tasks)[id := task]
                                    else old(store.memory.tasks)
      ensures id in old(store.memory.tasks) ==> !store.memory.Holds(task)
      ensures store.reliable && id !in old(store.memory.tasks) ==> store.memory.Holds(task)
      ensures !store.memory.Holds(task) ==>
                && err == Some(TaskError(InternalError, "failed to save task", 500))
                && workflow.Waiting() == old(workflow.Waiting())
                && task.status == Submitted && task.result == ""
      ensures store.memory.Holds(task) ==>
                workflow.Executed(task, err, old(workflow.Waiting()), old(workflow.NextAnswer()))
      ensures store.reliable && err.Some? ==> err.value.TaskError?
    {
      hide Workflow.Executed, CanTransition;
      var now := clock.Now();
      task := new Task(id, taskType, payload, now);
      err := store.Save(task);
      if err.Some? {
        return task, Some(NewInternalError("failed to save task"));
      }
      err := workflow.Execute(task);
    }

    // GetTask: a copy, or the not-found error, which also answers for a store that fails on a stored ID.
    method GetTask(id: string) returns (task: Task?, err: Option<Error>)
      requires Valid()
      ensures id !in store.memory.tasks ==> err.Some?
      ensures store.reliable && id in store.memory.tasks ==> err.None?
      ensures err.None? ==> task != null && fresh(task) && task.View() == store.memory.tasks[id].View()
      ensures err.Some? ==> task == null && err.value == TaskError(NotFoundError, "task " + id + " not found", 404)
    {
      task, err := store.Get(id);
      if err.Some? {
        return null, Some(NewNotFoundError("task " + id + " not found"));
      }
    }

    method GetTaskStatus(id: string) returns (status: string, err: Option<Error>)
      requires Valid()
      ensures id !in store.memory.tasks ==> err.Some?
      ensures store.reliable && id in store.memory.tasks ==> err.None?
      ensures err.None? ==> NamedBy(store.memory.tasks[id].status, status)
      ensures err.Some? ==> status == "" && err.value == TaskError(NotFoundError, "task " + id + " not found", 404)
    {
      var task: Task?;
      task, err := GetTask(id);
      if err.Some? {
        return "", err;
      }
      status := task.status.Name();
    }
  }
}
