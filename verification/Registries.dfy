// tasks/registry/registry.go and the handler interface.
module Registries {
  import opened Wrappers
  import opened Errors
  import opened Tasks
  import opened Lifecycle

  // A handler, by what its Run does with a task's type and payload. Its frame is task.Result.
  datatype TaskHandler = TaskHandler(run: (string, string) -> Outcome) {
    method Run(task: Task) returns (err: Option<Error>)
      modifies task`result
      ensures Outcome(task.result, err) == run(task.taskType, task.payload)
    {
      var outcome := run(task.taskType, task.payload);
      task.result := outcome.result;
      err := outcome.err;
    }
  }

  class HandlerRegistry {
    var handlers: map<string, TaskHandler>

    constructor ()
      ensures handlers == map[]
    {
      handlers := map[];
    }

    // The map only grows: no type is ever unregistered.
    method Register(taskType: string, handler: TaskHandler)
      modifies this
      ensures handlers == old(handlers)[taskType := handler]
      ensures handlers.Keys == old(handlers).Keys + {taskType}
    {
      handlers := handlers[taskType := handler];
    }

    function Get(taskType: string): (handler: Option<TaskHandler>)
      reads this
      ensures handler.Some? <==> taskType in handlers
      ensures handler.Some? ==> handler.value == handlers[taskType]
    {
      if taskType in handlers then Some(handlers[taskType]) else None
    }

    // Every registered type once, in no particular order.
    method GetRegisteredTypes() returns (types: seq<string>)
      ensures multiset(types) == multiset(handlers.Keys)
    {
      types := [];
      var left := handlers.Keys;
      while left != {}
        invariant left <= handlers.Keys
        invariant multiset(types) + multiset(left) == multiset(handlers.Keys)
        decreases left
      {
        var taskType :| taskType in left;
        types := types + [taskType];
        left := left - {taskType};
      }
    }

    // What running a task's handler would give, None when its type has no handler.
    ghost function OutcomeFor(taskType: string, payload: string): Option<Outcome>
      reads this
    {
      if taskType in handlers then Some(handlers[taskType].run(taskType, payload)) else None
    }
  }
}
