// tasks/context/context.go: the record of one execution attempt.
module Contexts {
  import opened Wrappers
  import opened Errors
  import opened Tasks

  class ExecutionContext {
    const task: Task
    var error: Option<Error>
    var startTime: nat
    var endTime: Option<nat>

    constructor (task: Task, now: nat)
      ensures this.task == task && error == None && startTime == now && endTime == None
    {
      this.task, error, startTime, endTime := task, None, now, None;
    }

    method SetError(err: Error, now: nat)
      modifies this
      ensures error == Some(err) && endTime == Some(now) && startTime == old(startTime)
    {
      error, endTime := Some(err), Some(now);
    }

    method SetSuccess(now: nat)
      modifies this
      ensures error == old(error) && endTime == Some(now) && startTime == old(startTime)
    {
      endTime := Some(now);
    }
  }
}
