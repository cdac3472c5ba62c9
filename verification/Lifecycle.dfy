// The rules on task values that the objects and the concurrent model share.
module Lifecycle {
  import opened Wrappers
  import opened Errors
  import opened Tasks

  // What handler.Run leaves in task.Result, and the error it returns.
  datatype Outcome = Outcome(result: string, err: Option<Error>)

  // The status and result a finished task ends with.
  datatype Verdict = Verdict(status: TaskStatus, result: string)

  // The timestamp that TransitionTo<target> writes.
  function Stamped(task: TaskRecord, target: TaskStatus, now: nat): TaskRecord {
    match target
    case Queued => task.(queuedAt := Some(now))
    case Running => task.(startedAt := Some(now))
    case _ => task.(completedAt := Some(now))
  }

  // The failure result of executeSync: a result set by the handler stays, otherwise the fallback text.
  function KeepOrFallback(result: string, err: Error): string {
    if result == "" then Fallback(err) else result
  }

  // executeSync, started on a fresh task: `ran` is the handler's outcome, None when no handler is registered.
  function SyncVerdict(taskType: string, ran: Option<Outcome>): Verdict {
    match ran
    case None => Verdict(Failed, Fallback(NewNotFoundError(NoHandlerText(taskType))))
    case Some(Outcome(result, None)) => Verdict(Done, result)
    case Some(Outcome(result, Some(err))) =>
      Verdict(Failed, KeepOrFallback(result, Classify(err, "task execution failed")))
  }

  // What a synchronous execution returns to its caller: the handler's own error when it is structured.
  function SyncError(taskType: string, ran: Option<Outcome>): Option<Error> {
    match ran
    case None => Some(NewNotFoundError(NoHandlerText(taskType)))
    case Some(Outcome(_, None)) => None
    case Some(Outcome(_, Some(err))) => Some(Classify(err, "task execution failed"))
  }

  // What an asynchronous submission returns to its caller; `fault` is the answer of its Enqueue.
  function AsyncError(taskType: string, registered: bool, fault: Option<Error>): Option<Error> {
    if !registered then Some(NewNotFoundError(NoHandlerText(taskType)))
    else if fault.None? then None
    else Some(Classify(fault.value, "failed to enqueue task"))
  }

  // A worker, given a fresh task whose handler ran with this outcome.
  function WorkerVerdict(ran: Outcome): Verdict {
    match ran.err
    case None => Verdict(Done, ran.result)
    case Some(err) => Verdict(Failed, Text(err))
  }

  // The two execution paths agree on the status always, and on the result of every task that is done.
  lemma WorkerAgreesWithSync(taskType: string, ran: Outcome)
    ensures WorkerVerdict(ran).status == SyncVerdict(taskType, Some(ran)).status
    ensures WorkerVerdict(ran).status == Done ==> WorkerVerdict(ran) == SyncVerdict(taskType, Some(ran))
  {
  }

  // A failed synchronous task always explains itself; a failed asynchronous one does
  // unless its handler returned a plain error with no text.
  lemma FailedResultIsEmptyIff(taskType: string, ran: Outcome)
    requires ran.err.Some?
    ensures SyncVerdict(taskType, Some(ran)).result != ""
    ensures SyncVerdict(taskType, None).result != ""
    ensures WorkerVerdict(ran).result == "" <==> ran.err == Some(Plain(""))
  {
    EmptyTextIffBlankPlain(ran.err.value);
    FallbackIsNeverEmpty(Classify(ran.err.value, "task execution failed"));
    FallbackIsNeverEmpty(NewNotFoundError(NoHandlerText(taskType)));
  }

  // ----- the promises, said without the functions above -----

  // Synchronous execution: the handler's result and nil; or failed, with the handler's own error when it is
  // structured and an execution error otherwise, and the handler's own result when it left one.
  predicate SyncPromise(taskType: string, ran: Option<Outcome>, verdict: Verdict, err: Option<Error>) {
    match ran
    case None =>
      && err.Some? && NamesMissing(err.value, taskType)
      && verdict == Verdict(Failed, "task not_found: " + ("no handler registered for task type: " + taskType))
    case Some(Outcome(result, None)) => err.None? && verdict == Verdict(Done, result)
    case Some(Outcome(result, Some(cause))) =>
      && err.Some? && Keeps(err.value, cause, "task execution failed") && verdict.status == Failed
      && if result != "" then verdict.result == result else Explains(verdict.result, err.value)
  }

  // Asynchronous submission: nil exactly when a registered type was pushed.
  predicate AsyncPromise(taskType: string, registered: bool, fault: Option<Error>, err: Option<Error>) {
    && (err.None? <==> registered && fault.None?)
    && (!registered ==> err.Some? && NamesMissing(err.value, taskType))
    && (registered && fault.Some? ==> err.Some? && Keeps(err.value, fault.value, "failed to enqueue task"))
  }

  // A worker: the handler's result, or the text of the error it returned.
  predicate WorkerPromise(ran: Outcome, verdict: Verdict) {
    match ran.err
    case None => verdict == Verdict(Done, ran.result)
    case Some(err) => verdict.status == Failed && Shows(verdict.result, err)
  }

  // Each promise is met, by exactly one verdict and answer.
  lemma SyncPromiseIff(taskType: string, ran: Option<Outcome>, verdict: Verdict, err: Option<Error>)
    ensures SyncPromise(taskType, ran, verdict, err) <==>
            verdict == SyncVerdict(taskType, ran) && err == SyncError(taskType, ran)
  {
    if ran.None? {
      NoHandlerNamesMissing(taskType);
      FallbackExplains(NewNotFoundError(NoHandlerText(taskType)));
      hide Fallback;
    } else if ran.value.err.Some? {
      ClassifyKeeps(ran.value.err.value, "task execution failed");
      FallbackExplains(Classify(ran.value.err.value, "task execution failed"));
      hide Fallback;
    }
  }

  lemma AsyncPromiseIff(taskType: string, registered: bool, fault: Option<Error>, err: Option<Error>)
    ensures AsyncPromise(taskType, registered, fault, err) <==> err == AsyncError(taskType, registered, fault)
  {
    NoHandlerNamesMissing(taskType);
    if fault.Some? {
      ClassifyKeeps(fault.value, "failed to enqueue task");
    }
  }

  lemma WorkerPromiseIff(ran: Outcome, verdict: Verdict)
    ensures WorkerPromise(ran, verdict) <==> verdict == WorkerVerdict(ran)
  {
    if ran.err.Some? {
      TextShows(ran.err.value);
    }
  }
}
