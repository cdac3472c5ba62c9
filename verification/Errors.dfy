// errors/errors.go: structured task errors, and the plain errors of every other package.
module Errors {

  datatype TaskErrorType = ValidationError | ExecutionError | NotFoundError | InternalError

  // `TaskError` is *TaskError without its details map; `Plain` is any other error, known by its text.
  datatype Error =
    | TaskError(kind: TaskErrorType, message: string, code: int)
    | Plain(text: string)

  function TypeName(kind: TaskErrorType): string {
    match kind
    case ValidationError => "validation"
    case ExecutionError => "execution"
    case NotFoundError => "not_found"
    case InternalError => "internal"
  }

  // err.Error()
  function Text(err: Error): string {
    match err
    case TaskError(kind, message, _) => "[" + TypeName(kind) + "] " + message
    case Plain(text) => text
  }

  function NewExecutionError(message: string): Error { TaskError(ExecutionError, message, 422) }
  function NewNotFoundError(message: string): Error { TaskError(NotFoundError, message, 404) }
  function NewInternalError(message: string): Error { TaskError(InternalError, message, 500) }

  // Runners keep a structured error and wrap any other one.
  function Classify(err: Error, message: string): Error {
    if err.TaskError? then err else NewExecutionError(message)
  }

  // The rule of DefaultResultHandler.HandleFailure for a task without a result.
  function Fallback(err: Error): string {
    match err
    case TaskError(kind, message, _) => "task " + TypeName(kind) + ": " + message
    case Plain(text) => "execution failed: " + text
  }

  function NoHandlerText(taskType: string): string { "no handler registered for task type: " + taskType }

  // An error has no text exactly when it is a plain error made from the empty string.
  lemma EmptyTextIffBlankPlain(err: Error)
    ensures Text(err) == "" <==> err == Plain("")
  {
    if err.TaskError? {
      assert Text(err)[0] == '[';
    }
  }

  lemma FallbackIsNeverEmpty(err: Error)
    ensures Fallback(err) != ""
  {
    if err.TaskError? {
      assert Fallback(err)[0] == 't';
    } else {
      assert Fallback(err)[0] == 'e';
    }
  }

  // ----- what a caller sees of an error -----

  // A text that lets a reader see the error: a plain one verbatim, a structured one as kind and message.
  predicate Shows(text: string, err: Error) {
    match err
    case Plain(own) => text == own
    case TaskError(ValidationError, message, _) => text == "[validation] " + message
    case TaskError(ExecutionError, message, _) => text == "[execution] " + message
    case TaskError(NotFoundError, message, _) => text == "[not_found] " + message
    case TaskError(InternalError, message, _) => text == "[internal] " + message
  }

  // A result that explains a failure whose handler left none.
  predicate Explains(result: string, err: Error) {
    match err
    case Plain(own) => result == "execution failed: " + own
    case TaskError(ValidationError, message, _) => result == "task validation: " + message
    case TaskError(ExecutionError, message, _) => result == "task execution: " + message
    case TaskError(NotFoundError, message, _) => result == "task not_found: " + message
    case TaskError(InternalError, message, _) => result == "task internal: " + message
  }

  // An answer that keeps a structured error as it is, and hides a plain one behind an execution error.
  predicate Keeps(answer: Error, err: Error, message: string) {
    && (err.TaskError? ==> answer == err)
    && (err.Plain? ==>
          answer.TaskError? && answer.kind == ExecutionError && answer.code == 422 && answer.message == message)
  }

  // The answer for a type without a handler.
  predicate NamesMissing(answer: Error, taskType: string) {
    && answer.TaskError? && answer.kind == NotFoundError && answer.code == 404
    && answer.message == "no handler registered for task type: " + taskType
  }

  lemma TextShows(err: Error)
    ensures Shows(Text(err), err)
  {
    if err.TaskError? {
      assert "[validation] " == "[" + "validation" + "] " && "[execution] " == "[" + "execution" + "] ";
      assert "[not_found] " == "[" + "not_found" + "] " && "[internal] " == "[" + "internal" + "] ";
    }
  }

  lemma FallbackExplains(err: Error)
    ensures Explains(Fallback(err), err)
  {
    if err.TaskError? {
      assert "task validation: " == "task " + "validation" + ": " && "task execution: " == "task " + "execution" + ": ";
      assert "task not_found: " == "task " + "not_found" + ": " && "task internal: " == "task " + "internal" + ": ";
    }
  }

  lemma ClassifyKeeps(err: Error, message: string)
    ensures Keeps(Classify(err, message), err, message)
  {
  }

  lemma NoHandlerNamesMissing(taskType: string)
    ensures NamesMissing(NewNotFoundError(NoHandlerText(taskType)), taskType)
  {
  }

  // Nothing is lost in a text but the code: equal texts come from equal kinds and messages.
  lemma TextsTellErrorsApart(a: Error, b: Error)
    requires a.TaskError? && b.TaskError?
    ensures Text(a) == Text(b) <==> a.kind == b.kind && a.message == b.message
  {
    if Text(a) == Text(b) {
      assert Text(a)[1..] == TypeName(a.kind) + "] " + a.message && Text(b)[1..] == TypeName(b.kind) + "] " + b.message;
      assert Text(a)[1] == TypeName(a.kind)[0] && Text(b)[1] == TypeName(b.kind)[0];
      assert Text(a)[2] == TypeName(a.kind)[1] && Text(b)[2] == TypeName(b.kind)[1];
      assert a.kind == b.kind;
      var skip := 3 + |TypeName(a.kind)|;
      assert a.message == Text(a)[skip..] && b.message == Text(b)[skip..];
    }
  }
}
