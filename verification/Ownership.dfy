// The hand-off submitter -> queue -> worker -> settled, and what each holder knows of the stored record.
// Local facts relate one record to its holder's program counter; `Inv` puts them together.
module Ownership {
  import opened Wrappers
  import opened Errors
  import opened Tasks
  import opened Lifecycle
  import opened Pipeline

  // ----- local facts -----

  // Nothing has run and nothing was written but the status.
  predicate Untouched(r: TaskRecord, status: TaskStatus, cs: seq<Outcome>) {
    r.status == status && r.result == "" && cs == []
  }

  predicate RefusalError(r: TaskRecord, err: Error, pushFailed: bool) {
    err.TaskError? && (!pushFailed ==> err == NewNotFoundError(NoHandlerText(r.taskType)))
  }

  predicate Refusing(r: TaskRecord, u: Submitter, cs: seq<Outcome>) {
    && cs == [] && u.repeats <= 1
    && u.err.Some? && RefusalError(r, u.err.value, u.pushFailed) && r.result == Text(u.err.value)
  }

  // The record of an asynchronous submitter.
  predicate AsyncFacts(r: TaskRecord, u: Submitter, phase: Phase, cs: seq<Outcome>, registered: bool) {
    match phase
    case Mark(Queued) => Untouched(r, Submitted, cs) && u.err.None? && !u.pushFailed
    case Stamp(Queued) => Untouched(r, Queued, cs) && u.err.None? && !u.pushFailed
    case Persist(Queued, status, result) =>
      Untouched(r, Queued, cs) && u.err.None? && !u.pushFailed && status == Queued && result == ""
    case Lookup => Untouched(r, Queued, cs) && u.err.None? && !u.pushFailed
    case Push => Untouched(r, Queued, cs) && u.err.None? && !u.pushFailed && registered
    case Conclude(err, overwrite) =>
      Untouched(r, Queued, cs) && overwrite && u.repeats == 1 && RefusalError(r, err, u.pushFailed)
    case Stamp(Failed) => Refusing(r, u, cs) && r.status == if u.repeats == 1 then Queued else Failed
    case Mark(Failed) => Refusing(r, u, cs) && r.status == if u.repeats == 1 then Queued else Failed
    case Persist(Failed, status, result) =>
      Refusing(r, u, cs) && r.status == Failed && status == Failed && result == r.result
    case _ => false
  }

  function Last(cs: seq<Outcome>): Option<Outcome> {
    if cs == [] then None else Some(cs[|cs| - 1])
  }

  predicate Succeeded(r: TaskRecord, cs: seq<Outcome>) {
    |cs| == 1 && cs[0].err.None? && r.result == cs[0].result
  }

  predicate FailedInSync(r: TaskRecord, u: Submitter, cs: seq<Outcome>) {
    && |cs| <= 1 && u.repeats == 0 && u.err.Some? && u.err.value.TaskError?
    && SyncError(r.taskType, Last(cs)) == u.err
    && SyncVerdict(r.taskType, Last(cs)) == Verdict(Failed, r.result)
  }

  // The record of a synchronous submitter.
  predicate SyncFacts(r: TaskRecord, u: Submitter, phase: Phase, cs: seq<Outcome>, registered: bool) {
    match phase
    case Stamp(Running) => Untouched(r, Submitted, cs)
    case Mark(Running) => Untouched(r, Submitted, cs)
    case Persist(Running, status, result) => Untouched(r, Running, cs) && status == Running && result == ""
    case Lookup => Untouched(r, Running, cs)
    case Call => Untouched(r, Running, cs) && registered
    case Stamp(Done) => Succeeded(r, cs) && r.status == Running
    case Mark(Done) => Succeeded(r, cs) && r.status == Running
    case Persist(Done, status, result) =>
      Succeeded(r, cs) && r.status == Done && status == Done && result == r.result
    case Conclude(err, overwrite) =>
      && r.status == Running && !overwrite && u.repeats == 0 && |cs| <= 1 && err.TaskError?
      && SyncError(r.taskType, Last(cs)) == Some(err)
      && SyncVerdict(r.taskType, Last(cs)) == Verdict(Failed, KeepOrFallback(r.result, err))
    case Stamp(Failed) => FailedInSync(r, u, cs) && r.status == Running
    case Mark(Failed) => FailedInSync(r, u, cs) && r.status == Running
    case Persist(Failed, status, result) =>
      FailedInSync(r, u, cs) && r.status == Failed && status == Failed && result == r.result
    case _ => false
  }

  predicate SubmitterFacts(r: TaskRecord, u: Submitter, cs: seq<Outcome>, registered: bool)
    requires u.pc.Active?
  {
    if u.mode == Async then AsyncFacts(r, u, u.pc.phase, cs, registered)
    else !u.pushFailed && SyncFacts(r, u, u.pc.phase, cs, registered)
  }

  // A queued snapshot is the stored record itself, and carries no error.
  predicate QueuedFacts(ctx: QueuedContext, r: TaskRecord, cs: seq<Outcome>, registered: bool) {
    ctx.err.None? && ctx.task == r && Untouched(r, Queued, cs) && registered
  }

  predicate Decided(t: TaskRecord, target: TaskStatus, cs: seq<Outcome>) {
    |cs| == 1 && Verdict(target, t.result) == WorkerVerdict(cs[0])
  }

  // A worker's copy `t` against the stored record `r`.
  predicate WorkerFacts(t: TaskRecord, phase: Phase, r: TaskRecord, cs: seq<Outcome>, registered: bool) {
    && SameTask(t, r) && registered && r.result == ""
    && match phase
       case Stamp(Running) => Untouched(t, Queued, cs) && r.status == Queued
       case Mark(Running) => Untouched(t, Queued, cs) && r.status == Queued
       case Persist(Running, status, result) =>
         Untouched(t, Running, cs) && r.status == Queued && status == Running && result == ""
       case Lookup => Untouched(t, Running, cs) && r.status == Running
       case Call => Untouched(t, Running, cs) && r.status == Running
       case Conclude(err, _) => t.status == r.status == Running && |cs| == 1 && cs[0].err == Some(err)
       case Stamp(target) => Decided(t, target, cs) && t.status == r.status == Running
       case Mark(target) => Decided(t, target, cs) && t.status == r.status == Running
       case Persist(target, status, result) =>
         Decided(t, target, cs) && t.status == status == target && r.status == Running && result == t.result
       case Push => false
  }

  predicate SettledFacts(r: TaskRecord, route: Route, cs: seq<Outcome>) {
    match route
    case SyncRun => |cs| <= 1 && Verdict(r.status, r.result) == SyncVerdict(r.taskType, Last(cs))
    case AsyncRefused(pushFailed) =>
      && cs == [] && r.status == Failed && r.result != ""
      && (!pushFailed ==> r.result == Text(NewNotFoundError(NoHandlerText(r.taskType))))
    case AsyncRun => |cs| == 1 && Verdict(r.status, r.result) == WorkerVerdict(cs[0])
  }

  // What a returned SubmitTask told its caller: a structured error, or nil.
  predicate ReturnFacts(u: Submitter, r: TaskRecord)
    requires u.pc.Returned?
  {
    match u.pc.err
    case Some(err) => err.TaskError? && (r.status == Failed)
    case None => u.mode == Sync ==> r.status == Done
  }

  // ----- one step, locally -----

  // How a step may change a record's status and result.
  predicate RecordStep(r: TaskRecord, r': TaskRecord) {
    && SameTask(r, r')
    && (r.status == r'.status || CanTransition(r.status, r'.status))
    && (r.status.IsFinal() ==> r'.status == r.status && r'.result == r.result)
  }

  predicate AsyncStepGood(r: TaskRecord, u: Submitter, cs: seq<Outcome>, registered: bool, e: SubmitterEffect) {
    && RecordStep(r, e.task) && e.sub.id == u.id && e.sub.mode == Async && e.called.None?
    && (e.sub.pc.Active? ==> !e.pushed && AsyncFacts(e.task, e.sub, e.sub.pc.phase, cs, registered))
    && (e.sub.pc.Returned? ==> e.pushed == e.sub.pc.err.None?)
    && (e.pushed ==> QueuedFacts(QueuedContext(e.task, e.sub.err), e.task, cs, registered))
    && (e.sub.pc.Returned? && !e.pushed ==>
          SettledFacts(e.task, RouteOf(e.sub), cs) && ReturnFacts(e.sub, e.task))
  }

  lemma AsyncRunnerKeeps(r: TaskRecord, u: Submitter, cs: seq<Outcome>, registered: bool, x: Choice)
    requires u.pc.Active? && u.mode == Async && AsyncFacts(r, u, u.pc.phase, cs, registered)
    requires u.pc.phase.Conclude? || u.pc.phase.Lookup? || u.pc.phase.Push?
    ensures AsyncStepGood(r, u, cs, registered, SubmitterLocal(r, u, registered, x))
  {
    if u.pc.phase.Conclude? {
      EmptyTextIffBlankPlain(u.pc.phase.err);
    }
  }

  lemma AsyncTransitionKeeps(r: TaskRecord, u: Submitter, cs: seq<Outcome>, registered: bool, x: Choice)
    requires u.pc.Active? && u.mode == Async && AsyncFacts(r, u, u.pc.phase, cs, registered)
    requires u.pc.phase.Stamp? || u.pc.phase.Mark? || u.pc.phase.Persist?
    ensures AsyncStepGood(r, u, cs, registered, SubmitterLocal(r, u, registered, x))
  {
    if u.err.Some? {
      EmptyTextIffBlankPlain(u.err.value);
    }
  }

  lemma AsyncStepKeeps(r: TaskRecord, u: Submitter, cs: seq<Outcome>, registered: bool, x: Choice)
    requires u.pc.Active? && u.mode == Async && AsyncFacts(r, u, u.pc.phase, cs, registered)
    ensures AsyncStepGood(r, u, cs, registered, SubmitterLocal(r, u, registered, x))
  {
    if u.pc.phase.Conclude? || u.pc.phase.Lookup? || u.pc.phase.Push? {
      AsyncRunnerKeeps(r, u, cs, registered, x);
    } else {
      AsyncTransitionKeeps(r, u, cs, registered, x);
    }
  }

  predicate SyncStepGood(r: TaskRecord, u: Submitter, cs: seq<Outcome>, registered: bool, e: SubmitterEffect) {
    var cs' := WithCall(cs, e.called);
    && RecordStep(r, e.task) && e.sub.id == u.id && e.sub.mode == Sync && !e.pushed
    && (e.called.Some? ==> cs == [])
    && (e.sub.pc.Active? ==> SyncFacts(e.task, e.sub, e.sub.pc.phase, cs', registered))
    && e.sub.pushFailed == u.pushFailed
    && (e.sub.pc.Returned? ==>
          && SettledFacts(e.task, SyncRun, cs') && ReturnFacts(e.sub, e.task)
          && e.sub.pc.err == SyncError(e.task.taskType, Last(cs')))
  }

  lemma SyncRunnerKeeps(r: TaskRecord, u: Submitter, cs: seq<Outcome>, registered: bool, x: Choice)
    requires u.pc.Active? && u.mode == Sync && SyncFacts(r, u, u.pc.phase, cs, registered)
    requires u.pc.phase.Lookup? || u.pc.phase.Call? || u.pc.phase.Conclude?
    ensures SyncStepGood(r, u, cs, registered, SubmitterLocal(r, u, registered, x))
  {
    if u.pc.phase.Conclude? {
      FallbackIsNeverEmpty(u.pc.phase.err);
    }
  }

  lemma SyncFailureKeeps(r: TaskRecord, u: Submitter, cs: seq<Outcome>, registered: bool, x: Choice)
    requires u.pc.Active? && u.mode == Sync && SyncFacts(r, u, u.pc.phase, cs, registered)
    requires (u.pc.phase.Stamp? || u.pc.phase.Mark? || u.pc.phase.Persist?) && u.pc.phase.target == Failed
    ensures SyncStepGood(r, u, cs, registered, SubmitterLocal(r, u, registered, x))
  {
    hide SyncVerdict, SyncError, Text, Fallback;
  }

  lemma SyncTransitionKeeps(r: TaskRecord, u: Submitter, cs: seq<Outcome>, registered: bool, x: Choice)
    requires u.pc.Active? && u.mode == Sync && SyncFacts(r, u, u.pc.phase, cs, registered)
    requires u.pc.phase.Stamp? || u.pc.phase.Mark? || u.pc.phase.Persist?
    ensures SyncStepGood(r, u, cs, registered, SubmitterLocal(r, u, registered, x))
  {
    if u.pc.phase.target == Failed {
      SyncFailureKeeps(r, u, cs, registered, x);
    }
  }

  lemma SyncStepKeeps(r: TaskRecord, u: Submitter, cs: seq<Outcome>, registered: bool, x: Choice)
    requires u.pc.Active? && u.mode == Sync && SyncFacts(r, u, u.pc.phase, cs, registered)
    ensures SyncStepGood(r, u, cs, registered, SubmitterLocal(r, u, registered, x))
  {
    if u.pc.phase.Lookup? || u.pc.phase.Call? || u.pc.phase.Conclude? {
      SyncRunnerKeeps(r, u, cs, registered, x);
    } else {
      SyncTransitionKeeps(r, u, cs, registered, x);
    }
  }

  predicate WorkStepGood(
    t: TaskRecord, r: TaskRecord, r': TaskRecord, cs': seq<Outcome>, registered: bool, e: WorkEffect)
  {
    && RecordStep(r, r')
    && (e.pc.Work? || e.pc.Check?)
    && (e.pc.Work? ==> e.pc.task.id == t.id && WorkerFacts(e.pc.task, e.pc.phase, r', cs', registered))
    && (e.pc.Check? ==> e.write.Some? && SettledFacts(r', AsyncRun, cs'))
  }

  lemma WorkStepKeeps(t: TaskRecord, phase: Phase, entry: Entry, registered: bool, x: Choice)
    requires WorkerFacts(t, phase, entry.task, entry.calls, registered)
    ensures var e := WorkLocal(t, phase, registered, x);
            && (e.called.Some? ==> entry.calls == [])
            && WorkStepGood(t, entry.task, Updated(entry, e.write).task, WithCall(entry.calls, e.called), registered, e)
  {
  }
}
