// What a submission that has returned told its caller, against what happened to its task in the meantime.
module Submissions {
  import opened Wrappers
  import opened Errors
  import opened Tasks
  import opened Lifecycle
  import opened Pipeline
  import opened Ownership
  import opened Invariant
  import opened Safety

  // The action is an Enqueue by this submitter that succeeds.
  predicate Pushes(s: Sys, a: Action, who: nat) {
    a.SubmitterStep? && a.who == who && who in s.subs && s.subs[who].pc == Active(Push) && a.choice.fault.None?
  }

  ghost function PushCount(s: Sys, actions: seq<Action>, who: nat): nat
    requires IsRun(s, actions)
    decreases |actions|
  {
    if actions == [] then 0
    else (if Pushes(s, actions[0], who) then 1 else 0) + PushCount(Apply(s, actions[0]), actions[1..], who)
  }

  // What a saved submission's return says about its task.
  ghost predicate AnswerOk(s: Sys, who: nat) {
    who in s.subs && s.subs[who].id in s.store &&
    var u := s.subs[who];
    var e := s.store[u.id];
    u.pc.Returned? ==>
      if u.mode == Sync then e.place == Settled(SyncRun) && u.pc.err == SyncError(e.task.taskType, Last(e.calls))
      else if u.pc.err.None? then Accepted(e.place)
      else e.place == Settled(AsyncRefused(u.pushFailed))
  }

  function NilAnswers(s: Sys, who: nat): nat {
    if who in s.subs && s.subs[who].mode == Async && s.subs[who].pc == Returned(None) then 1 else 0
  }

  // The submitter keeps its identity, its answer is right, and a nil answer comes with a push.
  ghost predicate AnswerStep(s: Sys, a: Action, s': Sys, who: nat) {
    && who in s.subs && AnswerOk(s', who)
    && s'.subs[who].id == s.subs[who].id && s'.subs[who].mode == s.subs[who].mode
    && NilAnswers(s', who) == NilAnswers(s, who) + if Pushes(s, a, who) then 1 else 0
  }

  lemma OwnAnswerStep(s: Sys, a: Action, who: nat)
    requires Inv(s) && AnswerOk(s, who) && Enabled(s, a) && a.SubmitterStep? && a.who == who
    ensures AnswerStep(s, a, Apply(s, a), who)
  {
    hide SubmitterLocal, AsyncFacts, SyncFacts, QueuedFacts, SettledFacts, CanTransition, SyncError;
    var task := s.store[s.subs[who].id].task;
    PushedOnlyAtPush(task, s.subs[who], task.taskType in s.registry, a.choice);
    SubmitterStepGood(s, who, a.choice);
  }

  lemma OthersKeepSubmitter(s: Sys, a: Action, who: nat)
    requires who in s.subs && Enabled(s, a) && !(a.SubmitterStep? && a.who == who)
    ensures who in Apply(s, a).subs && Apply(s, a).subs[who] == s.subs[who]
  {
    hide SubmitterLocal, WorkLocal;
  }

  lemma AnswerIsStored(s: Sys, who: nat)
    requires AnswerOk(s, who)
    ensures who in s.subs && s.subs[who].id in s.store
  {
  }

  // An answer stays right while its entry is frozen, or accepted for good.
  lemma AnswerIsKept(s: Sys, s': Sys, who: nat)
    requires AnswerOk(s, who) && who in s'.subs && s'.subs[who] == s.subs[who] && s.subs[who].id in s'.store
    requires s.store[s.subs[who].id].place.Settled? ==> s'.store[s.subs[who].id] == s.store[s.subs[who].id]
    requires Accepted(s.store[s.subs[who].id].place) ==> Accepted(s'.store[s.subs[who].id].place)
    ensures AnswerOk(s', who)
  {
    hide SyncError;
  }

  lemma OthersKeepAnswer(s: Sys, a: Action, who: nat)
    requires Inv(s) && AnswerOk(s, who) && Enabled(s, a) && !(a.SubmitterStep? && a.who == who)
    ensures AnswerStep(s, a, Apply(s, a), who)
  {
    hide Inv, Enabled, Apply, AnswerOk, RecordStep, Accepted, Enqueues;
    assert who in s.subs && s.subs[who].id in s.store by { AnswerIsStored(s, who); }
    StepKeeps(s, a);
    AcceptanceStep(s, a, s.subs[who].id);
    OthersKeepSubmitter(s, a, who);
    AnswerIsKept(s, Apply(s, a), who);
  }

  lemma {:induction false} AnswerRun(s: Sys, actions: seq<Action>, who: nat)
    requires Inv(s) && AnswerOk(s, who) && IsRun(s, actions)
    ensures var s' := End(s, actions);
            && Inv(s') && AnswerOk(s', who)
            && s'.subs[who].id == s.subs[who].id && s'.subs[who].mode == s.subs[who].mode
            && NilAnswers(s', who) == NilAnswers(s, who) + PushCount(s, actions, who)
    decreases |actions|
  {
    hide Inv, Apply, Enabled, NilAnswers, Pushes, RecordsStep;
    if actions != [] {
      var a := actions[0];
      StepKeeps(s, a);
      if a.SubmitterStep? && a.who == who {
        OwnAnswerStep(s, a, who);
      } else {
        OthersKeepAnswer(s, a, who);
      }
      AnswerRun(Apply(s, a), actions[1..], who);
    }
  }

  // ----- the error itself -----

  // The answer of this submitter's latest Enqueue that failed, `known` when there was none.
  function FaultAfter(s: Sys, a: Action, who: nat, known: Option<Error>): Option<Error> {
    if a.SubmitterStep? && a.who == who && who in s.subs && s.subs[who].pc == Active(Push) && a.choice.fault.Some?
    then a.choice.fault else known
  }

  ghost function FaultOf(s: Sys, actions: seq<Action>, who: nat, known: Option<Error>): Option<Error>
    requires IsRun(s, actions)
    decreases |actions|
  {
    if actions == [] then known
    else FaultOf(Apply(s, actions[0]), actions[1..], who, FaultAfter(s, actions[0], who, known))
  }

  // The error that an asynchronous submitter has been given, up to its return.
  function Held(u: Submitter): Option<Error> {
    match u.pc
    case Returned(err) => err
    case Active(Conclude(err, _)) => Some(err)
    case Active(_) => u.err
  }

  // It is the queue's answer, when the queue refused, and otherwise says that the type has no handler; and
  // it is the record's result in the end.
  predicate HeldOk(u: Submitter, r: TaskRecord, fault: Option<Error>) {
    u.mode == Async ==>
      && (u.pushFailed <==> fault.Some?) && (u.pushFailed ==> Held(u).Some?)
      && (Held(u).Some? ==>
            if fault.Some? then Keeps(Held(u).value, fault.value, "failed to enqueue task")
            else NamesMissing(Held(u).value, r.taskType))
      && (u.pc.Returned? && u.pc.err.Some? ==> Shows(r.result, u.pc.err.value))
  }

  lemma HeldRunnerStep(r: TaskRecord, u: Submitter, registered: bool, x: Choice, fault: Option<Error>)
    requires u.pc.Active? && u.mode == Async && HeldOk(u, r, fault) && u.err.None? && !u.pushFailed
    requires u.pc.phase.Lookup? || u.pc.phase.Push?
    ensures var e := SubmitterLocal(r, u, registered, x);
            HeldOk(e.sub, e.task, if u.pc.phase == Push && x.fault.Some? then x.fault else fault)
  {
    NoHandlerNamesMissing(r.taskType);
    if x.fault.Some? {
      ClassifyKeeps(x.fault.value, "failed to enqueue task");
    }
    hide Text, Fallback, Classify, KeepOrFallback, NoHandlerText, NewNotFoundError, NamesMissing, Keeps, Shows;
  }

  lemma HeldFailureStep(
    r: TaskRecord, u: Submitter, cs: seq<Outcome>, registered: bool, x: Choice, fault: Option<Error>)
    requires u.pc.Active? && u.mode == Async && AsyncFacts(r, u, u.pc.phase, cs, registered) && HeldOk(u, r, fault)
    requires u.err.Some?
    ensures var e := SubmitterLocal(r, u, registered, x); HeldOk(e.sub, e.task, fault)
  {
    TextShows(u.err.value);
    hide Text, Fallback, Classify, KeepOrFallback, NamesMissing, Keeps, Shows;
  }

  lemma HeldStep(r: TaskRecord, u: Submitter, cs: seq<Outcome>, registered: bool, x: Choice, fault: Option<Error>)
    requires u.pc.Active? && u.mode == Async && AsyncFacts(r, u, u.pc.phase, cs, registered) && HeldOk(u, r, fault)
    ensures var e := SubmitterLocal(r, u, registered, x);
            HeldOk(e.sub, e.task, if u.pc.phase == Push && x.fault.Some? then x.fault else fault)
  {
    if u.pc.phase.Lookup? || u.pc.phase.Push? {
      HeldRunnerStep(r, u, registered, x, fault);
    } else if u.err.Some? {
      HeldFailureStep(r, u, cs, registered, x, fault);
    } else {
      hide Text, Fallback, Classify, KeepOrFallback, NamesMissing, Keeps, Shows, RunnerFails;
    }
  }

  ghost predicate HeldIn(s: Sys, who: nat, fault: Option<Error>) {
    who in s.subs && s.subs[who].id in s.store && HeldOk(s.subs[who], s.store[s.subs[who].id].task, fault)
  }

  // The record of this submitter is still that task, and its error still the right one.
  ghost predicate HeldGood(s: Sys, s': Sys, who: nat, fault: Option<Error>) {
    && who in s.subs && s.subs[who].id in s.store && HeldIn(s', who, fault) && s'.subs[who].id == s.subs[who].id
    && SameTask(s.store[s.subs[who].id].task, s'.store[s.subs[who].id].task)
  }

  lemma OwnHeldStep(s: Sys, who: nat, x: Choice, fault: Option<Error>)
    requires Inv(s) && HeldIn(s, who, fault) && SubmitterEnabled(s, who)
    ensures HeldGood(s, SubmitterNext(s, who, x), who, FaultAfter(s, SubmitterStep(who, x), who, fault))
  {
    var u := s.subs[who];
    var e := s.store[u.id];
    assert SubmitterOk(s, who);
    SubmitterStepGood(s, who, x);
    if u.mode == Async {
      HeldStep(e.task, u, e.calls, Registered(s, e.task), x, fault);
    }
    hide SubmitterLocal, AsyncFacts, SyncFacts, QueuedFacts, SettledFacts, CanTransition, PlaceAfter, WithCall;
    hide Shows, Keeps, NamesMissing, HeldOk, Inv;
  }

  lemma OthersKeepHeld(s: Sys, a: Action, who: nat, fault: Option<Error>)
    requires Inv(s) && AnswerOk(s, who) && HeldIn(s, who, fault)
    requires Enabled(s, a) && !(a.SubmitterStep? && a.who == who)
    ensures HeldGood(s, Apply(s, a), who, FaultAfter(s, a, who, fault))
  {
    hide Inv, Enabled, Apply, Accepted, SyncError, Shows, Keeps, NamesMissing, CanTransition;
    StepKeeps(s, a);
    OthersKeepSubmitter(s, a, who);
  }

  lemma StepOf(s: Sys, a: Action, who: nat)
    requires Enabled(s, a) && a.SubmitterStep? && a.who == who
    ensures Apply(s, a) == SubmitterNext(s, who, a.choice) && SubmitterEnabled(s, who)
  {
  }

  lemma {:induction false} HeldRun(s: Sys, actions: seq<Action>, who: nat, fault: Option<Error>)
    requires Inv(s) && AnswerOk(s, who) && HeldIn(s, who, fault) && IsRun(s, actions)
    ensures HeldGood(s, End(s, actions), who, FaultOf(s, actions, who, fault))
    decreases |actions|
  {
    hide Inv, Apply, Enabled, AnswerOk, NilAnswers, Pushes, FaultAfter, HeldOk, RecordsStep;
    if actions != [] {
      var a := actions[0];
      StepKeeps(s, a);
      if a.SubmitterStep? && a.who == who {
        OwnAnswerStep(s, a, who);
        assert Apply(s, a) == SubmitterNext(s, who, a.choice) && SubmitterEnabled(s, who) by { StepOf(s, a, who); }
        OwnHeldStep(s, who, a.choice, fault);
      } else {
        OthersKeepAnswer(s, a, who);
        OthersKeepHeld(s, a, who, fault);
      }
      HeldRun(Apply(s, a), actions[1..], who, FaultAfter(s, a, who, fault));
    }
  }

  lemma FreshSubmitter(s: Sys, a: Action)
    requires Enabled(s, a) && a.Submit? && a.id !in s.store
    ensures var s1 := Apply(s, a);
            && AnswerOk(s1, a.who) && s1.subs[a.who].id == a.id && s1.subs[a.who].mode == a.mode
            && NilAnswers(s1, a.who) == 0 && HeldIn(s1, a.who, None)
            && s1.store[a.id].task == NewRecord(a.id, a.taskType, a.payload, a.now)
  {
  }

  lemma AnswerFacts(s: Sys, who: nat)
    requires Inv(s) && AnswerOk(s, who) && s.subs[who].pc.Returned?
    ensures var u := s.subs[who];
            var e := s.store[u.id];
            && (u.mode == Async && u.pc.err.Some? ==>
                  e.task.status == Failed && e.task.result != "" && e.calls == [] && u.pc.err.value.TaskError?)
            && (u.mode == Sync ==>
                  && (u.pc.err.None? <==> e.task.status == Done)
                  && SyncPromise(e.task.taskType, Last(e.calls), Verdict(e.task.status, e.task.result), u.pc.err))
  {
    assert SubmitterOk(s, who) && PlaceOk(s, s.subs[who].id);
    var u := s.subs[who];
    var e := s.store[u.id];
    SyncPromiseIff(e.task.taskType, Last(e.calls), Verdict(e.task.status, e.task.result), u.pc.err);
    hide SyncPromise, Explains, Keeps, NamesMissing, Inv;
  }

  // All or nothing, over every run that follows a SubmitTask whose Save succeeded: once it has returned, an
  // asynchronous submission has enqueued exactly once if it returned nil, and not at all if it returned an
  // error, when its record is failed for good with that error as its result; the error is the one that its
  // Enqueue returned, or names the type that has no handler. A synchronous one has enqueued nothing and left
  // the verdict and error of its handler call. Whatever happened, it is still the task that was submitted.
  lemma SubmissionIsAllOrNothing(
    size: nat, registry: set<string>, before: seq<Action>, a: Action, after: seq<Action>)
    requires Reached(size, registry, before) && a.Submit?
    requires var s := End(Init(size, registry), before);
             Enabled(s, a) && a.id !in s.store && IsRun(Apply(s, a), after)
             && a.who in End(Apply(s, a), after).subs && End(Apply(s, a), after).subs[a.who].pc.Returned?
    ensures var s1 := Apply(End(Init(size, registry), before), a);
            var s' := End(s1, after);
            var err := s'.subs[a.who].pc.err;
            var pushes := PushCount(s1, after, a.who);
            var fault := FaultOf(s1, after, a.who, None);
            && a.id in s'.store
            && s'.store[a.id].task.id == a.id && s'.store[a.id].task.taskType == a.taskType
            && s'.store[a.id].task.payload == a.payload && s'.store[a.id].task.submittedAt == a.now
            && (a.mode == Async ==> pushes == (if err.None? then 1 else 0))
            && (a.mode == Async && err.None? ==> fault.None?)
            && (a.mode == Async && err.Some? ==>
                  && s'.store[a.id].task.status == Failed && s'.store[a.id].task.result != ""
                  && s'.store[a.id].calls == [] && err.value.TaskError?
                  && Shows(s'.store[a.id].task.result, err.value)
                  && (fault.None? ==> NamesMissing(err.value, a.taskType))
                  && (fault.Some? ==> Keeps(err.value, fault.value, "failed to enqueue task")))
            && (a.mode == Sync ==>
                  && pushes == 0 && (err.None? <==> s'.store[a.id].task.status == Done)
                  && SyncPromise(a.taskType, Last(s'.store[a.id].calls),
                                 Verdict(s'.store[a.id].task.status, s'.store[a.id].task.result), err))
  {
    hide Enabled, SyncError, SyncPromise, RecordsStep;
    var s := End(Init(size, registry), before);
    ReachedInv(size, registry, before);
    StepKeeps(s, a);
    var s1 := Apply(s, a);
    FreshSubmitter(s, a);
    hide Apply;
    AnswerRun(s1, after, a.who);
    HeldRun(s1, after, a.who, None);
    AnswerFacts(End(s1, after), a.who);
  }
}
