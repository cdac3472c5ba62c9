// The step system, undisturbed, is the method: a submitter that runs alone returns, and leaves what the
// contracts of ExecuteAsync and ExecuteSync promise; a goroutine that runs alone does what ProcessNextTask does.
module Protocols {
  import opened Wrappers
  import opened Errors
  import opened Tasks
  import opened Lifecycle
  import opened Pipeline
  import opened Ownership
  import opened Invariant
  import opened Quiescence

  lemma RunnerIdentityKept(task: TaskRecord, u: Submitter, registered: bool, x: Choice)
    requires u.pc.Active? && (u.pc.phase.Lookup? || u.pc.phase.Push? || u.pc.phase.Call? || u.pc.phase.Conclude?)
    ensures var e := SubmitterLocal(task, u, registered, x);
            e.sub.id == u.id && e.sub.mode == u.mode && SameTask(task, e.task)
  {
    hide Text, Fallback, Classify, KeepOrFallback, NoHandlerText, NewNotFoundError;
  }

  lemma IdentityKept(task: TaskRecord, u: Submitter, registered: bool, x: Choice)
    requires u.pc.Active?
    ensures var e := SubmitterLocal(task, u, registered, x);
            e.sub.id == u.id && e.sub.mode == u.mode && SameTask(task, e.task)
  {
    hide Text, Fallback, Classify, KeepOrFallback, TransitionError, NoHandlerText, NewNotFoundError;
    if u.pc.phase.Lookup? || u.pc.phase.Push? || u.pc.phase.Call? || u.pc.phase.Conclude? {
      hide SubmitterLocal;
      RunnerIdentityKept(task, u, registered, x);
    }
  }

  lemma AloneStep(s: Sys, who: nat, x: Choice)
    requires SubmitterEnabled(s, who)
    ensures var s' := SubmitterNext(s, who, x);
            && who in s'.subs && SubmitterRank(s'.subs[who]) < SubmitterRank(s.subs[who])
            && (s'.subs[who].id == s.subs[who].id && s'.subs[who].mode == s.subs[who].mode)
            && s'.subs[who].id in s'.store
  {
    hide SubmitterRank;
    var task := s.store[s.subs[who].id].task;
    SubmitterRankFalls(task, s.subs[who], task.taskType in s.registry, x);
    IdentityKept(task, s.subs[who], task.taskType in s.registry, x);
  }

  // The submitter moves alone until it returns, under any choices.
  ghost function RunAlone(s: Sys, who: nat, choices: nat -> Choice): Sys
    requires who in s.subs && s.subs[who].id in s.store
    decreases if who in s.subs then SubmitterRank(s.subs[who]) else 0
  {
    if s.subs[who].pc.Returned? then s
    else
      AloneStep(s, who, choices(SubmitterRank(s.subs[who])));
      RunAlone(SubmitterNext(s, who, choices(SubmitterRank(s.subs[who]))), who, choices)
  }

  lemma SubmitterClock(s: Sys, who: nat, x: Choice)
    requires SubmitterEnabled(s, who)
    ensures SubmitterNext(s, who, x).clock == x.now
  {
  }

  // The clock of the choices runs forwards while the rank falls.
  ghost predicate TimelyBelow(now: nat, choices: nat -> Choice, rank: nat) {
    forall m: nat, n: nat :: m <= n <= rank ==> now <= choices(n).now <= choices(m).now
  }

  // A submitter left alone makes a run of the step system.
  lemma {:induction false} RunAloneIsARun(s: Sys, who: nat, choices: nat -> Choice) returns (actions: seq<Action>)
    requires who in s.subs && s.subs[who].id in s.store
    requires TimelyBelow(s.clock, choices, SubmitterRank(s.subs[who]))
    ensures IsRun(s, actions) && End(s, actions) == RunAlone(s, who, choices)
    ensures forall a :: a in actions ==> a.SubmitterStep? && a.who == who && exists n: nat :: a.choice == choices(n)
    decreases SubmitterRank(s.subs[who])
  {
    if s.subs[who].pc.Returned? {
      actions := [];
    } else {
      hide SubmitterNext, SubmitterRank;
      var x := choices(SubmitterRank(s.subs[who]));
      AloneStep(s, who, x);
      var s1 := SubmitterNext(s, who, x);
      assert s1.clock == x.now by { SubmitterClock(s, who, x); }
      var rest := RunAloneIsARun(s1, who, choices);
      actions := [SubmitterStep(who, x)] + rest;
      assert actions[0] == SubmitterStep(who, x) && actions[1..] == rest;
    }
  }

  // Nothing but this submitter, its record (which stays the same task) and the left end of the queue can
  // have changed.
  ghost predicate OnlyMine(s: Sys, s': Sys, who: nat) {
    && who in s.subs && s'.gors == s.gors && s'.pool == s.pool && s'.ctls == s.ctls && s'.registry == s.registry
    && s'.subs.Keys == s.subs.Keys && (forall w :: w in s.subs && w != who ==> s'.subs[w] == s.subs[w])
    && s'.store.Keys == s.store.Keys
    && (forall id :: id in s.store && id != s.subs[who].id ==> s'.store[id] == s.store[id])
    && s.subs[who].id in s.store && SameTask(s.store[s.subs[who].id].task, s'.store[s.subs[who].id].task)
  }

  // What the submitter's return means, in the terms of the methods' contracts; `fault` answers its Enqueue.
  ghost predicate Answered(s: Sys, s': Sys, who: nat, fault: Option<Error>) {
    who in s'.subs && s'.subs[who].pc.Returned? && s'.subs[who].id in s'.store &&
    var u := s'.subs[who];
    var e := s'.store[u.id];
    var registered := e.task.taskType in s.registry;
    match u.mode
    case Async =>
      && u.pc.err == AsyncError(e.task.taskType, registered, fault) && e.calls == []
      && AsyncPromise(e.task.taskType, registered, fault, u.pc.err)
      && if u.pc.err.None? then s'.list == [QueuedContext(e.task, None)] + s.list && e.task.status == Queued
         else s'.list == s.list && e.task.status == Failed && e.task.result != "" && u.pc.err.value.TaskError?
    case Sync =>
      && s'.list == s.list
      && Verdict(e.task.status, e.task.result) == SyncVerdict(e.task.taskType, Last(e.calls))
      && u.pc.err == SyncError(e.task.taskType, Last(e.calls))
      && SyncPromise(e.task.taskType, Last(e.calls), Verdict(e.task.status, e.task.result), u.pc.err)
      && (Last(e.calls).Some? <==> registered)
  }

  predicate PastLookup(u: Submitter, phase: Phase) {
    || u.err.Some? || phase.Conclude?
    || ((phase.Stamp? || phase.Mark? || phase.Persist?) && phase.target == Done)
  }

  // A synchronous submitter past its lookup has called a handler exactly when there is one.
  predicate LookedUp(u: Submitter, e: Entry, registered: bool) {
    u.mode == Sync && u.pc.Active? && PastLookup(u, u.pc.phase) ==> (e.calls != [] <==> registered)
  }

  predicate Failing(phase: Phase) {
    (phase.Stamp? || phase.Mark? || phase.Persist?) && phase.target == Failed
  }

  // An asynchronous submitter that has given up holds the error it will return.
  predicate Told(u: Submitter, taskType: string, registered: bool, fault: Option<Error>) {
    u.mode == Async && u.pc.Active? ==>
      if u.pc.phase.Conclude? then Some(u.pc.phase.err) == AsyncError(taskType, registered, fault)
      else if Failing(u.pc.phase) then u.err == AsyncError(taskType, registered, fault)
      else u.repeats == 0
  }

  // The submitter is still under way, and knows its lookup.
  ghost predicate UnderWay(s: Sys, who: nat, fault: Option<Error>) {
    && SubmitterEnabled(s, who)
    && LookedUp(s.subs[who], s.store[s.subs[who].id], Registered(s, s.store[s.subs[who].id].task))
    && var task := s.store[s.subs[who].id].task;
       Told(s.subs[who], task.taskType, Registered(s, task), fault)
  }

  lemma LookupStep(entry: Entry, u: Submitter, registered: bool, x: Choice)
    requires u.pc.Active? && SubmitterFacts(entry.task, u, entry.calls, registered) && LookedUp(u, entry, registered)
    ensures var e := SubmitterLocal(entry.task, u, registered, x);
            var entry' := entry.(task := e.task, calls := WithCall(entry.calls, e.called));
            && LookedUp(e.sub, entry', registered)
            && (u.mode == Sync && e.sub.pc.Returned? ==> (entry'.calls != [] <==> registered))
  {
    hide AsyncFacts, Text, Fallback, Classify, KeepOrFallback, SyncVerdict, SyncError, NoHandlerText;
  }

  lemma ToldStep(entry: Entry, u: Submitter, registered: bool, x: Choice, fault: Option<Error>)
    requires u.pc.Active? && u.mode == Async && AsyncFacts(entry.task, u, u.pc.phase, entry.calls, registered)
    requires Told(u, entry.task.taskType, registered, fault) && (u.pc.phase == Push ==> x.fault == fault)
    ensures var e := SubmitterLocal(entry.task, u, registered, x);
            && Told(e.sub, entry.task.taskType, registered, fault)
            && (e.sub.pc.Returned? ==> e.sub.pc.err == AsyncError(entry.task.taskType, registered, fault))
  {
    hide Text, Fallback, Classify, KeepOrFallback, NoHandlerText;
  }

  // A step of the submitter's changes nothing else, and pushes at most its own context.
  lemma StepIsMine(s: Sys, who: nat, x: Choice)
    requires SubmitterEnabled(s, who)
    ensures var s' := SubmitterNext(s, who, x);
            var e := EffectOf(s, who, x);
            && OnlyMine(s, s', who)
            && s'.list == (if e.pushed then [QueuedContext(e.task, e.sub.err)] + s.list else s.list)
  {
    hide SubmitterLocal, PlaceAfter, WithCall;
    var task := s.store[s.subs[who].id].task;
    IdentityKept(task, s.subs[who], task.taskType in s.registry, x);
  }

  lemma SyncIsNotTold(u: Submitter, taskType: string, registered: bool, fault: Option<Error>)
    requires u.mode == Sync
    ensures Told(u, taskType, registered, fault)
  {
  }

  lemma PromisesMet(s: Sys, who: nat, registered: bool, fault: Option<Error>)
    requires who in s.subs && s.subs[who].pc.Returned? && s.subs[who].id in s.store
    ensures var err := s.subs[who].pc.err;
            var e := s.store[s.subs[who].id];
            var verdict := Verdict(e.task.status, e.task.result);
            && (err == AsyncError(e.task.taskType, registered, fault) ==>
                  AsyncPromise(e.task.taskType, registered, fault, err))
            && (verdict == SyncVerdict(e.task.taskType, Last(e.calls))
                && err == SyncError(e.task.taskType, Last(e.calls)) ==>
                  SyncPromise(e.task.taskType, Last(e.calls), verdict, err))
  {
    var err := s.subs[who].pc.err;
    var e := s.store[s.subs[who].id];
    AsyncPromiseIff(e.task.taskType, registered, fault, err);
    SyncPromiseIff(e.task.taskType, Last(e.calls), Verdict(e.task.status, e.task.result), err);
  }

  lemma StepAnswers(s: Sys, who: nat, x: Choice, fault: Option<Error>)
    requires Inv(s) && UnderWay(s, who, fault)
    requires s.subs[who].mode == Async && s.subs[who].pc.phase == Push ==> x.fault == fault
    ensures var s' := SubmitterNext(s, who, x);
            && OnlyMine(s, s', who)
            && ((s'.list == s.list && UnderWay(s', who, fault)) || Answered(s, s', who, fault))
  {
    hide SubmitterLocal, AsyncFacts, SyncFacts, CanTransition, SyncVerdict, SyncError, AsyncError, LookedUp, Told;
    hide SyncPromise, AsyncPromise, OnlyMine, QueueOk, GoroutineOk, PlaceOk, Fifo;
    SubmitterStepGood(s, who, x);
    StepIsMine(s, who, x);
    var entry := s.store[s.subs[who].id];
    IdentityKept(entry.task, s.subs[who], Registered(s, entry.task), x);
    assert SubmitterOk(s, who);
    LookupStep(entry, s.subs[who], Registered(s, entry.task), x);
    if SubmitterNext(s, who, x).subs[who].pc.Returned? {
      PromisesMet(SubmitterNext(s, who, x), who, Registered(s, entry.task), fault);
    }
    if s.subs[who].mode == Async {
      ToldStep(entry, s.subs[who], Registered(s, entry.task), x, fault);
    } else {
      assert Told(SubmitterNext(s, who, x).subs[who], entry.task.taskType, Registered(s, entry.task), fault) by {
        SyncIsNotTold(SubmitterNext(s, who, x).subs[who], entry.task.taskType, Registered(s, entry.task), fault);
      }
    }
  }

  // The rank, and so the choice, at which the one Enqueue is made.
  lemma PushRank(u: Submitter, taskType: string, registered: bool, fault: Option<Error>)
    requires Told(u, taskType, registered, fault) && u.mode == Async && u.pc == Active(Push)
    ensures SubmitterRank(u) == PhaseRank(Push)
  {
  }

  lemma {:induction false} AloneFrom(s: Sys, who: nat, choices: nat -> Choice)
    requires Inv(s) && UnderWay(s, who, choices(PhaseRank(Push)).fault)
    ensures var s' := RunAlone(s, who, choices);
            && OnlyMine(s, s', who) && Answered(s, s', who, choices(PhaseRank(Push)).fault)
            && s'.subs[who].id == s.subs[who].id && s'.subs[who].mode == s.subs[who].mode
    decreases SubmitterRank(s.subs[who])
  {
    hide Inv, SubmitterNext, SubmitterRank, LookedUp, Told, SyncVerdict, SyncError, AsyncError, RecordsStep;
    hide SyncPromise, AsyncPromise;
    var fault := choices(PhaseRank(Push)).fault;
    var u := s.subs[who];
    var x := choices(SubmitterRank(u));
    var s1 := SubmitterNext(s, who, x);
    AloneStep(s, who, x);
    SubmitterKeeps(s, who, x);
    if u.mode == Async && u.pc.phase == Push {
      PushRank(u, s.store[u.id].task.taskType, Registered(s, s.store[u.id].task), fault);
    }
    StepAnswers(s, who, x, fault);
    if UnderWay(s1, who, fault) {
      AloneFrom(s1, who, choices);
    }
  }

  lemma FreshIsUnderWay(s: Sys, a: Action, fault: Option<Error>)
    requires Enabled(s, a) && a.Submit? && a.id !in s.store
    ensures var s1 := Apply(s, a);
            && UnderWay(s1, a.who, fault) && s1.list == s.list && s1.registry == s.registry
            && s1.subs[a.who].mode == a.mode && s1.subs[a.who].id == a.id
  {
  }

  // The step system conforms to the methods: after its Save, a submitter left alone returns under any
  // choices of clock, queue fault and handler outcome, changes nothing but its own record and the queue, and
  // leaves what ExecuteAsync and ExecuteSync promise: all or nothing, with the error that a missing handler
  // or the queue's fault decides, or the synchronous verdict and error.
  lemma SubmitterAloneIsTheMethod(s: Sys, a: Action, choices: nat -> Choice)
    requires Inv(s) && Enabled(s, a) && a.Submit? && a.id !in s.store
    ensures var s1 := Apply(s, a);
            && SubmitterEnabled(s1, a.who)
            && var s' := RunAlone(s1, a.who, choices);
               && OnlyMine(s1, s', a.who) && Answered(s, s', a.who, choices(PhaseRank(Push)).fault)
               && s'.subs[a.who].mode == a.mode && s'.subs[a.who].id == a.id
  {
    StepKeeps(s, a);
    FreshIsUnderWay(s, a, choices(PhaseRank(Push)).fault);
    hide Inv, Apply, Enabled, RunAlone, OnlyMine, LookedUp, Told, SyncVerdict, SyncError, AsyncError, RecordsStep;
    AloneFrom(Apply(s, a), a.who, choices);
  }

  // ----- goroutines -----

  lemma WorkStepFalls(s: Sys, g: nat, x: Choice)
    requires GoroutineEnabled(s, g, x) && s.gors[g].pc.Work?
    ensures var s' := WorkNext(s, g, x);
            && g in s'.gors && s'.gors == s.gors[g := s'.gors[g]]
            && (s'.gors[g].pc.Work? ==> GoroutineRank(s'.gors[g]) < GoroutineRank(s.gors[g]))
  {
  }

  // The goroutine works alone until it lets go of its task, under any choices.
  ghost function WorkAlone(s: Sys, g: nat, choices: nat -> Choice): Sys
    requires g in s.gors && s.gors[g].pc.Work?
    decreases if g in s.gors then GoroutineRank(s.gors[g]) else 0
  {
    WorkStepFalls(s, g, choices(GoroutineRank(s.gors[g])));
    var s' := WorkNext(s, g, choices(GoroutineRank(s.gors[g])));
    if s'.gors[g].pc.Work? then WorkAlone(s', g, choices) else s'
  }

  // A goroutine left alone makes a run of the step system.
  lemma {:induction false} WorkAloneIsARun(s: Sys, g: nat, choices: nat -> Choice) returns (actions: seq<Action>)
    requires g in s.gors && s.gors[g].pc.Work? && TimelyBelow(s.clock, choices, GoroutineRank(s.gors[g]))
    ensures IsRun(s, actions) && End(s, actions) == WorkAlone(s, g, choices)
    decreases GoroutineRank(s.gors[g])
  {
    hide WorkRank;
    var x := choices(GoroutineRank(s.gors[g]));
    WorkStepFalls(s, g, x);
    var s1 := WorkNext(s, g, x);
    assert s1.clock == x.now;
    assert Apply(s, GoroutineStep(g, x)) == s1;
    hide WorkNext;
    var rest: seq<Action> := [];
    if s1.gors[g].pc.Work? {
      rest := WorkAloneIsARun(s1, g, choices);
    }
    actions := [GoroutineStep(g, x)] + rest;
    assert actions[0] == GoroutineStep(g, x) && actions[1..] == rest;
  }

  // Nothing but this goroutine, and status, result, calls and place of this record, can have changed.
  ghost predicate OnlyOne(s: Sys, s': Sys, g: nat, id: string) {
    && g in s.gors && g in s'.gors && s'.gors == s.gors[g := s.gors[g].(pc := s'.gors[g].pc)]
    && s'.subs == s.subs && s'.list == s.list
    && s'.pool == s.pool && s'.ctls == s.ctls && s'.registry == s.registry
    && s'.store.Keys == s.store.Keys && (forall j :: j in s.store && j != id ==> s'.store[j] == s.store[j])
    && id in s.store
    && s'.store[id].task == s.store[id].task.(status := s'.store[id].task.status, result := s'.store[id].task.result)
  }

  lemma CalledOutcome(t: TaskRecord, phase: Phase, registered: bool, x: Choice)
    ensures WorkLocal(t, phase, registered, x).called == if phase == Call then Some(x.outcome) else None
  {
  }

  lemma WorkStepIsOwn(s: Sys, g: nat, x: Choice)
    requires Inv(s) && GoroutineEnabled(s, g, x) && s.gors[g].pc.Work?
    ensures var s' := WorkNext(s, g, x);
            var t := s.gors[g].pc.task;
            && OnlyOne(s, s', g, t.id)
            && (s'.gors[g].pc.Work? ==> s'.gors[g].pc.task.id == t.id)
            && (s'.gors[g].pc.Work? || (s'.gors[g].pc.Check? && s'.store[t.id].place == Settled(AsyncRun)))
            && s'.store[t.id].calls == if s.gors[g].pc.phase == Call then [x.outcome] else s.store[t.id].calls
  {
    hide WorkLocal, WorkerFacts, SettledFacts, CanTransition, SubmitterOk, QueueOk, PlaceOk, Fifo;
    assert GoroutineOk(s, g);
    WorkStepGoodAt(s, g, x);
    CalledOutcome(s.gors[g].pc.task, s.gors[g].pc.phase, s.gors[g].pc.task.taskType in s.registry, x);
  }

  // The record's calls are no other than the one this goroutine makes.
  ghost predicate OwnCall(s: Sys, g: nat, outcome: Outcome) {
    && g in s.gors && s.gors[g].pc.Work? && s.gors[g].pc.task.id in s.store
    && var calls := s.store[s.gors[g].pc.task.id].calls;
       calls == [] || calls == [outcome]
  }

  lemma {:induction false} WorkAloneFrom(s: Sys, g: nat, choices: nat -> Choice)
    requires Inv(s) && OwnCall(s, g, choices(WorkRank(Call)).outcome)
    ensures var s' := WorkAlone(s, g, choices);
            var id := s.gors[g].pc.task.id;
            && Inv(s') && OnlyOne(s, s', g, id) && s'.gors[g].pc.Check? && s'.store[id].place == Settled(AsyncRun)
            && (s'.store[id].calls == [] || s'.store[id].calls == [choices(WorkRank(Call)).outcome])
    decreases GoroutineRank(s.gors[g])
  {
    hide Inv, WorkNext, WorkRank, RecordsStep;
    var x := choices(GoroutineRank(s.gors[g]));
    WorkStepFalls(s, g, x);
    WorkKeeps(s, g, x);
    WorkStepIsOwn(s, g, x);
    if WorkNext(s, g, x).gors[g].pc.Work? {
      WorkAloneFrom(WorkNext(s, g, x), g, choices);
    }
  }

  lemma OnlyOneTwice(s: Sys, s1: Sys, s2: Sys, g: nat, id: string)
    requires OnlyOne(s, s1, g, id) && OnlyOne(s1, s2, g, id)
    ensures OnlyOne(s, s2, g, id) && id in s2.store
  {
  }

  lemma DequeuedIsOwn(s: Sys, g: nat, x: Choice, outcome: Outcome)
    requires Inv(s) && GoroutineEnabled(s, g, x) && s.gors[g].pc.Await? && x.fault.None?
    ensures var s1 := AwaitNext(s, g, x);
            var id := s.list[|s.list| - 1].task.id;
            && OwnCall(s1, g, outcome) && s1.gors[g].pc.task.id == id
            && OnlyOne(s.(list := s.list[..|s.list| - 1]), s1, g, id)
  {
    hide SubmitterOk, GoroutineOk, PlaceOk;
    assert s.list[|s.list| - 1] == s.enqueued[|s.dequeued|];
    assert QueueOk(s, |s.dequeued|);
  }

  lemma SettledRun(s: Sys, id: string)
    requires Inv(s) && id in s.store && s.store[id].place == Settled(AsyncRun)
    ensures var e := s.store[id];
            |e.calls| == 1 && Verdict(e.task.status, e.task.result) == WorkerVerdict(e.calls[0])
  {
    assert PlaceOk(s, id);
  }

  // And a goroutine that has dequeued a task and is left alone does what ProcessNextTask promises: it calls
  // the handler once, leaves the worker's verdict on that outcome in the task's record, whose other fields
  // stay, and goes back to its check; no other record, submitter or goroutine changes.
  lemma GoroutineAloneIsTheMethod(s: Sys, g: nat, x: Choice, choices: nat -> Choice)
    requires Inv(s) && GoroutineEnabled(s, g, x) && s.gors[g].pc.Await? && x.fault.None?
    ensures var s1 := AwaitNext(s, g, x);
            var id := s.list[|s.list| - 1].task.id;
            var outcome := choices(WorkRank(Call)).outcome;
            && g in s1.gors && s1.gors[g].pc.Work?
            && var s' := WorkAlone(s1, g, choices);
               && OnlyOne(s.(list := s.list[..|s.list| - 1]), s', g, id) && s'.gors[g].pc.Check?
               && s'.store[id].calls == [outcome] && s'.store[id].place == Settled(AsyncRun)
               && Verdict(s'.store[id].task.status, s'.store[id].task.result) == WorkerVerdict(outcome)
               && WorkerPromise(outcome, WorkerVerdict(outcome))
  {
    var s1 := AwaitNext(s, g, x);
    var id := s.list[|s.list| - 1].task.id;
    var outcome := choices(WorkRank(Call)).outcome;
    AwaitKeeps(s, g, x);
    DequeuedIsOwn(s, g, x, outcome);
    WorkerPromiseIff(outcome, WorkerVerdict(outcome));
    hide Inv, GoroutineEnabled, AwaitNext, RecordsStep, OnlyOne, WorkAlone, WorkerVerdict, WorkerPromise;
    WorkAloneFrom(s1, g, choices);
    OnlyOneTwice(s.(list := s.list[..|s.list| - 1]), s1, WorkAlone(s1, g, choices), g, id);
    SettledRun(WorkAlone(s1, g, choices), id);
  }
}
