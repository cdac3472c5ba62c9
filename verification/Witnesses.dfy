// Runs that exhibit what the code does not do: each surprising state of the other modules is reached.
module Witnesses {
  import opened Wrappers
  import opened Errors
  import opened Tasks
  import opened Lifecycle
  import opened Pipeline
  import opened Invariant
  import opened Safety
  import opened Shutdown
  import opened Restart
  import opened Quiescence
  import opened Protocols
  import opened Refinement
  import opened Timestamps

  function Constantly(x: Choice): nat -> Choice { n => x }

  // ----- a stopped pool -----

  // A Stop of a pool of one worker, until it waits.
  lemma AStop(registry: set<string>) returns (actions: seq<Action>)
    ensures Reached(1, registry, actions)
    ensures var s := End(Init(1, registry), actions);
            && s.ctls == map[0 := StopWait] && s.pool.holder.None? && s.pool.size == 1 && s.pool.wg == 0
            && s.gors == map[] && s.nextGoroutine == 0
  {
    hide SubmitNext, SubmitterNext, GoroutineNext;
    var s0 := Init(1, registry);
    var step := ControllerStep(0, false);
    actions := [];
    OneMore(s0, actions, BeginStop(0));
    actions := actions + [BeginStop(0)];
    OneMore(s0, actions, step);
    actions := actions + [step];
    OneMore(s0, actions, step);
    actions := actions + [step];
    OneMore(s0, actions, step);
    actions := actions + [step];
  }

  // The Stop has seen the workers gone, or has timed out; then a Start launches a goroutine.
  lemma AStopAndAStart(registry: set<string>, timeout: bool) returns (actions: seq<Action>)
    ensures Reached(1, registry, actions)
    ensures var s := End(Init(1, registry), actions);
            && 0 in s.ctls && s.ctls[0] == (if timeout then StopClear(false) else StopReady)
            && 1 in s.ctls && Starting(s.ctls[1]) && 0 in s.gors && s.gors[0].pc.Check?
  {
    hide SubmitNext, SubmitterNext, GoroutineNext;
    var s0 := Init(1, registry);
    actions := AStop(registry);
    OneMore(s0, actions, ControllerStep(0, timeout));
    actions := actions + [ControllerStep(0, timeout)];
    OneMore(s0, actions, BeginStart(1));
    actions := actions + [BeginStart(1)];
    OneMore(s0, actions, ControllerStep(1, false));
    actions := actions + [ControllerStep(1, false)];
    OneMore(s0, actions, ControllerStep(1, false));
    actions := actions + [ControllerStep(1, false)];
  }

  // The pool is stopped, gracefully or by the time-out as wanted, and then started; the goroutine of that
  // Start never calls Dequeue, in any continuation.
  lemma AStartAfterAStopIsInVain(registry: set<string>, timeout: bool) returns (actions: seq<Action>)
    ensures Reached(1, registry, actions)
    ensures var s := End(Init(1, registry), actions);
            && 0 in s.ctls && Drained(s.ctls[0]) == !timeout && 1 in s.ctls && Starting(s.ctls[1])
            && 0 in s.gors && s.gors[0].pc.Check?
            && forall after :: IsRun(s, after) ==> DequeuesBy(s, after, 0) == 0
  {
    actions := AStopAndAStart(registry, timeout);
    hide Apply, Enabled, IsRun;
    var s := End(Init(1, registry), actions);
    forall after | IsRun(s, after) ensures DequeuesBy(s, after, 0) == 0 {
      AnyStopIsFinal(1, registry, actions, after, 0, 0);
    }
  }

  // ----- a task that a worker runs -----

  // A pool whose first goroutine waits at its Dequeue.
  lemma AWaitingGoroutine(size: nat, registry: set<string>) returns (actions: seq<Action>)
    requires size > 0
    ensures Reached(size, registry, actions)
    ensures var s := End(Init(size, registry), actions);
            && s.registry == registry && s.store == map[] && s.subs == map[] && s.list == [] && s.clock == 0
            && s.gors == map[0 := Goroutine(0, 0, Await)]
  {
    var s0 := Init(size, registry);
    actions := [];
    OneMore(s0, actions, BeginStart(0));
    actions := actions + [BeginStart(0)];
    OneMore(s0, actions, ControllerStep(0, false));
    actions := actions + [ControllerStep(0, false)];
    OneMore(s0, actions, ControllerStep(0, false));
    actions := actions + [ControllerStep(0, false)];
    var check := GoroutineStep(0, Choice(0, None, Outcome("", None)));
    OneMore(s0, actions, check);
    actions := actions + [check];
  }

  lemma {:induction false} ClockOf(s: Sys, actions: seq<Action>, who: nat, x: Choice)
    requires IsRun(s, actions) && s.clock <= x.now && forall a :: a in actions ==> a == SubmitterStep(who, x)
    ensures End(s, actions).clock <= x.now
    decreases |actions|
  {
    hide EffectOf, PlaceAfter;
    if actions != [] {
      assert actions[0] in actions && actions[0] == SubmitterStep(who, x);
      forall a | a in actions[1..] ensures a == SubmitterStep(who, x) {
        assert a in actions;
      }
      ClockOf(Apply(s, actions[0]), actions[1..], who, x);
    }
  }

  // A submission, its Save done.
  lemma Saved(s: Sys, a: Action)
    requires Enabled(s, a) && a.Submit? && a.id !in s.store
    ensures var s1 := Apply(s, a);
            && s1.store == s.store[a.id := s1.store[a.id]]
            && s1.store[a.id].task == NewRecord(a.id, a.taskType, a.payload, a.now)
            && s1.subs == s.subs[a.who := s1.subs[a.who]] && s1.subs[a.who].id == a.id
            && s1.gors == s.gors && s1.registry == s.registry && s1.clock == a.now
  {
  }

  // A submission that runs alone from here, as a run.
  lemma ASubmissionAlone(s: Sys, a: Action, x: Choice) returns (actions: seq<Action>)
    requires Inv(s) && Enabled(s, a) && a.Submit? && a.id !in s.store && a.now <= x.now
    ensures IsRun(Apply(s, a), actions)
    ensures forall b :: b in actions ==> b == SubmitterStep(a.who, x)
    ensures var s1 := Apply(s, a);
            var s' := End(s1, actions);
            && OnlyMine(s1, s', a.who) && Answered(s, s', a.who, x.fault) && s'.clock <= x.now
            && s'.subs[a.who].mode == a.mode && s'.subs[a.who].id == a.id
  {
    hide SyncPromise, AsyncPromise, SyncVerdict, SyncError, AsyncError;
    var choices := Constantly(x);
    SubmitterAloneIsTheMethod(s, a, choices);
    Saved(s, a);
    hide Enabled, Apply, SubmitterRank, PhaseRank, OnlyMine, Answered, RunAlone, IsRun, Inv;
    actions := RunAloneIsARun(Apply(s, a), a.who, choices);
    forall b | b in actions ensures b == SubmitterStep(a.who, x) {
      assert exists n: nat :: b.choice == choices(n);
    }
    ClockOf(Apply(s, a), actions, a.who, x);
  }

  lemma Submitted(size: nat, registry: set<string>, before: seq<Action>, a: Action, alone: seq<Action>)
    requires Reached(size, registry, before)
    requires var s := End(Init(size, registry), before); Enabled(s, a) && IsRun(Apply(s, a), alone)
    ensures var s := End(Init(size, registry), before);
            && Reached(size, registry, before + [a] + alone)
            && End(Init(size, registry), before + [a] + alone) == End(Apply(s, a), alone)
  {
    hide Apply, Enabled;
    OneMore(Init(size, registry), before, a);
    RunsJoin(Init(size, registry), before + [a], alone);
  }

  // From a waiting goroutine and a queued task to the worker's verdict.
  lemma ADequeuedTask(size: nat, registry: set<string>, before: seq<Action>, g: nat, x: Choice)
    returns (actions: seq<Action>)
    requires Reached(size, registry, before) && x.fault.None?
    requires var s := End(Init(size, registry), before);
             g in s.gors && s.gors[g].pc.Await? && s.list != [] && s.clock <= x.now
    ensures var s := End(Init(size, registry), before);
            var id := s.list[|s.list| - 1].task.id;
            && IsRun(s, actions)
            && var s' := End(s, actions);
               && id in s'.store && s'.store[id].place == Settled(AsyncRun) && s'.store[id].calls == [x.outcome]
               && Verdict(s'.store[id].task.status, s'.store[id].task.result) == WorkerVerdict(x.outcome)
  {
    var s := End(Init(size, registry), before);
    ReachedInv(size, registry, before);
    var choices := Constantly(x);
    var step := GoroutineStep(g, x);
    var s1 := Apply(s, step);
    assert Enabled(s, step) && s1 == AwaitNext(s, g, x) && s1.clock == x.now;
    hide GoroutineEnabled, Enabled, Apply, AwaitNext, WorkAlone, OnlyOne, WorkerVerdict, WorkRank, GoroutineRank, Inv;
    GoroutineAloneIsTheMethod(s, g, x, choices);
    var work := WorkAloneIsARun(s1, g, choices);
    actions := [step] + work;
    assert actions[0] == step && actions[1..] == work;
  }

  // Every handler outcome is seen: a worker runs a task of a registered type with it, leaves its verdict (an
  // empty result of a failed task included), and never stamps the stored record.
  lemma ATaskThatAWorkerRan(size: nat, id: string, taskType: string, payload: string, outcome: Outcome)
    returns (actions: seq<Action>)
    requires size > 0
    ensures Reached(size, {taskType}, actions)
    ensures var s := End(Init(size, {taskType}), actions);
            id in s.store &&
            var e := s.store[id];
            && e.place == Settled(AsyncRun) && e.calls == [outcome]
            && Verdict(e.task.status, e.task.result) == WorkerVerdict(outcome)
            && (outcome.err == Some(Plain("")) ==> e.task.status == Failed && e.task.result == "")
            && e.task.queuedAt.Some? && e.task.startedAt.None? && e.task.completedAt.None?
  {
    var x := Choice(0, None, outcome);
    var a := Submit(0, Async, id, taskType, payload, 0);
    var before := AWaitingGoroutine(size, {taskType});
    var s := End(Init(size, {taskType}), before);
    ReachedInv(size, {taskType}, before);
    Saved(s, a);
    var alone := ASubmissionAlone(s, a, x);
    Submitted(size, {taskType}, before, a, alone);
    var queued := before + [a] + alone;
    var after := ADequeuedTask(size, {taskType}, queued, 0, x);
    actions := queued + after;
    RunsJoin(Init(size, {taskType}), queued, after);
    TimesAreChronological(size, {taskType}, actions);
  }

  // ----- a task whose Enqueue fails -----

  function Returning(outcome: Outcome): Handlers { (taskType, payload) => outcome }

  lemma {:induction false} OneOutcomeIsFunctional(s: Sys, actions: seq<Action>, x: Choice)
    requires IsRun(s, actions)
    requires forall a :: a in actions ==> a.Submit? || (a.SubmitterStep? && a.choice == x)
    ensures FunctionalRun(s, actions, Returning(x.outcome))
    decreases |actions|
  {
    hide Apply, Enabled;
    if actions != [] {
      assert actions[0] in actions;
      forall a | a in actions[1..] ensures a.Submit? || (a.SubmitterStep? && a.choice == x) {
        assert a in actions;
      }
      OneOutcomeIsFunctional(Apply(s, actions[0]), actions[1..], x);
    }
  }

  // An asynchronous task is at rest and failed because its Enqueue failed, whatever with, although its
  // synchronous execution would be done.
  lemma AFailedEnqueueDiffers(size: nat, id: string, taskType: string, payload: string, result: string, fault: Error)
    returns (actions: seq<Action>)
    ensures Reached(size, {taskType}, actions)
    ensures var s := End(Init(size, {taskType}), actions);
            var handlers := Returning(Outcome(result, None));
            && FunctionalRun(Init(size, {taskType}), actions, handlers)
            && id in RestingIds(s) && EnqueueFailed(Init(size, {taskType}), actions, id)
            && s.store[id].task.status == Failed
            && SyncResult({taskType}, handlers, taskType, payload) == Verdict(Done, result)
  {
    var x := Choice(0, Some(fault), Outcome(result, None));
    var a := Submit(0, Async, id, taskType, payload, 0);
    var s := Init(size, {taskType});
    InitInv(size, {taskType});
    Saved(s, a);
    var alone := ASubmissionAlone(s, a, x);
    Submitted(size, {taskType}, [], a, alone);
    actions := [] + [a] + alone;
    var s' := End(s, actions);
    OneOutcomeIsFunctional(s, actions, x);
    assert SubmitterIds(s') == {} && QueueIds(s') == {} && WorkerIds(s') == {};
    hide Apply, Enabled, IsRun, FunctionalRun;
    AsyncRefinesSync(size, {taskType}, actions, Returning(x.outcome), id);
  }

  // ----- a submission at any time -----

  lemma FreshSubmitIsEnabled(s: Sys, a: Action)
    requires a.Submit? && a.who !in s.subs && s.clock <= a.now
    ensures Enabled(s, a)
  {
  }

  lemma AnsweredHasReturned(s: Sys, s': Sys, who: nat, fault: Option<Error>)
    requires Answered(s, s', who, fault)
    ensures who in s'.subs && s'.subs[who].pc.Returned?
  {
  }

  // From every reachable state every submission is answered in some run, under any answer of the queue and
  // outcome of the handler: with the internal error and nothing changed when its ID is stored, and otherwise
  // with what its protocol promises.
  lemma EverySubmissionCanBeAnswered(s: Sys, mode: Mode, id: string, taskType: string, payload: string, x: Choice)
    returns (who: nat, actions: seq<Action>)
    requires Inv(s) && s.clock <= x.now
    ensures who !in s.subs && |actions| > 0 && actions[0] == Submit(who, mode, id, taskType, payload, x.now)
    ensures IsRun(s, actions)
    ensures var s' := End(s, actions);
            && who in s'.subs && s'.subs[who].pc.Returned? && s'.subs[who].id == id && s'.subs[who].mode == mode
            && (id !in s.store ==> Answered(s, s', who, x.fault))
            && (id in s.store ==>
                  && s'.store == s.store && s'.list == s.list && s'.gors == s.gors
                  && s'.subs[who].pc.err == Some(TaskError(InternalError, "failed to save task", 500)))
  {
    who := AboveAll(s.subs.Keys);
    var a := Submit(who, mode, id, taskType, payload, x.now);
    actions := [a];
    if id in s.store {
      CollidingSubmitIsInert(s, a);
      FirstStep(s, a, []);
      assert [a] + [] == actions;
    } else {
      hide Apply, Enabled, Answered, OnlyMine;
      assert Enabled(s, a) by { FreshSubmitIsEnabled(s, a); }
      var alone := ASubmissionAlone(s, a, x);
      FirstStep(s, a, alone);
      actions := [a] + alone;
      AnsweredHasReturned(s, End(s, actions), who, x.fault);
    }
  }
}
