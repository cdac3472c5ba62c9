// The asynchronous pipeline refines synchronous execution: with handlers that are functions of type and
// payload, every task at rest has the verdict of executeSync, unless its Enqueue failed.
module Refinement {
  import opened Wrappers
  import opened Errors
  import opened Tasks
  import opened Lifecycle
  import opened Pipeline
  import opened Ownership
  import opened Invariant
  import opened Safety

  // The behaviour of every registered handler.
  type Handlers = (string, string) -> Outcome

  // What executeSync makes of a task when exactly the types in `registry` have handlers.
  function SyncResult(registry: set<string>, handlers: Handlers, taskType: string, payload: string): Verdict {
    SyncVerdict(taskType, if taskType in registry then Some(handlers(taskType, payload)) else None)
  }

  // No registration, and a handler that is called behaves as `handlers` says.
  ghost predicate Functional(s: Sys, a: Action, handlers: Handlers)
    requires Enabled(s, a)
  {
    match a
    case Register(_) => false
    case SubmitterStep(who, x) =>
      s.subs[who].pc == Active(Call) ==>
        var task := s.store[s.subs[who].id].task;
        x.outcome == handlers(task.taskType, task.payload)
    case GoroutineStep(g, x) =>
      s.gors[g].pc.Work? && s.gors[g].pc.phase == Call ==>
        x.outcome == handlers(s.gors[g].pc.task.taskType, s.gors[g].pc.task.payload)
    case _ => true
  }

  ghost predicate FunctionalRun(s: Sys, actions: seq<Action>, handlers: Handlers)
    requires IsRun(s, actions)
    decreases |actions|
  {
    actions == [] ||
    (Functional(s, actions[0], handlers) && FunctionalRun(Apply(s, actions[0]), actions[1..], handlers))
  }

  // The action is an Enqueue of this task that fails.
  predicate FailsEnqueue(s: Sys, a: Action, id: string) {
    && a.SubmitterStep? && a.who in s.subs && s.subs[a.who].id == id
    && s.subs[a.who].pc == Active(Push) && a.choice.fault.Some?
  }

  ghost predicate EnqueueFailed(s: Sys, actions: seq<Action>, id: string)
    requires IsRun(s, actions)
    decreases |actions|
  {
    actions != [] && (FailsEnqueue(s, actions[0], id) || EnqueueFailed(Apply(s, actions[0]), actions[1..], id))
  }

  // ----- what the runs of a functional handler leave behind -----

  predicate CallsAre(registry: set<string>, handlers: Handlers, r: TaskRecord, cs: seq<Outcome>) {
    cs != [] ==> cs == [handlers(r.taskType, r.payload)] && r.taskType in registry
  }

  // A runner that gave up without calling a handler found none, unless its Enqueue failed.
  predicate GaveUp(registry: set<string>, r: TaskRecord, u: Submitter, cs: seq<Outcome>) {
    u.pc.Active? && (u.pc.phase.Conclude? || u.err.Some?) && cs == [] && !u.pushFailed ==> r.taskType !in registry
  }

  predicate SettledAs(registry: set<string>, r: TaskRecord, route: Route, cs: seq<Outcome>) {
    (route == SyncRun && cs == []) || route == AsyncRefused(false) ==> r.taskType !in registry
  }

  ghost predicate EntryOk(s: Sys, handlers: Handlers, id: string)
    requires id in s.store
  {
    var e := s.store[id];
    && CallsAre(s.registry, handlers, e.task, e.calls)
    && match e.place
       case WithSubmitter(who) => who in s.subs && GaveUp(s.registry, e.task, s.subs[who], e.calls)
       case Settled(route) => SettledAs(s.registry, e.task, route, e.calls)
       case _ => true
  }

  // The Enqueue of this task has failed.
  predicate PushLost(s: Sys, id: string) {
    id in s.store &&
    match s.store[id].place
    case WithSubmitter(who) => who in s.subs && s.subs[who].pushFailed
    case Settled(route) => route == AsyncRefused(true)
    case _ => false
  }

  ghost predicate RefInv(s: Sys, handlers: Handlers) {
    forall id :: id in s.store ==> EntryOk(s, handlers, id)
  }

  // What a submitter's step must leave for the next one.
  predicate RefGood(
    registry: set<string>, handlers: Handlers, u: Submitter, cs: seq<Outcome>, x: Choice, e: SubmitterEffect)
    requires u.pc.Active?
  {
    var cs' := WithCall(cs, e.called);
    && CallsAre(registry, handlers, e.task, cs')
    && (e.sub.pc.Active? ==> GaveUp(registry, e.task, e.sub, cs'))
    && (e.sub.pc.Returned? && !e.pushed ==> SettledAs(registry, e.task, RouteOf(e.sub), cs'))
    && (e.sub.pushFailed <==> u.pushFailed || (u.pc.phase == Push && x.fault.Some?))
    && (e.sub.pushFailed ==> u.mode == Async && !e.pushed)
  }

  lemma AsyncRefLocal(
    registry: set<string>, handlers: Handlers, r: TaskRecord, u: Submitter, cs: seq<Outcome>, x: Choice)
    requires u.pc.Active? && u.mode == Async && AsyncFacts(r, u, u.pc.phase, cs, r.taskType in registry)
    requires GaveUp(registry, r, u, cs)
    ensures RefGood(registry, handlers, u, cs, x, SubmitterLocal(r, u, r.taskType in registry, x))
  {
    hide Text, Fallback, Classify, KeepOrFallback;
  }

  lemma SyncRefLocal(
    registry: set<string>, handlers: Handlers, r: TaskRecord, u: Submitter, cs: seq<Outcome>, x: Choice)
    requires u.pc.Active? && u.mode == Sync && !u.pushFailed && SyncFacts(r, u, u.pc.phase, cs, r.taskType in registry)
    requires CallsAre(registry, handlers, r, cs) && GaveUp(registry, r, u, cs)
    requires u.pc.phase == Call ==> x.outcome == handlers(r.taskType, r.payload)
    ensures RefGood(registry, handlers, u, cs, x, SubmitterLocal(r, u, r.taskType in registry, x))
  {
    hide Text, Fallback, Classify, KeepOrFallback;
  }

  lemma SubmitterRefLocal(
    registry: set<string>, handlers: Handlers, r: TaskRecord, u: Submitter, cs: seq<Outcome>, x: Choice)
    requires u.pc.Active? && SubmitterFacts(r, u, cs, r.taskType in registry)
    requires CallsAre(registry, handlers, r, cs) && GaveUp(registry, r, u, cs)
    requires u.pc.phase == Call ==> x.outcome == handlers(r.taskType, r.payload)
    ensures RefGood(registry, handlers, u, cs, x, SubmitterLocal(r, u, r.taskType in registry, x))
  {
    if u.mode == Async {
      AsyncRefLocal(registry, handlers, r, u, cs, x);
    } else {
      SyncRefLocal(registry, handlers, r, u, cs, x);
    }
  }

  lemma SubmitterRef(s: Sys, handlers: Handlers, who: nat, x: Choice, id: string)
    requires Inv(s) && RefInv(s, handlers) && SubmitterEnabled(s, who) && id in s.store
    requires s.subs[who].pc == Active(Call) ==>
               x.outcome == handlers(s.store[s.subs[who].id].task.taskType, s.store[s.subs[who].id].task.payload)
    ensures var s' := SubmitterNext(s, who, x);
            && id in s'.store && EntryOk(s', handlers, id)
            && (PushLost(s', id) <==>
                  PushLost(s, id) || (s.subs[who].id == id && s.subs[who].pc == Active(Push) && x.fault.Some?))
  {
    hide SubmitterLocal, SubmitterFacts, SettledFacts, CallsAre, GaveUp, SettledAs, QueueOk, GoroutineOk, Fifo;
    var mine := s.subs[who].id;
    assert SubmitterOk(s, who);
    assert EntryOk(s, handlers, mine) && EntryOk(s, handlers, id);
    SubmitterRefLocal(s.registry, handlers, s.store[mine].task, s.subs[who], s.store[mine].calls, x);
    SubmitterStepGood(s, who, x);
    if id != mine {
      assert PlaceOk(s, id);
    }
  }

  lemma WorkerRefLocal(registry: set<string>, handlers: Handlers, t: TaskRecord, phase: Phase, e: Entry, x: Choice)
    requires WorkerFacts(t, phase, e.task, e.calls, t.taskType in registry)
    requires CallsAre(registry, handlers, e.task, e.calls)
    requires phase == Call ==> x.outcome == handlers(t.taskType, t.payload)
    ensures var w := WorkLocal(t, phase, t.taskType in registry, x);
            CallsAre(registry, handlers, Updated(e, w.write).task, WithCall(e.calls, w.called))
  {
  }

  lemma GoroutineRef(s: Sys, handlers: Handlers, g: nat, x: Choice, id: string)
    requires Inv(s) && RefInv(s, handlers) && GoroutineEnabled(s, g, x) && id in s.store
    requires s.gors[g].pc.Work? && s.gors[g].pc.phase == Call ==>
               x.outcome == handlers(s.gors[g].pc.task.taskType, s.gors[g].pc.task.payload)
    ensures var s' := GoroutineNext(s, g, x);
            id in s'.store && EntryOk(s', handlers, id) && (PushLost(s', id) <==> PushLost(s, id))
  {
    hide WorkLocal, SubmitterOk, PlaceOk, SettledFacts, CallsAre, GaveUp, QueuedFacts;
    assert EntryOk(s, handlers, id);
    if s.gors[g].pc.Await? && x.fault.None? {
      assert s.list[|s.list| - 1] == s.enqueued[|s.dequeued|];
      assert QueueOk(s, |s.dequeued|);
    } else if s.gors[g].pc.Work? {
      var t := s.gors[g].pc.task;
      assert GoroutineOk(s, g);
      assert t.taskType == s.store[t.id].task.taskType;
      WorkerRefLocal(s.registry, handlers, t, s.gors[g].pc.phase, s.store[t.id], x);
    }
  }

  lemma AbsentIsNotLost(s: Sys, s': Sys)
    requires s'.store.Keys == s.store.Keys
    ensures forall id :: id !in s.store ==> !PushLost(s, id) && !PushLost(s', id)
  {
  }

  lemma SubmitterKeysKept(s: Sys, who: nat, x: Choice)
    requires SubmitterEnabled(s, who)
    ensures var s' := SubmitterNext(s, who, x);
            s'.store.Keys == s.store.Keys && s'.registry == s.registry
  {
    hide SubmitterLocal;
  }

  lemma GoroutineKeysKept(s: Sys, g: nat, x: Choice)
    requires GoroutineEnabled(s, g, x)
    ensures var s' := GoroutineNext(s, g, x);
            s'.store.Keys == s.store.Keys && s'.registry == s.registry
  {
    hide WorkLocal;
  }

  lemma StoreUnchangedRef(s: Sys, s': Sys, handlers: Handlers)
    requires RefInv(s, handlers) && s'.store == s.store && s'.registry == s.registry && s'.subs == s.subs
    ensures RefInv(s', handlers) && forall id :: PushLost(s', id) <==> PushLost(s, id)
  {
    forall id | id in s'.store ensures EntryOk(s', handlers, id) {
      assert EntryOk(s, handlers, id);
    }
  }

  lemma FreshEntry(registry: set<string>, handlers: Handlers, r: TaskRecord, u: Submitter)
    requires u.err.None? && (u.pc.Active? ==> !u.pc.phase.Conclude?)
    ensures CallsAre(registry, handlers, r, []) && GaveUp(registry, r, u, [])
  {
  }

  lemma SubmitRef(s: Sys, a: Action, handlers: Handlers)
    requires Inv(s) && RefInv(s, handlers) && Enabled(s, a) && a.Submit?
    ensures RefInv(Apply(s, a), handlers) && Apply(s, a).registry == s.registry
    ensures forall id :: PushLost(Apply(s, a), id) <==> PushLost(s, id)
  {
    hide SubmitterOk, QueueOk, GoroutineOk, SettledFacts, GaveUp, CallsAre, SettledAs;
    var s' := Apply(s, a);
    forall id | id in s'.store ensures EntryOk(s', handlers, id) && (PushLost(s', id) <==> PushLost(s, id)) {
      if id in s.store {
        assert EntryOk(s, handlers, id) && PlaceOk(s, id);
      } else {
        FreshEntry(s.registry, handlers, s'.store[id].task, s'.subs[a.who]);
      }
    }
  }

  ghost predicate RefStepGood(s: Sys, a: Action, s': Sys, handlers: Handlers) {
    && RefInv(s', handlers) && s'.registry == s.registry
    && forall id :: PushLost(s', id) <==> PushLost(s, id) || FailsEnqueue(s, a, id)
  }

  lemma SubmitterRefStep(s: Sys, handlers: Handlers, who: nat, x: Choice)
    requires var a := SubmitterStep(who, x);
             Inv(s) && RefInv(s, handlers) && Enabled(s, a) && Functional(s, a, handlers)
    ensures RefStepGood(s, SubmitterStep(who, x), SubmitterNext(s, who, x), handlers)
  {
    hide Inv, SubmitterNext, EntryOk, PushLost;
    var s' := SubmitterNext(s, who, x);
    SubmitterKeysKept(s, who, x);
    forall id | id in s.store
      ensures id in s'.store && EntryOk(s', handlers, id)
      ensures PushLost(s', id) <==> PushLost(s, id) || FailsEnqueue(s, SubmitterStep(who, x), id)
    {
      SubmitterRef(s, handlers, who, x, id);
    }
    AbsentIsNotLost(s, s');
  }

  lemma GoroutineRefStep(s: Sys, handlers: Handlers, g: nat, x: Choice)
    requires var a := GoroutineStep(g, x);
             Inv(s) && RefInv(s, handlers) && Enabled(s, a) && Functional(s, a, handlers)
    ensures RefStepGood(s, GoroutineStep(g, x), GoroutineNext(s, g, x), handlers)
  {
    hide Inv, GoroutineNext, EntryOk, PushLost;
    var s' := GoroutineNext(s, g, x);
    GoroutineKeysKept(s, g, x);
    forall id | id in s.store
      ensures id in s'.store && EntryOk(s', handlers, id)
      ensures PushLost(s', id) <==> PushLost(s, id)
    {
      GoroutineRef(s, handlers, g, x, id);
    }
    AbsentIsNotLost(s, s');
  }

  lemma RefStep(s: Sys, a: Action, handlers: Handlers)
    requires Inv(s) && RefInv(s, handlers) && Enabled(s, a) && Functional(s, a, handlers)
    ensures RefStepGood(s, a, Apply(s, a), handlers)
  {
    hide Inv, SubmitNext, SubmitterNext, GoroutineNext, ControllerNext, RefInv, PushLost;
    match a {
      case SubmitterStep(who, x) => SubmitterRefStep(s, handlers, who, x);
      case GoroutineStep(g, x) => GoroutineRefStep(s, handlers, g, x);
      case Submit(_, _, _, _, _, _) => SubmitRef(s, a, handlers);
      case ControllerStep(c, timeout) =>
        ControllerFrame(s, c, timeout);
        StoreUnchangedRef(s, Apply(s, a), handlers);
      case Register(_) =>
      case _ => StoreUnchangedRef(s, Apply(s, a), handlers);
    }
  }

  lemma {:induction false} RefRun(s: Sys, actions: seq<Action>, handlers: Handlers, id: string)
    requires Inv(s) && RefInv(s, handlers) && IsRun(s, actions) && FunctionalRun(s, actions, handlers)
    ensures var s' := End(s, actions);
            && RefInv(s', handlers) && s'.registry == s.registry
            && (PushLost(s', id) <==> PushLost(s, id) || EnqueueFailed(s, actions, id))
    decreases |actions|
  {
    hide Inv, RefInv, Apply, Enabled, Functional, PushLost, FailsEnqueue, RecordsStep;
    if actions != [] {
      StepKeeps(s, actions[0]);
      RefStep(s, actions[0], handlers);
      RefRun(Apply(s, actions[0]), actions[1..], handlers, id);
    }
  }

  lemma SettledVerdict(s: Sys, handlers: Handlers, id: string)
    requires Inv(s) && RefInv(s, handlers) && id in s.store && s.store[id].place.Settled?
    ensures var task := s.store[id].task;
            var want := SyncResult(s.registry, handlers, task.taskType, task.payload);
            && (!PushLost(s, id) ==> task.status == want.status)
            && (PushLost(s, id) ==> task.status == Failed)
            && (task.status == Done ==> task.result == want.result)
  {
    assert PlaceOk(s, id) && EntryOk(s, handlers, id);
  }

  // Async refines sync. In every run with functional handlers and a fixed registry, whatever the number of
  // workers, the interleaving, the faults and the Starts and Stops: a task at rest that was submitted
  // either way has the final status of executeSync exactly when its Enqueue did not fail (or executeSync
  // would fail it too), and when it is done it has executeSync's result.
  lemma AsyncRefinesSync(size: nat, registry: set<string>, actions: seq<Action>, handlers: Handlers, id: string)
    requires Reached(size, registry, actions) && FunctionalRun(Init(size, registry), actions, handlers)
    requires id in RestingIds(End(Init(size, registry), actions))
    ensures var task := End(Init(size, registry), actions).store[id].task;
            var want := SyncResult(registry, handlers, task.taskType, task.payload);
            && (task.status == want.status <==>
                  !EnqueueFailed(Init(size, registry), actions, id) || want.status == Failed)
            && (task.status == Done ==> task.result == want.result)
  {
    hide Apply, Enabled, Inv;
    var s := End(Init(size, registry), actions);
    ReachedInv(size, registry, actions);
    InitInv(size, registry);
    assert RefInv(Init(size, registry), handlers);
    RefRun(Init(size, registry), actions, handlers, id);
    RestingIsSettled(s, id);
    SettledVerdict(s, handlers, id);
  }
}
