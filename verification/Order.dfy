// With a single worker goroutine, tasks reach their final status in the order of their enqueueing.
module Order {
  import opened Tasks
  import opened Pipeline
  import opened Ownership
  import opened Invariant
  import opened Safety

  function Ids(contexts: seq<QueuedContext>): seq<string> {
    seq(|contexts|, k requires 0 <= k < |contexts| => contexts[k].task.id)
  }

  // At most one goroutine is alive in every state of the run.
  ghost predicate OneWorker(s: Sys, actions: seq<Action>)
    requires IsRun(s, actions)
    decreases |actions|
  {
    |s.gors| <= 1 && (actions == [] || OneWorker(Apply(s, actions[0]), actions[1..]))
  }

  // What has been dequeued is what is finished, and then the task in hand.
  ghost predicate InOrder(s: Sys) {
    && (forall g :: g in s.gors && s.gors[g].pc.Work? ==> Ids(s.dequeued) == s.finished + [s.gors[g].pc.task.id])
    && ((forall g :: g in s.gors ==> !s.gors[g].pc.Work?) ==> Ids(s.dequeued) == s.finished)
  }

  lemma OnlyGoroutine(s: Sys, g: nat)
    requires g in s.gors && |s.gors| <= 1
    ensures forall h :: h in s.gors ==> h == g
  {
    assert |s.gors.Keys - {g}| == 0;
  }

  lemma IdsOfAppend(contexts: seq<QueuedContext>, ctx: QueuedContext)
    ensures Ids(contexts + [ctx]) == Ids(contexts) + [ctx.task.id]
  {
  }

  lemma IdsOfPrefix(a: seq<QueuedContext>, b: seq<QueuedContext>)
    requires |a| <= |b| && forall n :: 0 <= n < |a| ==> b[n] == a[n]
    ensures Ids(a) <= Ids(b)
  {
  }

  lemma PopInOrder(s: Sys, g: nat, x: Choice)
    requires Inv(s) && InOrder(s) && |s.gors| <= 1
    requires GoroutineEnabled(s, g, x) && s.gors[g].pc.Await? && x.fault.None?
    ensures InOrder(GoroutineNext(s, g, x))
  {
    hide SubmitterOk, PlaceOk, GoroutineOk;
    OnlyGoroutine(s, g);
    var ctx := s.list[|s.list| - 1];
    assert ctx == s.enqueued[|s.dequeued|];
    assert QueueOk(s, |s.dequeued|);
    IdsOfAppend(s.dequeued, ctx);
    assert g in AwaitNext(s, g, x).gors;
  }

  lemma WorkInOrder(s: Sys, g: nat, x: Choice)
    requires Inv(s) && InOrder(s) && |s.gors| <= 1
    requires GoroutineEnabled(s, g, x) && s.gors[g].pc.Work?
    ensures InOrder(GoroutineNext(s, g, x))
  {
    hide WorkLocal, WorkerFacts, SettledFacts, CanTransition, Inv;
    OnlyGoroutine(s, g);
    WorkStepGoodAt(s, g, x);
    assert g in WorkNext(s, g, x).gors;
  }

  lemma IdleInOrder(s: Sys, s': Sys)
    requires InOrder(s) && s'.dequeued == s.dequeued && s'.finished == s.finished
    requires forall g :: g in s'.gors && s'.gors[g].pc.Work? ==> g in s.gors && s'.gors[g] == s.gors[g]
    requires forall g :: g in s.gors && s.gors[g].pc.Work? ==> g in s'.gors && s'.gors[g] == s.gors[g]
    ensures InOrder(s')
  {
  }

  lemma IdleGoroutineInOrder(s: Sys, g: nat, x: Choice)
    requires InOrder(s) && GoroutineEnabled(s, g, x) && !s.gors[g].pc.Work? && (s.gors[g].pc.Await? ==> x.fault.Some?)
    ensures InOrder(GoroutineNext(s, g, x))
  {
    hide InOrder;
    IdleInOrder(s, GoroutineNext(s, g, x));
  }

  lemma SpawnInOrder(s: Sys, c: nat, timeout: bool)
    requires Inv(s) && InOrder(s) && ControllerEnabled(s, c, timeout)
    ensures InOrder(ControllerNext(s, c, timeout))
  {
    hide SubmitterOk, PlaceOk, GoroutineOk, QueueOk, Fifo, InOrder;
    IdleInOrder(s, ControllerNext(s, c, timeout));
  }

  lemma OrderStep(s: Sys, a: Action)
    requires Inv(s) && InOrder(s) && Enabled(s, a) && |s.gors| <= 1 && |Apply(s, a).gors| <= 1
    ensures InOrder(Apply(s, a))
  {
    hide SubmitterLocal, Inv, GoroutineNext, InOrder, ControllerNext;
    match a {
      case GoroutineStep(g, x) =>
        if s.gors[g].pc.Work? {
          WorkInOrder(s, g, x);
        } else if s.gors[g].pc.Await? && x.fault.None? {
          PopInOrder(s, g, x);
        } else {
          IdleGoroutineInOrder(s, g, x);
        }
      case ControllerStep(c, timeout) => SpawnInOrder(s, c, timeout);
      case _ => IdleInOrder(s, Apply(s, a));
    }
  }

  lemma {:induction false} OrderRun(s: Sys, actions: seq<Action>)
    requires Inv(s) && InOrder(s) && IsRun(s, actions) && OneWorker(s, actions)
    ensures InOrder(End(s, actions)) && |End(s, actions).gors| <= 1
    decreases |actions|
  {
    hide Inv, Apply, Enabled, InOrder, RecordsStep;
    if actions != [] {
      StepKeeps(s, actions[0]);
      assert OneWorker(Apply(s, actions[0]), actions[1..]);
      OrderStep(s, actions[0]);
      OrderRun(Apply(s, actions[0]), actions[1..]);
    }
  }

  // Single-worker order: the tasks finished so far are a prefix of the tasks enqueued, in enqueue order,
  // and at most one more has been dequeued.
  lemma OneWorkerFinishesInOrder(size: nat, registry: set<string>, actions: seq<Action>)
    requires Reached(size, registry, actions) && OneWorker(Init(size, registry), actions)
    ensures var s := End(Init(size, registry), actions);
            s.finished <= Ids(s.enqueued) && |s.finished| <= |s.dequeued| <= |s.finished| + 1
  {
    hide Apply, Enabled;
    var s := End(Init(size, registry), actions);
    InitInv(size, registry);
    ReachedInv(size, registry, actions);
    assert InOrder(Init(size, registry));
    OrderRun(Init(size, registry), actions);
    IdsOfPrefix(s.dequeued, s.enqueued);
    if g :| g in s.gors && s.gors[g].pc.Work? {
      assert Ids(s.dequeued) == s.finished + [s.gors[g].pc.task.id];
    }
  }

  // ----- any number of workers -----

  ghost predicate FinishedAreSettled(s: Sys) {
    forall k :: 0 <= k < |s.finished| ==> s.finished[k] in s.store && s.store[s.finished[k]].place == Settled(AsyncRun)
  }

  lemma LastFinished(s: Sys, g: nat, x: Choice)
    requires Inv(s) && GoroutineEnabled(s, g, x) && s.gors[g].pc.Work?
    ensures var s' := WorkNext(s, g, x);
            var id := s.gors[g].pc.task.id;
            || s'.finished == s.finished
            || (s'.finished == s.finished + [id] && id in s'.store && s'.store[id].place == Settled(AsyncRun))
  {
    hide WorkLocal, WorkerFacts, SettledFacts, CanTransition, Inv;
    WorkStepGoodAt(s, g, x);
  }

  lemma SubmitFinishesNothing(s: Sys, a: Action)
    requires Enabled(s, a) && a.Submit?
    ensures Apply(s, a).finished == s.finished
  {
  }

  lemma FinishedStep(s: Sys, a: Action)
    requires Inv(s) && FinishedAreSettled(s) && Enabled(s, a)
    ensures FinishedAreSettled(Apply(s, a))
  {
    hide SubmitNext, EffectOf, PlaceAfter, WorkLocal, ControllerNext, Inv, RecordStep;
    StepKeeps(s, a);
    match a {
      case GoroutineStep(g, x) =>
        if s.gors[g].pc.Work? {
          LastFinished(s, g, x);
        }
      case ControllerStep(c, timeout) => ControllerFrame(s, c, timeout);
      case Submit(who, mode, id, taskType, payload, now) => SubmitFinishesNothing(s, a);
      case _ =>
    }
  }

  lemma {:induction false} FinishedRun(s: Sys, actions: seq<Action>)
    requires Inv(s) && FinishedAreSettled(s) && IsRun(s, actions)
    ensures FinishedAreSettled(End(s, actions))
    decreases |actions|
  {
    hide Inv, Apply, Enabled, FinishedAreSettled, RecordsStep;
    if actions != [] {
      StepKeeps(s, actions[0]);
      FinishedStep(s, actions[0]);
      FinishedRun(Apply(s, actions[0]), actions[1..]);
    }
  }

  // A goroutine lets go of a task only once its stored record is final and its handler has run once.
  lemma FinishedTasksAreFinal(size: nat, registry: set<string>, actions: seq<Action>, k: nat)
    requires Reached(size, registry, actions) && k < |End(Init(size, registry), actions).finished|
    ensures var s := End(Init(size, registry), actions);
            var id := s.finished[k];
            id in s.store && s.store[id].task.status.IsFinal() && HandlerRuns(Init(size, registry), actions, id) == 1
  {
    hide Apply, Enabled;
    InitInv(size, registry);
    ReachedInv(size, registry, actions);
    assert FinishedAreSettled(Init(size, registry));
    FinishedRun(Init(size, registry), actions);
    var s := End(Init(size, registry), actions);
    assert PlaceOk(s, s.finished[k]);
    HandlerRunsAtMostOnce(size, registry, actions, s.finished[k]);
  }
}
