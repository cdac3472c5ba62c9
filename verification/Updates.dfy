// How often a task is written to the store: once for each transition that its route takes, and no more.
module Updates {
  import opened Tasks
  import opened Lifecycle
  import opened Pipeline
  import opened Ownership
  import opened Invariant
  import opened Safety

  // The action is a store.Update of this task.
  predicate IsUpdate(s: Sys, a: Action, id: string) {
    match a
    case SubmitterStep(who, _) =>
      who in s.subs && s.subs[who].id == id && s.subs[who].pc.Active? && s.subs[who].pc.phase.Persist?
    case GoroutineStep(g, _) =>
      g in s.gors && s.gors[g].pc.Work? && s.gors[g].pc.task.id == id && s.gors[g].pc.phase.Persist?
    case _ => false
  }

  ghost function UpdateCount(s: Sys, actions: seq<Action>, id: string): nat
    requires IsRun(s, actions)
    decreases |actions|
  {
    if actions == [] then 0
    else (if IsUpdate(s, actions[0], id) then 1 else 0) + UpdateCount(Apply(s, actions[0]), actions[1..], id)
  }

  function ByTransition(u: Submitter, target: TaskStatus): nat {
    match target
    case Queued => 0
    case Running => 0
    case Failed => if u.mode == Async && u.repeats == 0 then 2 else 1
    case _ => 1
  }

  // What a holder has behind it at each control point.
  function BySubmitter(u: Submitter, phase: Phase): nat {
    match phase
    case Stamp(target) => ByTransition(u, target)
    case Mark(target) => ByTransition(u, target)
    case Persist(target, _, _) => ByTransition(u, target)
    case _ => 1
  }

  function ByWorker(phase: Phase): nat {
    match phase
    case Stamp(Running) => 1
    case Mark(Running) => 1
    case Persist(Running, _, _) => 1
    case _ => 2
  }

  function ByRoute(route: Route): nat {
    match route
    case SyncRun => 2              // running; done or failed
    case AsyncRefused(_) => 3      // queued; failed; failed again
    case AsyncRun => 3             // queued; running; done or failed
  }

  ghost function Made(s: Sys, id: string): nat {
    if id !in s.store then 0
    else
      match s.store[id].place
      case WithSubmitter(who) =>
        if who in s.subs && s.subs[who].pc.Active? then BySubmitter(s.subs[who], s.subs[who].pc.phase) else 0
      case InQueue(_) => 1
      case WithWorker(g) => if g in s.gors && s.gors[g].pc.Work? then ByWorker(s.gors[g].pc.phase) else 0
      case Settled(route) => ByRoute(route)
      case Dropped => 0
  }

  // ----- one step -----

  predicate SubmitterMakes(u: Submitter, e: SubmitterEffect)
    requires u.pc.Active?
  {
    var made := BySubmitter(u, u.pc.phase) + if u.pc.phase.Persist? then 1 else 0;
    if e.sub.pc.Active? then BySubmitter(e.sub, e.sub.pc.phase) == made
    else if e.pushed then made == 1
    else ByRoute(RouteOf(e.sub)) == made
  }

  lemma AsyncMakes(r: TaskRecord, u: Submitter, cs: seq<Outcome>, registered: bool, x: Choice)
    requires u.pc.Active? && u.mode == Async && AsyncFacts(r, u, u.pc.phase, cs, registered)
    ensures SubmitterMakes(u, SubmitterLocal(r, u, registered, x))
  {
    hide KeepOrFallback, RefusalError;
  }

  lemma SyncMakes(r: TaskRecord, u: Submitter, cs: seq<Outcome>, registered: bool, x: Choice)
    requires u.pc.Active? && u.mode == Sync && SyncFacts(r, u, u.pc.phase, cs, registered)
    ensures SubmitterMakes(u, SubmitterLocal(r, u, registered, x))
  {
    hide KeepOrFallback, SyncVerdict, SyncError, Succeeded;
  }

  lemma WorkerMakes(t: TaskRecord, phase: Phase, r: TaskRecord, cs: seq<Outcome>, registered: bool, x: Choice)
    requires WorkerFacts(t, phase, r, cs, registered)
    ensures var pc := WorkLocal(t, phase, registered, x).pc;
            var made := ByWorker(phase) + if phase.Persist? then 1 else 0;
            if pc.Work? then ByWorker(pc.phase) == made else ByRoute(AsyncRun) == made
  {
  }

  lemma SubmitterMade(s: Sys, who: nat, x: Choice, id: string)
    requires Inv(s) && SubmitterEnabled(s, who)
    ensures Made(SubmitterNext(s, who, x), id) ==
            Made(s, id) + if IsUpdate(s, SubmitterStep(who, x), id) then 1 else 0
  {
    hide SubmitterLocal, AsyncFacts, SyncFacts, SettledFacts, QueueOk, GoroutineOk, Fifo, CanTransition;
    hide BySubmitter, ByWorker, ByRoute;
    var u := s.subs[who];
    assert SubmitterOk(s, who);
    SubmitterStepGood(s, who, x);
    var e := s.store[u.id];
    if u.mode == Async {
      AsyncMakes(e.task, u, e.calls, Registered(s, e.task), x);
    } else {
      SyncMakes(e.task, u, e.calls, Registered(s, e.task), x);
    }
    if id in s.store && id != u.id {
      assert PlaceOk(s, id);
    }
  }

  lemma SameType(t: TaskRecord, phase: Phase, e: Entry, registered: bool)
    requires WorkerFacts(t, phase, e.task, e.calls, registered)
    ensures t.taskType == e.task.taskType
  {
  }

  lemma WorkMade(s: Sys, g: nat, x: Choice, id: string)
    requires Inv(s) && GoroutineEnabled(s, g, x) && s.gors[g].pc.Work?
    ensures Made(WorkNext(s, g, x), id) == Made(s, id) + if IsUpdate(s, GoroutineStep(g, x), id) then 1 else 0
  {
    hide WorkLocal, WorkerFacts, SettledFacts, SubmitterOk, QueueOk, Fifo, BySubmitter, ByWorker, CanTransition;
    assert GoroutineOk(s, g);
    var t := s.gors[g].pc.task;
    var e := s.store[t.id];
    WorkStepGoodAt(s, g, x);
    assert t.taskType == e.task.taskType by { SameType(t, s.gors[g].pc.phase, e, Registered(s, e.task)); }
    WorkerMakes(t, s.gors[g].pc.phase, e.task, e.calls, Registered(s, e.task), x);
    if id in s.store && id != t.id {
      assert PlaceOk(s, id);
    }
  }

  lemma AwaitMade(s: Sys, g: nat, x: Choice, id: string)
    requires Inv(s) && GoroutineEnabled(s, g, x) && s.gors[g].pc.Await?
    ensures Made(AwaitNext(s, g, x), id) == Made(s, id)
  {
    hide SubmitterOk, GoroutineOk, BySubmitter, ByRoute, SettledFacts;
    if x.fault.None? {
      assert s.list[|s.list| - 1] == s.enqueued[|s.dequeued|];
      assert QueueOk(s, |s.dequeued|);
    }
    if id in s.store {
      assert PlaceOk(s, id);
    }
  }

  lemma IdleMade(s: Sys, s': Sys, id: string)
    requires Inv(s) && s'.store == s.store && s'.subs == s.subs
    requires forall g :: g in s.gors && s.gors[g].pc.Work? ==> g in s'.gors && s'.gors[g] == s.gors[g]
    ensures Made(s', id) == Made(s, id)
  {
    hide BySubmitter, ByWorker, ByRoute, SettledFacts;
    if id in s.store {
      assert PlaceOk(s, id);
    }
  }

  lemma SubmitMade(s: Sys, a: Action, id: string)
    requires Inv(s) && Enabled(s, a) && a.Submit?
    ensures Made(Apply(s, a), id) == Made(s, id)
  {
    hide ByWorker, ByRoute, SettledFacts;
    if id in s.store {
      assert PlaceOk(s, id);
    }
  }

  lemma ControllersKeepWork(s: Sys, c: nat, timeout: bool)
    requires Inv(s) && ControllerEnabled(s, c, timeout)
    ensures var gors := ControllerNext(s, c, timeout).gors;
            forall g :: g in s.gors ==> g in gors && gors[g] == s.gors[g]
  {
    hide SubmitterOk, GoroutineOk, QueueOk, PlaceOk;
  }

  lemma MadeStep(s: Sys, a: Action, id: string)
    requires Inv(s) && Enabled(s, a)
    ensures Made(Apply(s, a), id) == Made(s, id) + if IsUpdate(s, a, id) then 1 else 0
  {
    hide Inv, SubmitNext, SubmitterNext, AwaitNext, WorkNext, ControllerNext, Made;
    match a {
      case Submit(_, _, _, _, _, _) => SubmitMade(s, a, id);
      case SubmitterStep(who, x) => SubmitterMade(s, who, x, id);
      case GoroutineStep(g, x) =>
        if s.gors[g].pc.Await? {
          AwaitMade(s, g, x, id);
        } else if s.gors[g].pc.Work? {
          WorkMade(s, g, x, id);
        } else {
          IdleMade(s, Apply(s, a), id);
        }
      case ControllerStep(c, timeout) =>
        ControllerFrame(s, c, timeout);
        ControllersKeepWork(s, c, timeout);
        IdleMade(s, Apply(s, a), id);
      case _ => IdleMade(s, Apply(s, a), id);
    }
  }

  lemma {:induction false} MadeRun(s: Sys, actions: seq<Action>, id: string)
    requires Inv(s) && IsRun(s, actions)
    ensures Made(End(s, actions), id) == Made(s, id) + UpdateCount(s, actions, id)
    decreases |actions|
  {
    hide Inv, Apply, Enabled, Made, IsUpdate, RecordsStep;
    if actions != [] {
      StepKeeps(s, actions[0]);
      MadeStep(s, actions[0], id);
      MadeRun(Apply(s, actions[0]), actions[1..], id);
    }
  }

  // Every transition is persisted, once: over any run, the number of Updates of a task at rest is fixed by
  // its route, two for a synchronous run and three for an asynchronous one, refused or not; a queued task has
  // been written once, and an ID without a task never.
  lemma TransitionsArePersisted(size: nat, registry: set<string>, actions: seq<Action>, id: string)
    requires Reached(size, registry, actions)
    ensures var s := End(Init(size, registry), actions);
            var updates := UpdateCount(Init(size, registry), actions, id);
            && updates <= 3
            && (id !in s.store ==> updates == 0)
            && (id in QueueIds(s) ==> updates == 1)
            && (id in RestingIds(s) ==>
                  && s.store[id].place.Settled?
                  && updates == if s.store[id].place.route == SyncRun then 2 else 3)
  {
    hide Apply, Enabled, Inv;
    var s := End(Init(size, registry), actions);
    InitInv(size, registry);
    ReachedInv(size, registry, actions);
    MadeRun(Init(size, registry), actions, id);
    if id in RestingIds(s) {
      RestingIsSettled(s, id);
    }
    if id in QueueIds(s) {
      var k :| 0 <= k < |s.list| && s.list[k].task.id == id;
      SlotIds(s, k);
    }
  }
}
