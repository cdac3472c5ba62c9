// The asynchronous pipeline as a step system: any number of submitters (asynchronous or synchronous),
// one Redis list, one in-memory store, worker goroutines, and callers of the pool's Start and Stop.
// An action resolves every choice (who moves, the clock, a fault, the handler's outcome), so that
// `Apply` is a function and a run is a sequence of actions.
module Pipeline {
  import opened Wrappers
  import opened Errors
  import opened Tasks
  import opened Lifecycle

  datatype Mode = Sync | Async

  // One atomic step of a transition or of an execution, in the order of the source's calls.
  datatype Phase =
    | Stamp(target: TaskStatus)                                       // write QueuedAt / StartedAt / CompletedAt
    | Mark(target: TaskStatus)                                        // task.SetStatus(target)
    | Persist(target: TaskStatus, status: TaskStatus, result: string) // store.Update with evaluated arguments
    | Lookup                                                          // registry.Get
    | Push                                                            // queue.Enqueue
    | Call                                                            // handler.Run
    | Conclude(err: Error, overwrite: bool)                           // SetError and the failure result

  datatype Progress = Active(phase: Phase) | Returned(err: Option<Error>)

  // A SubmitTask call after its Save. Its task object IS the stored record (Save keeps the pointer),
  // so a submitter owns no copy: `id` is the pointer. `err` is execCtx.Error, `repeats` the further
  // TransitionToFailed calls to come, `pushFailed` remembers a failed Enqueue.
  datatype Submitter = Submitter(
    id: string, mode: Mode, pc: Progress, err: Option<Error>, repeats: nat, pushFailed: bool)

  // A queued ExecutionContext, serialised by value.
  datatype QueuedContext = QueuedContext(task: TaskRecord, err: Option<Error>)

  // A goroutine running Worker.Start; at `Work` it holds its own deserialised copy of the task.
  datatype GoroutinePc = Check | Await | Work(task: TaskRecord, phase: Phase) | Exiting
  datatype Goroutine = Goroutine(worker: nat, generation: nat, pc: GoroutinePc)

  // A call of WorkerPool.Start or Stop. Start holds the mutex from its first step to its last.
  datatype Controller =
    | StartAdd(generation: nat, next: nat)   // about to wg.Add(1), or to unlock when all are spawned
    | StartGo(generation: nat, next: nat)    // about to run `go`
    | StopCancel(cancel: Option<nat>)        // has read cancelFn
    | StopWorkers(next: nat)                 // closing stop channels
    | StopWait                               // the waiter goroutine waits on the wait group
    | StopReady                              // the waiter has closed `done`
    | StopClear(graceful: bool)              // about to reset cancelFn
    | Finished(graceful: bool)

  // Where a stored task is. History only: no step's effect on the rest of the state depends on it.
  datatype Route = SyncRun | AsyncRefused(pushFailed: bool) | AsyncRun
  datatype Place =
    | WithSubmitter(who: nat)
    | InQueue(ordinal: nat)
    | WithWorker(goroutine: nat)
    | Settled(route: Route)
    | Dropped

  // What the store keeps under an ID: the task object, and the history of its handler runs and whereabouts.
  datatype Entry = Entry(task: TaskRecord, calls: seq<Outcome>, place: Place)

  datatype Pool = Pool(
    size: nat,
    holder: Option<nat>,       // the mutex
    wg: int,                   // the wait group's counter
    cancelFn: Option<nat>,     // the generation it cancels
    nextGeneration: nat,
    cancelled: set<nat>,       // generations whose context is done
    stopped: set<nat>)         // workers whose stop channel is closed

  datatype Sys = Sys(
    clock: nat,
    registry: set<string>,
    store: map<string, Entry>,
    list: seq<QueuedContext>,                    // the Redis list: pushed on the left, popped on the right
    subs: map<nat, Submitter>,
    gors: map<nat, Goroutine>,
    nextGoroutine: nat,
    pool: Pool,
    ctls: map<nat, Controller>,
    // history, read by no step
    enqueued: seq<QueuedContext>,
    dequeued: seq<QueuedContext>,
    finished: seq<string>)                // tasks released by goroutines, in order

  function Init(size: nat, registry: set<string>): Sys {
    Sys(0, registry, map[], [], map[], map[], 0, Pool(size, None, 0, None, 0, {}, {}), map[], [], [], [])
  }

  // What the environment decides in a step: the clock, a queue fault, the handler's outcome.
  datatype Choice = Choice(now: nat, fault: Option<Error>, outcome: Outcome)

  datatype Action =
    | Register(taskType: string)
    | Submit(who: nat, mode: Mode, id: string, taskType: string, payload: string, now: nat)
    | SubmitterStep(who: nat, choice: Choice)
    | GoroutineStep(goroutine: nat, choice: Choice)
    | BeginStart(caller: nat)
    | BeginStop(caller: nat)
    | ControllerStep(caller: nat, timeout: bool)
    | CancelParent(generation: nat)

  // ----- submitters -----

  datatype SubmitterEffect = SubmitterEffect(task: TaskRecord, sub: Submitter, pushed: bool, called: Option<Outcome>)

  function Moves(task: TaskRecord, u: Submitter, phase: Phase): SubmitterEffect {
    SubmitterEffect(task, u.(pc := Active(phase)), false, None)
  }

  function Returns(task: TaskRecord, u: Submitter, err: Option<Error>): SubmitterEffect {
    SubmitterEffect(task, u.(pc := Returned(err)), false, None)
  }

  function SubmitterMark(task: TaskRecord, u: Submitter, target: TaskStatus): SubmitterEffect {
    match TransitionError(task.status, target)
    case None =>
      var task' := task.(status := target);
      if target == Queued then Moves(task', u, Stamp(target))
      else Moves(task', u, Persist(target, task'.status, task'.result))
    case Some(err) =>
      (match target
       case Queued => Moves(task, u.(repeats := 0), Conclude(err, false))
       case Running => Returns(task, u, Some(err))
       case Failed => Moves(task, u, Persist(target, task.status, task.result))
       case _ => Returns(task, u, None))
  }

  // The runner returned an error: executeAsync overwrites the result and fails the task twice.
  function RunnerFails(task: TaskRecord, u: Submitter, err: Error): SubmitterEffect {
    Moves(task, u.(repeats := if u.mode == Async then 1 else 0), Conclude(err, u.mode == Async))
  }

  // Workflow.Execute on the submitter's object, one atomic step.
  function SubmitterLocal(task: TaskRecord, u: Submitter, registered: bool, x: Choice): SubmitterEffect
    requires u.pc.Active?
  {
    match u.pc.phase
    case Stamp(target) =>
      var task' := Stamped(task, target, x.now);
      if target == Queued then Moves(task', u, Persist(target, task'.status, ""))
      else Moves(task', u, Mark(target))
    case Mark(target) => SubmitterMark(task, u, target)
    case Persist(target, status, result) =>
      // the record updated is the submitter's own object
      var task' := task.(status := status, result := result);
      (match target
       case Queued => Moves(task', u, Lookup)
       case Running => Moves(task', u, Lookup)
       case Failed => if u.repeats > 0 then Moves(task', u.(repeats := u.repeats - 1), Stamp(Failed))
                      else Returns(task', u, u.err)
       case _ => Returns(task', u, None))
    case Lookup =>
      if registered then Moves(task, u, if u.mode == Async then Push else Call)
      else RunnerFails(task, u, NewNotFoundError(NoHandlerText(task.taskType)))
    case Push =>
      (match x.fault
       case None => Returns(task, u, None).(pushed := true)
       case Some(err) => RunnerFails(task, u.(pushFailed := true), Classify(err, "failed to enqueue task")))
    case Call =>
      var task' := task.(result := x.outcome.result);
      (match x.outcome.err
       case None => Moves(task', u, Stamp(Done))
       case Some(err) => RunnerFails(task', u, Classify(err, "task execution failed"))).(called := Some(x.outcome))
    case Conclude(err, overwrite) =>
      var result := if overwrite then Text(err) else task.result;
      Moves(task.(result := KeepOrFallback(result, err)), u.(err := Some(err)), Stamp(Failed))
  }

  function RouteOf(u: Submitter): Route {
    if u.mode == Sync then SyncRun else AsyncRefused(u.pushFailed)
  }

  function WithCall(calls: seq<Outcome>, called: Option<Outcome>): seq<Outcome> {
    if called.Some? then calls + [called.value] else calls
  }

  predicate SubmitterEnabled(s: Sys, who: nat) {
    who in s.subs && s.subs[who].pc.Active? && s.subs[who].id in s.store
  }

  function EffectOf(s: Sys, who: nat, x: Choice): SubmitterEffect
    requires SubmitterEnabled(s, who)
  {
    var task := s.store[s.subs[who].id].task;
    SubmitterLocal(task, s.subs[who], task.taskType in s.registry, x)
  }

  // Where a submitter's step leaves its task.
  function PlaceAfter(s: Sys, who: nat, e: SubmitterEffect): Place {
    if e.pushed then InQueue(|s.enqueued|)
    else if e.sub.pc.Returned? then Settled(RouteOf(e.sub))
    else WithSubmitter(who)
  }

  function SubmitterNext(s: Sys, who: nat, x: Choice): Sys
    requires SubmitterEnabled(s, who)
  {
    var id := s.subs[who].id;
    var e := EffectOf(s, who, x);
    var entry := Entry(e.task, WithCall(s.store[id].calls, e.called), PlaceAfter(s, who, e));
    var ctx := QueuedContext(e.task, e.sub.err);
    s.(clock := x.now,
       store := s.store[id := entry],
       subs := s.subs[who := e.sub],
       list := if e.pushed then [ctx] + s.list else s.list,
       enqueued := if e.pushed then s.enqueued + [ctx] else s.enqueued)
  }

  // NewTask and Save. A refused Save returns the internal error and touches nothing else.
  function SubmitNext(s: Sys, who: nat, mode: Mode, id: string, taskType: string, payload: string, now: nat): Sys {
    if id in s.store then
      var answer := Returned(Some(NewInternalError("failed to save task")));
      s.(clock := now, subs := s.subs[who := Submitter(id, mode, answer, None, 0, false)])
    else
      var first := if mode == Async then Mark(Queued) else Stamp(Running);
      s.(clock := now,
         store := s.store[id := Entry(NewRecord(id, taskType, payload, now), [], WithSubmitter(who))],
         subs := s.subs[who := Submitter(id, mode, Active(first), None, 0, false)])
  }

  // ----- worker goroutines -----

  // `write` is the store.Update of the step; a goroutine that goes back to its check lets go of the task.
  datatype WorkEffect = WorkEffect(pc: GoroutinePc, write: Option<Verdict>, called: Option<Outcome>)

  function Works(task: TaskRecord, phase: Phase): WorkEffect {
    WorkEffect(Work(task, phase), None, None)
  }

  // processNextTask after its Dequeue, one atomic step on the goroutine's copy.
  function WorkLocal(task: TaskRecord, phase: Phase, registered: bool, x: Choice): WorkEffect {
    match phase
    case Stamp(target) => Works(Stamped(task, target, x.now), Mark(target))
    case Mark(target) =>
      if CanTransition(task.status, target) then
        Works(task.(status := target), Persist(target, target, task.result))
      else if target == Failed then Works(task, Persist(target, task.status, task.result))
      else WorkEffect(Check, None, None)
    case Persist(target, status, result) =>
      WorkEffect(if target == Running then Work(task, Lookup) else Check, Some(Verdict(status, result)), None)
    case Lookup =>
      if registered then Works(task, Call)
      else Works(task, Conclude(Plain(NoHandlerText(task.taskType)), true))
    case Call =>
      var task' := task.(result := x.outcome.result);
      (match x.outcome.err
       case None => Works(task', Stamp(Done))
       case Some(err) => Works(task', Conclude(err, true))).(called := Some(x.outcome))
    case Conclude(err, _) => Works(task.(result := Text(err)), Stamp(Failed))
    case Push => WorkEffect(Check, None, None)  // not a step of a worker
  }

  predicate GoroutineEnabled(s: Sys, g: nat, x: Choice) {
    g in s.gors && (s.gors[g].pc.Await? && x.fault.None? ==> s.list != [])
  }

  // The select of Worker.Start: the default branch runs only when neither channel is ready.
  function CheckNext(s: Sys, g: nat): Sys
    requires g in s.gors
  {
    var stop := s.gors[g].generation in s.pool.cancelled || s.gors[g].worker in s.pool.stopped;
    s.(gors := s.gors[g := s.gors[g].(pc := if stop then Exiting else Await)])
  }

  function Placed(store: map<string, Entry>, id: string, place: Place): map<string, Entry> {
    if id in store then store[id := store[id].(place := place)] else store
  }

  // BRPop and the decoding. A context with an error does not decode: it is popped and lost.
  function AwaitNext(s: Sys, g: nat, x: Choice): Sys
    requires GoroutineEnabled(s, g, x) && s.gors[g].pc.Await?
  {
    if x.fault.Some? then
      s.(clock := x.now, gors := s.gors[g := s.gors[g].(pc := Check)])
    else
      var ctx := s.list[|s.list| - 1];
      s.(clock := x.now,
         list := s.list[..|s.list| - 1],
         dequeued := s.dequeued + [ctx],
         gors := s.gors[g := s.gors[g].(pc := if ctx.err.Some? then Check else Work(ctx.task, Stamp(Running)))],
         store := Placed(s.store, ctx.task.id, if ctx.err.Some? then Dropped else WithWorker(g)))
  }

  // store.Update: an unknown ID is an error, which every transition of a worker ignores.
  function Updated(entry: Entry, write: Option<Verdict>): Entry {
    if write.None? then entry
    else entry.(task := entry.task.(status := write.value.status, result := write.value.result))
  }

  function WorkNext(s: Sys, g: nat, x: Choice): Sys
    requires GoroutineEnabled(s, g, x) && s.gors[g].pc.Work?
  {
    var t := s.gors[g].pc.task;
    var e := WorkLocal(t, s.gors[g].pc.phase, t.taskType in s.registry, x);
    var place := if e.pc.Work? then WithWorker(g) else if e.write.Some? then Settled(AsyncRun) else Dropped;
    s.(clock := x.now,
       gors := s.gors[g := s.gors[g].(pc := e.pc)],
       store := if t.id !in s.store then s.store
                else var entry := Updated(s.store[t.id], e.write);
                     s.store[t.id := entry.(calls := WithCall(entry.calls, e.called), place := place)],
       finished := if e.pc.Check? then s.finished + [t.id] else s.finished)
  }

  function ExitNext(s: Sys, g: nat): Sys
    requires g in s.gors
  {
    s.(gors := s.gors - {g}, pool := s.pool.(wg := s.pool.wg - 1))
  }

  function GoroutineNext(s: Sys, g: nat, x: Choice): Sys
    requires GoroutineEnabled(s, g, x)
  {
    match s.gors[g].pc
    case Check => CheckNext(s, g)
    case Await => AwaitNext(s, g, x)
    case Work(_, _) => WorkNext(s, g, x)
    case Exiting => ExitNext(s, g)
  }

  // ----- the pool -----

  predicate ControllerEnabled(s: Sys, c: nat, timeout: bool) {
    && c in s.ctls
    && !s.ctls[c].Finished?
    && (s.ctls[c].StopWait? ==> timeout || s.pool.wg == 0)
    && (s.ctls[c].StopClear? ==> s.pool.holder.None?)
  }

  function ControllerNext(s: Sys, c: nat, timeout: bool): Sys
    requires ControllerEnabled(s, c, timeout)
  {
    match s.ctls[c]
    case StartAdd(generation, next) =>
      if next < s.pool.size then
        s.(ctls := s.ctls[c := StartGo(generation, next)], pool := s.pool.(wg := s.pool.wg + 1))
      else
        s.(ctls := s.ctls[c := Finished(false)], pool := s.pool.(holder := None))
    case StartGo(generation, next) =>
      s.(ctls := s.ctls[c := StartAdd(generation, next + 1)],
         gors := s.gors[s.nextGoroutine := Goroutine(next, generation, Check)],
         nextGoroutine := s.nextGoroutine + 1)
    case StopCancel(cancel) =>
      s.(ctls := s.ctls[c := StopWorkers(0)],
         pool := if cancel.Some? then s.pool.(cancelled := s.pool.cancelled + {cancel.value}) else s.pool)
    case StopWorkers(next) =>
      if next < s.pool.size then
        s.(ctls := s.ctls[c := StopWorkers(next + 1)], pool := s.pool.(stopped := s.pool.stopped + {next}))
      else
        s.(ctls := s.ctls[c := StopWait])
    case StopWait => s.(ctls := s.ctls[c := if timeout then StopClear(false) else StopReady])
    case StopReady => s.(ctls := s.ctls[c := StopClear(!timeout)])
    case StopClear(graceful) =>
      s.(ctls := s.ctls[c := Finished(graceful)], pool := s.pool.(cancelFn := None))
    case Finished(_) => s
  }

  // Start takes the mutex, makes a new context and overwrites cancelFn.
  function StartNext(s: Sys, c: nat): Sys {
    s.(ctls := s.ctls[c := StartAdd(s.pool.nextGeneration, 0)],
       pool := s.pool.(holder := Some(c),
                       cancelFn := Some(s.pool.nextGeneration),
                       nextGeneration := s.pool.nextGeneration + 1))
  }

  // ----- runs -----

  ghost predicate Enabled(s: Sys, a: Action) {
    match a
    case Register(_) => true
    case Submit(who, _, _, _, _, now) => who !in s.subs && s.clock <= now
    case SubmitterStep(who, x) => SubmitterEnabled(s, who) && s.clock <= x.now
    case GoroutineStep(g, x) => GoroutineEnabled(s, g, x) && s.clock <= x.now
    case BeginStart(c) => c !in s.ctls && s.pool.holder.None?
    case BeginStop(c) => c !in s.ctls && s.pool.holder.None?
    case ControllerStep(c, timeout) => ControllerEnabled(s, c, timeout)
    case CancelParent(generation) => generation < s.pool.nextGeneration
  }

  ghost function Apply(s: Sys, a: Action): Sys
    requires Enabled(s, a)
  {
    match a
    case Register(taskType) => s.(registry := s.registry + {taskType})
    case Submit(who, mode, id, taskType, payload, now) => SubmitNext(s, who, mode, id, taskType, payload, now)
    case SubmitterStep(who, x) => SubmitterNext(s, who, x)
    case GoroutineStep(g, x) => GoroutineNext(s, g, x)
    case BeginStart(c) => StartNext(s, c)
    case BeginStop(c) => s.(ctls := s.ctls[c := StopCancel(s.pool.cancelFn)])
    case ControllerStep(c, timeout) => ControllerNext(s, c, timeout)
    case CancelParent(generation) => s.(pool := s.pool.(cancelled := s.pool.cancelled + {generation}))
  }

  ghost predicate IsRun(s: Sys, actions: seq<Action>)
    decreases |actions|
  {
    actions == [] || (Enabled(s, actions[0]) && IsRun(Apply(s, actions[0]), actions[1..]))
  }

  ghost function End(s: Sys, actions: seq<Action>): Sys
    requires IsRun(s, actions)
    decreases |actions|
  {
    if actions == [] then s else End(Apply(s, actions[0]), actions[1..])
  }

  lemma {:induction false} RunsJoin(s: Sys, a: seq<Action>, b: seq<Action>)
    requires IsRun(s, a) && IsRun(End(s, a), b)
    ensures IsRun(s, a + b) && End(s, a + b) == End(End(s, a), b)
    decreases |a|
  {
    hide Apply, Enabled;
    if a == [] {
      assert a + b == b;
    } else {
      RunsJoin(Apply(s, a[0]), a[1..], b);
      assert (a + b)[0] == a[0] && (a + b)[1..] == a[1..] + b;
    }
  }

  lemma OneMore(s: Sys, actions: seq<Action>, a: Action)
    requires IsRun(s, actions) && Enabled(End(s, actions), a)
    ensures IsRun(s, actions + [a]) && End(s, actions + [a]) == Apply(End(s, actions), a)
  {
    hide Apply, Enabled;
    var s1 := End(s, actions);
    assert [a][0] == a && [a][1..] == [] && IsRun(Apply(s1, a), []) && IsRun(s1, [a]);
    assert End(s1, [a]) == Apply(s1, a);
    RunsJoin(s, actions, [a]);
  }

  lemma FirstStep(s: Sys, a: Action, rest: seq<Action>)
    requires Enabled(s, a) && IsRun(Apply(s, a), rest)
    ensures IsRun(s, [a] + rest) && End(s, [a] + rest) == End(Apply(s, a), rest)
  {
    hide Apply, Enabled;
    assert ([a] + rest)[0] == a && ([a] + rest)[1..] == rest;
  }
}
