// tasks/workers: one worker's processing of one task, its loop, and the pool's Start and Stop.
module Workers {
  import opened Wrappers
  import opened Errors
  import opened Tasks
  import opened Lifecycle
  import opened Contexts
  import opened Stores
  import opened Queues
  import opened Registries
  import opened Execution

  // A channel that is only ever closed. Closing a closed channel panics: the precondition excludes it.
  class StopChannel {
    var closed: bool

    constructor ()
      ensures !closed
    {
      closed := false;
    }

    method Close()
      requires !closed
      modifies this
      ensures closed
    {
      closed := true;
    }
  }

  // A cancellable context.Context.
  class Context {
    var done: bool

    constructor (done: bool)
      ensures this.done == done
    {
      this.done := done;
    }

    method Cancel()
      modifies this
      ensures done
    {
      done := true;
    }
  }

  // What other goroutines do to a worker's signals between two of its checks.
  datatype Interference = Quiet | CancelContext | StopWorker

  // How many checks find no signal: those before the first one that is raised.
  function PassedChecks(others: seq<Interference>, raised: bool): (passed: nat)
    ensures passed <= |others| && (raised ==> passed == 0)
    ensures forall k :: 0 <= k < passed ==> others[k].Quiet?
    ensures passed < |others| && !raised ==> !others[passed].Quiet?
  {
    if raised || others == [] || !others[0].Quiet? then 0 else 1 + PassedChecks(others[1..], false)
  }

  // How many of `calls` Dequeues, the first of them the given command, take a message of a list so long.
  function Deliveries(connection: nat -> Option<Error>, first: nat, calls: nat, length: nat): (taken: nat)
    ensures taken <= calls && taken <= length
  {
    if calls == 0 then 0
    else
      var before := Deliveries(connection, first, calls - 1, length);
      before + if connection(first + calls - 1).None? && before < length then 1 else 0
  }

  lemma NextDelivery(connection: nat -> Option<Error>, first: nat, calls: nat, length: nat)
    ensures var before := Deliveries(connection, first, calls, length);
            Deliveries(connection, first, calls + 1, length) ==
            before + if connection(first + calls).None? && before < length then 1 else 0
  {
  }

  lemma NextCheck(others: seq<Interference>, raised: bool)
    requires others != []
    ensures PassedChecks(others, raised) ==
            if raised || !others[0].Quiet? then 0 else 1 + PassedChecks(others[1..], false)
  {
  }

  class Worker {
    const id: int
    const queue: RedisTaskQueue
    const stateManager: StateManager
    const registry: HandlerRegistry
    const stopCh: StopChannel
    var stopOnce: bool

    constructor (id: int, queue: RedisTaskQueue, stateManager: StateManager, registry: HandlerRegistry)
      ensures this.id == id && this.queue == queue && this.stateManager == stateManager && this.registry == registry
      ensures fresh(stopCh) && !stopCh.closed && Valid()
    {
      this.id, this.queue, this.stateManager, this.registry := id, queue, stateManager, registry;
      stopCh := new StopChannel();
      stopOnce := false;
    }

    // The once flag is up exactly when the channel is closed, so Stop never closes it twice.
    ghost predicate Valid()
      reads this, stopCh
    {
      stopOnce <==> stopCh.closed
    }

    method Stop()
      requires Valid()
      modifies this, stopCh
      ensures Valid() && stopCh.closed
    {
      if !stopOnce {
        stopOnce := true;
        stopCh.Close();
      }
    }

    ghost function Memory(): MemoryTaskStore { stateManager.store.memory }

    // The message is one that executeAsync can have queued for a stored task.
    ghost predicate Ready(message: Message)
      reads Memory()
    {
      message.error.None? && message.task.status == Queued && message.task.id in Memory().tasks
    }

    // What a step of this worker may do to the records under one ID.
    twostate predicate Recorded(id: string, verdict: Verdict)
      requires old(Memory().tasks) == Memory().tasks
      reads Memory(), Memory().RecordOf(id)
    {
      id in Memory().tasks &&
      var record := Memory().tasks[id];
      record.View() == old(record.View()).(status := verdict.status, result := verdict.result)
    }

    // No record has changed.
    twostate predicate RecordsKept()
      reads Memory(), Memory().tasks.Values
    {
      forall t :: t in Memory().tasks.Values ==> old(allocated(t)) && t.View() == old(t.View())
    }

    // What the worker makes of a task of this type: its handler's outcome, or a failure that names the type.
    ghost function VerdictFor(taskType: string, payload: string): (verdict: Verdict)
      reads registry
      ensures match registry.OutcomeFor(taskType, payload)
              case None => verdict == Verdict(Failed, "no handler registered for task type: " + taskType)
              case Some(ran) => WorkerPromise(ran, verdict)
    {
      match registry.OutcomeFor(taskType, payload)
      case None => Verdict(Failed, NoHandlerText(taskType))
      case Some(ran) => WorkerPromiseIff(ran, WorkerVerdict(ran)); WorkerVerdict(ran)
    }

    // Dequeue one task, run its handler on the copy, and write the verdict to the store. A message that is
    // ready leaves its record with the worker's verdict; every other record is as it was.
    method ProcessNextTask()
      modifies queue, stateManager.clock, stateManager.store`updates
      modifies Memory().tasks.Values`status, Memory().tasks.Values`result
      ensures queue.dequeueCalls == old(queue.dequeueCalls) + 1 && queue.commands == old(queue.commands) + 1
      ensures queue.list == if old(queue.Delivers()) then old(queue.list)[..|old(queue.list)| - 1] else old(queue.list)
      ensures !old(queue.Delivers()) ==> RecordsKept()
      ensures old(queue.Delivers()) ==>
                var message := old(queue.list)[|old(queue.list)| - 1];
                && (forall t :: t in Memory().tasks.Values && t !in Memory().RecordOf(message.task.id) ==>
                      t.View() == old(t.View()))
                && (Ready(message) && stateManager.store.reliable ==>
                      Recorded(message.task.id, VerdictFor(message.task.taskType, message.task.payload)))
    {
      hide WorkerVerdict, WorkerPromise, CanTransition, Text;
      var ctx, err := queue.Dequeue();
      if err.Some? {
        return;
      }
      ProcessTask(ctx);
    }

    // What processNextTask does with a dequeued context, whose task is not a stored object. A context that
    // cannot move to running is left alone.
    method ProcessTask(ctx: ExecutionContext)
      requires ctx.task !in Memory().tasks.Values
      modifies ctx, ctx.task, stateManager.clock, stateManager.store`updates
      modifies Memory().RecordOf(ctx.task.id)`status, Memory().RecordOf(ctx.task.id)`result
      ensures old(ctx.task.status) == Queued ==>
                Verdict(ctx.task.status, ctx.task.result) == VerdictFor(ctx.task.taskType, ctx.task.payload)
      ensures old(ctx.task.status) == Queued && stateManager.store.reliable && ctx.task.id in Memory().tasks ==>
                Recorded(ctx.task.id, VerdictFor(ctx.task.taskType, ctx.task.payload))
      ensures !CanTransition(old(ctx.task.status), Running) && ctx.task.id in Memory().tasks ==>
                Memory().tasks[ctx.task.id].View() == old(Memory().tasks[ctx.task.id].View())
      ensures stateManager.store.updates ==
                old(stateManager.store.updates) + if CanTransition(old(ctx.task.status), Running) then 2 else 0
    {
      RunningCanFinish();
      hide CanTransition, Text, WorkerPromise, NoHandlerText;
      var err := stateManager.TransitionToRunning(ctx);
      if err.Some? {
        return;
      }
      err := ExecuteTask(ctx.task);
      if err.Some? {
        HandleTaskFailure(ctx, err.value);
        return;
      }
      var transitionErr := stateManager.TransitionToCompleted(ctx);
    }

    method ExecuteTask(task: Task) returns (err: Option<Error>)
      modifies task`result
      ensures var ran := registry.OutcomeFor(task.taskType, task.payload);
              match ran
              case None =>
                && err == Some(Plain("no handler registered for task type: " + task.taskType))
                && task.result == old(task.result)
              case Some(outcome) => Outcome(task.result, err) == outcome
    {
      var handler := registry.Get(task.taskType);
      if handler.None? {
        return Some(Plain(NoHandlerText(task.taskType)));
      }
      err := handler.value.Run(task);
    }

    method HandleTaskFailure(ctx: ExecutionContext, taskErr: Error)
      modifies ctx, ctx.task, stateManager.clock, stateManager.store`updates
      modifies Memory().RecordOf(ctx.task.id)`status, Memory().RecordOf(ctx.task.id)`result
      ensures ctx.task.result == Text(taskErr) && Shows(ctx.task.result, taskErr)
      ensures ctx.task.status == if CanTransition(old(ctx.task.status), Failed) then Failed else old(ctx.task.status)
      ensures ctx.task.id in Memory().tasks ==>
                Persisted(stateManager.store, ctx.task, ctx.task.status, ctx.task.result)
      ensures stateManager.store.updates == old(stateManager.store.updates) + 1 && ctx.error == Some(taskErr)
    {
      TextShows(taskErr);
      hide Text;
      var now := stateManager.clock.Now();
      ctx.SetError(taskErr, now);
      ctx.task.result := Text(taskErr);
      var transitionErr := stateManager.TransitionToFailed(ctx);
    }

    method Disturb(ctx: Context, other: Interference)
      requires Valid()
      modifies this, stopCh, ctx
      ensures Valid() && (ctx.done || stopCh.closed <==> old(ctx.done || stopCh.closed) || !other.Quiet?)
    {
      match other {
        case Quiet =>
        case CancelContext => ctx.Cancel();
        case StopWorker => Stop();
      }
    }

    // One round of Start's loop, after what other goroutines do before it: the select, whose default branch
    // runs only when neither signal is raised.
    method Round(ctx: Context, other: Interference) returns (stopped: bool)
      requires Valid()
      modifies this, stopCh, ctx, queue, stateManager.clock, stateManager.store`updates
      modifies Memory().tasks.Values`status, Memory().tasks.Values`result
      ensures Valid() && (stopped <==> ctx.done || stopCh.closed)
      ensures stopped <==> old(ctx.done || stopCh.closed) || !other.Quiet?
      ensures queue.dequeueCalls == old(queue.dequeueCalls) + if stopped then 0 else 1
      ensures queue.commands == old(queue.commands) + if stopped then 0 else 1
      ensures queue.list <= old(queue.list)
      ensures |queue.list| == |old(queue.list)| - if !stopped && old(queue.Delivers()) then 1 else 0
      ensures stopped ==> queue.list == old(queue.list) && RecordsKept()
    {
      hide Recorded, Ready, WorkerVerdict;
      Disturb(ctx, other);
      stopped := ctx.done || stopCh.closed;
      if !stopped {
        ProcessNextTask();
      }
    }

    // Worker.Start, cut off after a number of checks of both signals; before the k-th check other goroutines
    // may raise one, as others[k] says. It returns at the first check that finds a signal, and calls Dequeue
    // once for each check before that, a failing Dequeue included; each one that finds a message takes it.
    method Start(ctx: Context, others: seq<Interference>) returns (returned: bool)
      requires Valid()
      modifies this, stopCh, ctx, queue, stateManager.clock, stateManager.store`updates
      modifies Memory().tasks.Values`status, Memory().tasks.Values`result
      ensures Valid() && (returned <==> PassedChecks(others, old(ctx.done || stopCh.closed)) < |others|)
      ensures returned ==> ctx.done || stopCh.closed
      ensures queue.dequeueCalls == old(queue.dequeueCalls) + PassedChecks(others, old(ctx.done || stopCh.closed))
      ensures old(ctx.done || stopCh.closed) ==> queue.list == old(queue.list) && RecordsKept()
      ensures queue.list <= old(queue.list)
      ensures |old(queue.list)| - |queue.list| ==
              Deliveries(queue.connection, old(queue.commands),
                         PassedChecks(others, old(ctx.done || stopCh.closed)), |old(queue.list)|)
    {
      hide PassedChecks, Deliveries;
      ghost var raised := ctx.done || stopCh.closed;
      var k := 0;
      assert Deliveries(queue.connection, old(queue.commands), 0, |old(queue.list)|) == 0;
      while k < |others|
        invariant 0 <= k <= |others| && Valid()
        invariant queue.list <= old(queue.list)
        invariant |old(queue.list)| - |queue.list| ==
                  Deliveries(queue.connection, old(queue.commands), k, |old(queue.list)|)
        invariant queue.dequeueCalls == old(queue.dequeueCalls) + k && queue.commands == old(queue.commands) + k
        invariant PassedChecks(others, raised) == k + PassedChecks(others[k..], ctx.done || stopCh.closed)
        invariant ctx.done || stopCh.closed ==> k == 0
        invariant raised ==> ctx.done || stopCh.closed
        invariant k == 0 ==> RecordsKept()
      {
        NextCheck(others[k..], ctx.done || stopCh.closed);
        NextDelivery(queue.connection, old(queue.commands), k, |old(queue.list)|);
        returned := Round(ctx, others[k]);
        if returned {
          return;
        }
        k := k + 1;
      }
      returned := false;
    }
  }

  class WorkerPool {
    const workers: seq<Worker>
    var wg: nat
    var cancelFn: Context?
    // the goroutines launched by Start, each with its context
    var launched: seq<(Worker, Context)>

    ghost predicate Valid()
      reads this, workers, set w | w in workers :: w.stopCh
    {
      && (forall w :: w in workers ==> w.Valid())
      && (forall i, j :: 0 <= i < j < |workers| ==> workers[i] != workers[j] && workers[i].stopCh != workers[j].stopCh)
    }

    constructor (workerCount: nat, queue: RedisTaskQueue, stateManager: StateManager, registry: HandlerRegistry)
      ensures Valid() && |workers| == workerCount && wg == 0 && cancelFn == null && launched == []
      ensures forall i :: 0 <= i < |workers| ==> workers[i].id == i + 1
      ensures forall w :: w in workers ==> !w.stopCh.closed && w.queue == queue && w.stateManager == stateManager
                                           && w.registry == registry
    {
      var built: seq<Worker> := [];
      while |built| < workerCount
        invariant |built| <= workerCount
        invariant forall i :: 0 <= i < |built| ==> built[i].id == i + 1
        invariant forall w :: w in built ==> fresh(w) && fresh(w.stopCh)
        invariant forall w :: w in built ==> w.Valid() && !w.stopCh.closed && w.queue == queue
                                             && w.stateManager == stateManager && w.registry == registry
        invariant forall i, j :: 0 <= i < j < |built| ==> built[i] != built[j] && built[i].stopCh != built[j].stopCh
      {
        var worker := new Worker(|built| + 1, queue, stateManager, registry);
        built := built + [worker];
      }
      workers, wg, cancelFn, launched := built, 0, null, [];
    }

    // One goroutine per worker, all under one new context; the previous cancelFn is forgotten.
    method Start(parent: Context)
      requires Valid()
      modifies this
      ensures Valid() && wg == old(wg) + |workers|
      ensures cancelFn != null && fresh(cancelFn) && cancelFn.done == parent.done
      ensures |launched| == |old(launched)| + |workers| && launched[..|old(launched)|] == old(launched)
      ensures forall i :: 0 <= i < |workers| ==> launched[|old(launched)| + i] == (workers[i], cancelFn as Context)
    {
      var workerCtx := new Context(parent.done);
      cancelFn := workerCtx;
      var i := 0;
      while i < |workers|
        invariant 0 <= i <= |workers| && wg == old(wg) + i && cancelFn == workerCtx
        invariant workerCtx.done == parent.done && Valid()
        invariant |launched| == |old(launched)| + i && launched[..|old(launched)|] == old(launched)
        invariant forall k :: 0 <= k < i ==> launched[|old(launched)| + k] == (workers[k], workerCtx)
      {
        wg := wg + 1;
        launched := launched + [(workers[i], workerCtx)];
        i := i + 1;
      }
    }

    // Waiting for the wait group: meanwhile goroutines finish, `patience` of them before the timer fires.
    method AwaitWorkers(patience: nat) returns (graceful: bool)
      modifies this`wg
      ensures graceful <==> old(wg) <= patience
      ensures wg == if graceful then 0 else old(wg) - patience
    {
      var left := patience;
      while wg > 0 && left > 0
        invariant wg + patience == old(wg) + left
      {
        wg, left := wg - 1, left - 1;
      }
      graceful := wg == 0;
    }

    // Cancels the latest context, closes every stop channel (each at most once over all Stops), waits.
    method Stop(patience: nat) returns (graceful: bool)
      requires Valid()
      modifies this`wg, this`cancelFn, cancelFn, workers, set w | w in workers :: w.stopCh
      ensures Valid() && forall w :: w in workers ==> w.stopCh.closed
      ensures old(cancelFn) != null ==> old(cancelFn).done
      ensures cancelFn == null && launched == old(launched)
      ensures graceful <==> old(wg) <= patience
      ensures wg == if graceful then 0 else old(wg) - patience
    {
      if cancelFn != null {
        cancelFn.Cancel();
      }
      var i := 0;
      while i < |workers|
        invariant 0 <= i <= |workers| && Valid()
        invariant forall k :: 0 <= k < i ==> workers[k].stopCh.closed
        invariant old(cancelFn) != null ==> old(cancelFn).done
        invariant cancelFn == old(cancelFn) && launched == old(launched) && wg == old(wg)
      {
        workers[i].Stop();
        i := i + 1;
      }
      graceful := AwaitWorkers(patience);
      cancelFn := null;
    }

    function GetWorkerCount(): nat { |workers| }
  }
}
