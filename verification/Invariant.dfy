// The inductive invariant of the pipeline: every stored task has exactly one holder, and its record
// is what that holder's program counter says it is.
module Invariant {
  import opened Tasks
  import opened Pipeline
  import opened Ownership

  predicate Registered(s: Sys, task: TaskRecord) {
    task.taskType in s.registry
  }

  // A task whose SubmitTask returned nil in asynchronous mode is in the queue, at a worker, or run.
  predicate Accepted(place: Place) {
    place.InQueue? || place.WithWorker? || place == Settled(AsyncRun)
  }

  ghost predicate SubmitterOk(s: Sys, who: nat) {
    who in s.subs && s.subs[who].id in s.store &&
    var u := s.subs[who];
    var entry := s.store[u.id];
    match u.pc
    case Active(_) =>
      entry.place == WithSubmitter(who) && SubmitterFacts(entry.task, u, entry.calls, Registered(s, entry.task))
    case Returned(Some(err)) => err.TaskError?
    case Returned(None) =>
      if u.mode == Async then Accepted(entry.place)
      else entry.place == Settled(SyncRun) && entry.task.status == Done
  }

  // The n-th context ever enqueued, while it is still in the queue.
  ghost predicate QueueOk(s: Sys, n: nat) {
    n < |s.enqueued| && s.enqueued[n].task.id in s.store &&
    var entry := s.store[s.enqueued[n].task.id];
    entry.place == InQueue(n) && QueuedFacts(s.enqueued[n], entry.task, entry.calls, Registered(s, entry.task))
  }

  ghost predicate GoroutineOk(s: Sys, g: nat) {
    g in s.gors && (s.gors[g].pc.Work? ==>
      && s.gors[g].pc.task.id in s.store
      && var entry := s.store[s.gors[g].pc.task.id];
         entry.place == WithWorker(g) &&
         WorkerFacts(s.gors[g].pc.task, s.gors[g].pc.phase, entry.task, entry.calls, Registered(s, entry.task)))
  }

  ghost predicate PlaceOk(s: Sys, id: string) {
    id in s.store && s.store[id].task.id == id &&
    match s.store[id].place
    case WithSubmitter(who) => who in s.subs && s.subs[who].pc.Active? && s.subs[who].id == id
    case InQueue(n) => |s.dequeued| <= n < |s.enqueued| && s.enqueued[n].task.id == id
    case WithWorker(g) => g in s.gors && s.gors[g].pc.Work? && s.gors[g].pc.task.id == id
    case Settled(route) => SettledFacts(s.store[id].task, route, s.store[id].calls)
    case Dropped => false
  }

  // FIFO: what was enqueued is what was dequeued followed by the list read from right to left.
  ghost predicate Fifo(s: Sys) {
    && |s.enqueued| == |s.dequeued| + |s.list|
    && (forall n :: 0 <= n < |s.dequeued| ==> s.enqueued[n] == s.dequeued[n])
    && (forall k :: 0 <= k < |s.list| ==> s.list[k] == s.enqueued[|s.enqueued| - 1 - k])
  }

  ghost predicate Inv(s: Sys) {
    && Fifo(s)
    && (forall g :: g in s.gors ==> g < s.nextGoroutine)
    && (forall who :: who in s.subs ==> SubmitterOk(s, who))
    && (forall n :: |s.dequeued| <= n < |s.enqueued| ==> QueueOk(s, n))
    && (forall g :: g in s.gors ==> GoroutineOk(s, g))
    && (forall id :: id in s.store ==> PlaceOk(s, id))
  }

  // What a step may do to the records: none disappears, each moves by RecordStep, a settled one is frozen.
  ghost predicate RecordsStep(s: Sys, s': Sys) {
    forall id :: id in s.store ==>
      && id in s'.store && RecordStep(s.store[id].task, s'.store[id].task)
      && (s.store[id].place.Settled? ==> s'.store[id] == s.store[id])
  }

  // ----- each step keeps the invariant -----

  lemma LaunchedAtCheck(s: Sys, c: nat, timeout: bool)
    requires ControllerEnabled(s, c, timeout)
    ensures var gors := ControllerNext(s, c, timeout).gors;
            forall g :: g in gors && !gors[g].pc.Check? ==> g in s.gors && gors[g] == s.gors[g]
  {
    if s.ctls[c].StartGo? {
    } else {
      assert ControllerNext(s, c, timeout).gors == s.gors;
    }
  }

  // A step of Start or Stop touches the pool, and may launch a goroutine; nothing else.
  lemma ControllerFrame(s: Sys, c: nat, timeout: bool)
    requires ControllerEnabled(s, c, timeout)
    ensures var s' := ControllerNext(s, c, timeout);
            && s'.store == s.store && s'.registry == s.registry && s'.subs == s.subs && s'.clock == s.clock
            && s'.list == s.list && s'.enqueued == s.enqueued && s'.dequeued == s.dequeued && s'.finished == s.finished
            && s'.pool.size == s.pool.size
    ensures var gors := ControllerNext(s, c, timeout).gors;
            forall g :: g in gors && !gors[g].pc.Check? ==> g in s.gors && gors[g] == s.gors[g]
  {
    LaunchedAtCheck(s, c, timeout);
  }

  lemma InitInv(size: nat, registry: set<string>)
    ensures Inv(Init(size, registry))
  {
  }

  // s' differs from s at one task: every other record, and every holder of another task, is as it was.
  ghost predicate OnlyTask(s: Sys, s': Sys, id: string) {
    && s'.registry == s.registry && id in s'.store
    && (forall j :: j in s.store && j != id ==> j in s'.store && s'.store[j] == s.store[j])
    && (forall j :: j in s'.store && j != id ==> j in s.store)
  }

  ghost predicate HoldersKept(s: Sys, s': Sys, id: string) {
    && s'.nextGoroutine == s.nextGoroutine && (forall g :: g in s'.gors ==> g in s.gors)
    && (forall w :: w in s.subs && s.subs[w].pc.Active? && s.subs[w].id != id ==>
          w in s'.subs && s'.subs[w] == s.subs[w])
    && (forall g :: g in s.gors && s.gors[g].pc.Work? && s.gors[g].pc.task.id != id ==>
          g in s'.gors && s'.gors[g] == s.gors[g])
    && (forall n :: |s.dequeued| <= n < |s.enqueued| && s.enqueued[n].task.id != id ==>
          |s'.dequeued| <= n < |s'.enqueued| && s'.enqueued[n] == s.enqueued[n])
  }

  ghost predicate NewHoldersOk(s: Sys, s': Sys, id: string) {
    && (forall w :: w in s'.subs ==>
          (w in s.subs && s'.subs[w] == s.subs[w] && (s.subs[w].pc.Active? ==> s.subs[w].id != id))
          || SubmitterOk(s', w))
    && (forall g :: g in s'.gors ==>
          (g in s.gors && s'.gors[g] == s.gors[g] && (s.gors[g].pc.Work? ==> s.gors[g].pc.task.id != id))
          || GoroutineOk(s', g))
    && (forall n :: |s'.dequeued| <= n < |s'.enqueued| ==>
          (|s.dequeued| <= n < |s.enqueued| && s'.enqueued[n] == s.enqueued[n] && s.enqueued[n].task.id != id)
          || QueueOk(s', n))
  }

  // A task that was promised to a caller stays promised.
  predicate PromiseKept(s: Sys, s': Sys, id: string) {
    id in s.store ==> !s.store[id].place.Settled? &&
                      (Accepted(s.store[id].place) ==> id in s'.store && Accepted(s'.store[id].place))
  }

  lemma HandoffSubmitters(s: Sys, s': Sys, id: string)
    requires Inv(s) && OnlyTask(s, s', id) && NewHoldersOk(s, s', id) && PromiseKept(s, s', id)
    ensures forall w :: w in s'.subs ==> SubmitterOk(s', w)
  {
    hide SubmitterFacts;
    forall w | w in s'.subs ensures SubmitterOk(s', w) {
      if w in s.subs && s'.subs[w] == s.subs[w] && (s.subs[w].pc.Active? ==> s.subs[w].id != id) {
        assert SubmitterOk(s, w);
      }
    }
  }

  lemma HandoffQueue(s: Sys, s': Sys, id: string)
    requires Inv(s) && OnlyTask(s, s', id) && NewHoldersOk(s, s', id)
    ensures forall n :: |s'.dequeued| <= n < |s'.enqueued| ==> QueueOk(s', n)
  {
    hide QueuedFacts;
    forall n | |s'.dequeued| <= n < |s'.enqueued| ensures QueueOk(s', n) {
      if n < |s.enqueued| && |s.dequeued| <= n {
        assert QueueOk(s, n);
      }
    }
  }

  lemma HandoffGoroutines(s: Sys, s': Sys, id: string)
    requires Inv(s) && OnlyTask(s, s', id) && NewHoldersOk(s, s', id)
    ensures forall g :: g in s'.gors ==> GoroutineOk(s', g)
  {
    hide WorkerFacts;
    forall g | g in s'.gors ensures GoroutineOk(s', g) {
      if g in s.gors {
        assert GoroutineOk(s, g);
      }
    }
  }

  lemma HandoffPlaces(s: Sys, s': Sys, id: string)
    requires Inv(s) && OnlyTask(s, s', id) && HoldersKept(s, s', id) && PlaceOk(s', id)
    ensures forall j :: j in s'.store ==> PlaceOk(s', j)
  {
    hide SettledFacts;
    forall j | j in s'.store ensures PlaceOk(s', j) {
      if j != id {
        assert PlaceOk(s, j);
      }
    }
  }

  // The rule for every step that moves one task.
  lemma HandoffKeeps(s: Sys, s': Sys, id: string)
    requires Inv(s) && Fifo(s') && OnlyTask(s, s', id) && HoldersKept(s, s', id)
    requires NewHoldersOk(s, s', id) && PromiseKept(s, s', id) && PlaceOk(s', id)
    ensures Inv(s')
  {
    HandoffSubmitters(s, s', id);
    HandoffQueue(s, s', id);
    HandoffGoroutines(s, s', id);
    HandoffPlaces(s, s', id);
  }

  // A fresh ID is held by nobody.
  lemma NobodyHolds(s: Sys, id: string)
    requires Inv(s) && id !in s.store
    ensures forall w :: w in s.subs ==> s.subs[w].id != id
    ensures forall g :: g in s.gors && s.gors[g].pc.Work? ==> s.gors[g].pc.task.id != id
    ensures forall n :: |s.dequeued| <= n < |s.enqueued| ==> s.enqueued[n].task.id != id
  {
    hide SubmitterFacts, WorkerFacts, QueuedFacts;
    forall n | |s.dequeued| <= n < |s.enqueued| ensures s.enqueued[n].task.id != id {
      assert QueueOk(s, n);
    }
    forall g | g in s.gors && s.gors[g].pc.Work? ensures s.gors[g].pc.task.id != id {
      assert GoroutineOk(s, g);
    }
    forall w | w in s.subs ensures s.subs[w].id != id {
      assert SubmitterOk(s, w);
    }
  }

  lemma FreshSubmitFrame(s: Sys, who: nat, mode: Mode, id: string, taskType: string, payload: string, now: nat)
    requires Inv(s) && who !in s.subs && id !in s.store
    ensures var s' := SubmitNext(s, who, mode, id, taskType, payload, now);
            Fifo(s') && OnlyTask(s, s', id) && HoldersKept(s, s', id) && PromiseKept(s, s', id)
  {
    hide SubmitterOk, GoroutineOk, QueueOk, PlaceOk;
  }

  lemma FreshSubmitHolders(s: Sys, who: nat, mode: Mode, id: string, taskType: string, payload: string, now: nat)
    requires Inv(s) && who !in s.subs && id !in s.store
    ensures var s' := SubmitNext(s, who, mode, id, taskType, payload, now);
            NewHoldersOk(s, s', id) && PlaceOk(s', id)
  {
    NobodyHolds(s, id);
    hide Inv, GoroutineOk, QueueOk, SettledFacts;
    assert SubmitterOk(SubmitNext(s, who, mode, id, taskType, payload, now), who);
  }

  // A submission whose generated ID collides changes no record and no holder.
  lemma RefusedSubmitKeeps(s: Sys, s': Sys, who: nat)
    requires Inv(s) && who !in s.subs
    requires s'.subs.Keys == s.subs.Keys + {who} && SubmitterOk(s', who) && s'.subs[who].pc.Returned?
    requires forall w :: w in s.subs ==> s'.subs[w] == s.subs[w]
    requires s'.store == s.store && s'.registry == s.registry
    requires s'.gors == s.gors && s'.nextGoroutine == s.nextGoroutine
    requires s'.list == s.list && s'.enqueued == s.enqueued && s'.dequeued == s.dequeued
    ensures Inv(s')
  {
    hide SubmitterFacts, WorkerFacts, QueuedFacts, SettledFacts;
    forall w | w in s'.subs ensures SubmitterOk(s', w) {
      if w != who {
        assert SubmitterOk(s, w);
      }
    }
    forall n | |s'.dequeued| <= n < |s'.enqueued| ensures QueueOk(s', n) {
      assert QueueOk(s, n);
    }
    forall g | g in s'.gors ensures GoroutineOk(s', g) {
      assert GoroutineOk(s, g);
    }
    forall j | j in s'.store ensures PlaceOk(s', j) {
      assert PlaceOk(s, j);
    }
  }

  lemma SubmitKeeps(s: Sys, who: nat, mode: Mode, id: string, taskType: string, payload: string, now: nat)
    requires Inv(s) && who !in s.subs
    ensures var s' := SubmitNext(s, who, mode, id, taskType, payload, now);
            Inv(s') && RecordsStep(s, s')
  {
    hide SubmitterFacts, GoroutineOk, QueueOk, PlaceOk, CanTransition;
    var s' := SubmitNext(s, who, mode, id, taskType, payload, now);
    if id in s.store {
      assert SubmitterOk(s', who);
      RefusedSubmitKeeps(s, s', who);
    } else {
      FreshSubmitFrame(s, who, mode, id, taskType, payload, now);
      FreshSubmitHolders(s, who, mode, id, taskType, payload, now);
      HandoffKeeps(s, s', id);
    }
  }

  lemma SubmitterStepGood(s: Sys, who: nat, x: Choice)
    requires Inv(s) && SubmitterEnabled(s, who)
    ensures var u := s.subs[who];
            var e := EffectOf(s, who, x);
            var entry := s.store[u.id];
            var reg := Registered(s, entry.task);
            && (u.mode == Async ==> AsyncStepGood(entry.task, u, entry.calls, reg, e))
            && (u.mode == Sync ==> SyncStepGood(entry.task, u, entry.calls, reg, e))
  {
    hide SubmitterLocal, AsyncFacts, SyncFacts, AsyncStepGood, SyncStepGood;
    var u := s.subs[who];
    assert SubmitterOk(s, who);
    var entry := s.store[u.id];
    if u.mode == Async {
      AsyncStepKeeps(entry.task, u, entry.calls, Registered(s, entry.task), x);
    } else {
      SyncStepKeeps(entry.task, u, entry.calls, Registered(s, entry.task), x);
    }
  }

  // In every place but its holder's, a task held by this submitter does not occur.
  lemma OnlySubmitterHolds(s: Sys, who: nat)
    requires Inv(s) && who in s.subs && s.subs[who].pc.Active?
    ensures var id := s.subs[who].id;
            && id in s.store && s.store[id].place == WithSubmitter(who)
            && (forall w :: w in s.subs && w != who && s.subs[w].pc.Active? ==> s.subs[w].id != id)
            && (forall g :: g in s.gors && s.gors[g].pc.Work? ==> s.gors[g].pc.task.id != id)
            && (forall n :: |s.dequeued| <= n < |s.enqueued| ==> s.enqueued[n].task.id != id)
  {
    hide SubmitterFacts, WorkerFacts, QueuedFacts;
    assert SubmitterOk(s, who);
    forall w | w in s.subs && w != who && s.subs[w].pc.Active? ensures s.subs[w].id != s.subs[who].id {
      assert SubmitterOk(s, w);
    }
    forall g | g in s.gors && s.gors[g].pc.Work? ensures s.gors[g].pc.task.id != s.subs[who].id {
      assert GoroutineOk(s, g);
    }
    forall n | |s.dequeued| <= n < |s.enqueued| ensures s.enqueued[n].task.id != s.subs[who].id {
      assert QueueOk(s, n);
    }
  }

  lemma SubmitterFifo(s: Sys, who: nat, x: Choice)
    requires Fifo(s) && SubmitterEnabled(s, who)
    ensures Fifo(SubmitterNext(s, who, x))
  {
    hide EffectOf, PlaceAfter, WithCall, SubmitterLocal;
  }

  lemma SubmitterOnlyTask(s: Sys, who: nat, x: Choice)
    requires SubmitterEnabled(s, who)
    ensures OnlyTask(s, SubmitterNext(s, who, x), s.subs[who].id)
  {
    hide EffectOf, PlaceAfter, WithCall;
  }

  lemma SubmitterFrame(s: Sys, who: nat, x: Choice)
    requires Inv(s) && SubmitterEnabled(s, who)
    ensures var s' := SubmitterNext(s, who, x);
            var id := s.subs[who].id;
            OnlyTask(s, s', id) && HoldersKept(s, s', id) && PromiseKept(s, s', id)
  {
    OnlySubmitterHolds(s, who);
    SubmitterOnlyTask(s, who, x);
    hide EffectOf, PlaceAfter, WithCall, OnlyTask, Inv;
  }

  // After the step the task's holder is right: the submitter itself, the new queue slot, or nobody.
  lemma SubmitterHolds(s: Sys, who: nat, x: Choice)
    requires Inv(s) && SubmitterEnabled(s, who)
    ensures var s' := SubmitterNext(s, who, x);
            var id := s.subs[who].id;
            && SubmitterOk(s', who) && PlaceOk(s', id) && RecordStep(s.store[id].task, s'.store[id].task)
            && (EffectOf(s, who, x).pushed ==> QueueOk(s', |s.enqueued|))
  {
    hide SubmitterLocal, AsyncFacts, SyncFacts, SettledFacts, CanTransition;
    SubmitterStepGood(s, who, x);
    assert SubmitterOk(s, who) && PlaceOk(s, s.subs[who].id);
    assert |s.dequeued| <= |s.enqueued|;
    hide Inv;
  }

  lemma SubmitterHolders(s: Sys, who: nat, x: Choice)
    requires Inv(s) && SubmitterEnabled(s, who)
    ensures var s' := SubmitterNext(s, who, x);
            var id := s.subs[who].id;
            NewHoldersOk(s, s', id) && PlaceOk(s', id) && RecordStep(s.store[id].task, s'.store[id].task)
  {
    hide EffectOf, PlaceAfter, SubmitterOk, QueueOk, GoroutineOk, PlaceOk, RecordStep;
    SubmitterHolds(s, who, x);
    OnlySubmitterHolds(s, who);
  }

  lemma SubmitterKeeps(s: Sys, who: nat, x: Choice)
    requires Inv(s) && SubmitterEnabled(s, who)
    ensures Inv(SubmitterNext(s, who, x)) && RecordsStep(s, SubmitterNext(s, who, x))
  {
    hide SubmitterNext, SubmitterOk, GoroutineOk, QueueOk, PlaceOk, CanTransition;
    SubmitterFifo(s, who, x);
    SubmitterFrame(s, who, x);
    SubmitterHolders(s, who, x);
    HandoffKeeps(s, SubmitterNext(s, who, x), s.subs[who].id);
  }

  // In every place but its holder's, a task held by this goroutine does not occur.
  lemma OnlyWorkerHolds(s: Sys, g: nat)
    requires Inv(s) && g in s.gors && s.gors[g].pc.Work?
    ensures var id := s.gors[g].pc.task.id;
            && id in s.store && s.store[id].place == WithWorker(g)
            && (forall w :: w in s.subs && s.subs[w].pc.Active? ==> s.subs[w].id != id)
            && (forall h :: h in s.gors && h != g && s.gors[h].pc.Work? ==> s.gors[h].pc.task.id != id)
            && (forall n :: |s.dequeued| <= n < |s.enqueued| ==> s.enqueued[n].task.id != id)
  {
    hide SubmitterFacts, WorkerFacts, QueuedFacts;
    assert GoroutineOk(s, g);
    forall w | w in s.subs && s.subs[w].pc.Active? ensures s.subs[w].id != s.gors[g].pc.task.id {
      assert SubmitterOk(s, w);
    }
    forall h | h in s.gors && h != g && s.gors[h].pc.Work? ensures s.gors[h].pc.task.id != s.gors[g].pc.task.id {
      assert GoroutineOk(s, h);
    }
    forall n | |s.dequeued| <= n < |s.enqueued| ensures s.enqueued[n].task.id != s.gors[g].pc.task.id {
      assert QueueOk(s, n);
    }
  }

  // In every place but its queue slot, a queued task does not occur.
  lemma OnlyQueueHolds(s: Sys, n: nat)
    requires Inv(s) && |s.dequeued| <= n < |s.enqueued|
    ensures var id := s.enqueued[n].task.id;
            && id in s.store && s.store[id].place == InQueue(n)
            && (forall w :: w in s.subs && s.subs[w].pc.Active? ==> s.subs[w].id != id)
            && (forall g :: g in s.gors && s.gors[g].pc.Work? ==> s.gors[g].pc.task.id != id)
            && (forall m :: |s.dequeued| <= m < |s.enqueued| && m != n ==> s.enqueued[m].task.id != id)
  {
    hide SubmitterFacts, WorkerFacts, QueuedFacts;
    assert QueueOk(s, n);
    forall w | w in s.subs && s.subs[w].pc.Active? ensures s.subs[w].id != s.enqueued[n].task.id {
      assert SubmitterOk(s, w);
    }
    forall g | g in s.gors && s.gors[g].pc.Work? ensures s.gors[g].pc.task.id != s.enqueued[n].task.id {
      assert GoroutineOk(s, g);
    }
    forall m | |s.dequeued| <= m < |s.enqueued| && m != n ensures s.enqueued[m].task.id != s.enqueued[n].task.id {
      assert QueueOk(s, m);
    }
  }

  lemma PopFrame(s: Sys, g: nat, x: Choice)
    requires Inv(s) && GoroutineEnabled(s, g, x) && s.gors[g].pc.Await? && x.fault.None?
    ensures var s' := AwaitNext(s, g, x);
            var id := s.enqueued[|s.dequeued|].task.id;
            && s.list[|s.list| - 1] == s.enqueued[|s.dequeued|]
            && Fifo(s') && OnlyTask(s, s', id) && HoldersKept(s, s', id) && PromiseKept(s, s', id)
  {
    hide SubmitterFacts, WorkerFacts, SettledFacts;
    assert s.list[|s.list| - 1] == s.enqueued[|s.dequeued|];
    OnlyQueueHolds(s, |s.dequeued|);
    assert QueueOk(s, |s.dequeued|);
  }

  lemma PopHolders(s: Sys, g: nat, x: Choice)
    requires Inv(s) && GoroutineEnabled(s, g, x) && s.gors[g].pc.Await? && x.fault.None?
    requires s.list[|s.list| - 1] == s.enqueued[|s.dequeued|]
    ensures var s' := AwaitNext(s, g, x);
            var id := s.enqueued[|s.dequeued|].task.id;
            NewHoldersOk(s, s', id) && PlaceOk(s', id) && RecordStep(s.store[id].task, s'.store[id].task)
  {
    hide SubmitterFacts, SettledFacts;
    OnlyQueueHolds(s, |s.dequeued|);
    assert QueueOk(s, |s.dequeued|);
    assert GoroutineOk(AwaitNext(s, g, x), g);
  }

  // Steps that touch only the pool, the controllers and idle goroutines.
  lemma IdleKeeps(s: Sys, s': Sys)
    requires Inv(s)
    requires s'.store == s.store && s'.registry == s.registry
    requires s'.subs == s.subs && s'.list == s.list && s'.enqueued == s.enqueued && s'.dequeued == s.dequeued
    requires forall g :: g in s.gors && s.gors[g].pc.Work? ==> g in s'.gors && s'.gors[g] == s.gors[g]
    requires forall g :: g in s'.gors ==> g < s'.nextGoroutine
    requires forall g :: g in s'.gors && s'.gors[g].pc.Work? ==> g in s.gors && s.gors[g].pc.Work?
    ensures Inv(s')
  {
    hide SubmitterFacts, WorkerFacts, QueuedFacts, SettledFacts, RecordStep, SubmitterLocal, WorkLocal;
    forall w | w in s'.subs ensures SubmitterOk(s', w) {
      assert SubmitterOk(s, w);
    }
    forall n | |s'.dequeued| <= n < |s'.enqueued| ensures QueueOk(s', n) {
      assert QueueOk(s, n);
    }
    forall g | g in s'.gors ensures GoroutineOk(s', g) {
      if s'.gors[g].pc.Work? {
        assert GoroutineOk(s, g);
      }
    }
    forall id | id in s'.store ensures PlaceOk(s', id) {
      assert PlaceOk(s, id);
    }
  }

  lemma AwaitKeeps(s: Sys, g: nat, x: Choice)
    requires Inv(s) && GoroutineEnabled(s, g, x) && s.gors[g].pc.Await?
    ensures Inv(AwaitNext(s, g, x)) && RecordsStep(s, AwaitNext(s, g, x))
  {
    hide SubmitterOk, GoroutineOk, QueueOk, PlaceOk, CanTransition;
    var s' := AwaitNext(s, g, x);
    if x.fault.Some? {
      IdleKeeps(s, s');
    } else {
      PopFrame(s, g, x);
      PopHolders(s, g, x);
      HandoffKeeps(s, s', s.enqueued[|s.dequeued|].task.id);
    }
  }

  lemma WorkStepGoodAt(s: Sys, g: nat, x: Choice)
    requires Inv(s) && GoroutineEnabled(s, g, x) && s.gors[g].pc.Work?
    ensures var t := s.gors[g].pc.task;
            t.id in s.store &&
            var entry := s.store[t.id];
            var e := WorkLocal(t, s.gors[g].pc.phase, t.taskType in s.registry, x);
            && WorkStepGood(t, entry.task, Updated(entry, e.write).task, WithCall(entry.calls, e.called),
                            Registered(s, entry.task), e)
            && (e.called.Some? ==> entry.calls == [])
  {
    hide WorkLocal, WorkStepGood, SettledFacts;
    assert GoroutineOk(s, g);
    var entry := s.store[s.gors[g].pc.task.id];
    WorkStepKeeps(s.gors[g].pc.task, s.gors[g].pc.phase, entry, Registered(s, entry.task), x);
  }

  lemma WorkFrame(s: Sys, g: nat, x: Choice)
    requires Inv(s) && GoroutineEnabled(s, g, x) && s.gors[g].pc.Work?
    ensures var s' := WorkNext(s, g, x);
            var id := s.gors[g].pc.task.id;
            Fifo(s') && OnlyTask(s, s', id) && HoldersKept(s, s', id) && PromiseKept(s, s', id)
  {
    hide SubmitterFacts, WorkLocal, WorkerFacts, SettledFacts, CanTransition;
    OnlyWorkerHolds(s, g);
    WorkStepGoodAt(s, g, x);
  }

  lemma WorkHolders(s: Sys, g: nat, x: Choice)
    requires Inv(s) && GoroutineEnabled(s, g, x) && s.gors[g].pc.Work?
    ensures var s' := WorkNext(s, g, x);
            var id := s.gors[g].pc.task.id;
            NewHoldersOk(s, s', id) && PlaceOk(s', id) && RecordStep(s.store[id].task, s'.store[id].task)
  {
    hide SubmitterFacts, WorkLocal, WorkerFacts, SettledFacts, CanTransition;
    OnlyWorkerHolds(s, g);
    WorkStepGoodAt(s, g, x);
    assert PlaceOk(s, s.gors[g].pc.task.id);
    assert GoroutineOk(WorkNext(s, g, x), g);
  }

  lemma WorkKeeps(s: Sys, g: nat, x: Choice)
    requires Inv(s) && GoroutineEnabled(s, g, x) && s.gors[g].pc.Work?
    ensures Inv(WorkNext(s, g, x)) && RecordsStep(s, WorkNext(s, g, x))
  {
    hide WorkNext, SubmitterOk, GoroutineOk, QueueOk, PlaceOk, CanTransition;
    WorkFrame(s, g, x);
    WorkHolders(s, g, x);
    HandoffKeeps(s, WorkNext(s, g, x), s.gors[g].pc.task.id);
  }

  lemma RegisterKeeps(s: Sys, taskType: string)
    requires Inv(s)
    ensures Inv(s.(registry := s.registry + {taskType}))
  {
    var s' := s.(registry := s.registry + {taskType});
    forall who | who in s'.subs ensures SubmitterOk(s', who) {
      assert SubmitterOk(s, who);
    }
    forall n | |s'.dequeued| <= n < |s'.enqueued| ensures QueueOk(s', n) {
      assert QueueOk(s, n);
    }
    forall g | g in s'.gors ensures GoroutineOk(s', g) {
      assert GoroutineOk(s, g);
    }
    forall id | id in s'.store ensures PlaceOk(s', id) {
      assert PlaceOk(s, id);
    }
  }

  lemma ControllerKeeps(s: Sys, c: nat, timeout: bool)
    requires Inv(s) && ControllerEnabled(s, c, timeout)
    ensures Inv(ControllerNext(s, c, timeout)) && ControllerNext(s, c, timeout).store == s.store
  {
    hide SubmitterOk, GoroutineOk, QueueOk, PlaceOk;
    IdleKeeps(s, ControllerNext(s, c, timeout));
  }

  lemma GoroutineKeeps(s: Sys, g: nat, x: Choice)
    requires Inv(s) && GoroutineEnabled(s, g, x)
    ensures Inv(GoroutineNext(s, g, x)) && RecordsStep(s, GoroutineNext(s, g, x))
  {
    hide AwaitNext, WorkNext, SubmitterOk, GoroutineOk, QueueOk, PlaceOk, CanTransition;
    if s.gors[g].pc.Await? {
      AwaitKeeps(s, g, x);
    } else if s.gors[g].pc.Work? {
      WorkKeeps(s, g, x);
    } else {
      IdleKeeps(s, GoroutineNext(s, g, x));
    }
  }

  // Every action keeps the invariant and moves every record legally.
  lemma StepKeeps(s: Sys, a: Action)
    requires Inv(s) && Enabled(s, a)
    ensures Inv(Apply(s, a)) && RecordsStep(s, Apply(s, a))
  {
    hide SubmitNext, SubmitterNext, GoroutineNext, ControllerNext;
    hide SubmitterOk, GoroutineOk, QueueOk, PlaceOk, CanTransition;
    match a {
      case Register(taskType) => RegisterKeeps(s, taskType);
      case Submit(who, mode, id, taskType, payload, now) => SubmitKeeps(s, who, mode, id, taskType, payload, now);
      case SubmitterStep(who, x) => SubmitterKeeps(s, who, x);
      case GoroutineStep(g, x) => GoroutineKeeps(s, g, x);
      case BeginStart(_) => IdleKeeps(s, Apply(s, a));
      case BeginStop(_) => IdleKeeps(s, Apply(s, a));
      case ControllerStep(c, timeout) => ControllerKeeps(s, c, timeout);
      case CancelParent(_) => IdleKeeps(s, Apply(s, a));
    }
  }

  lemma {:induction false} RunKeeps(s: Sys, actions: seq<Action>)
    requires Inv(s) && IsRun(s, actions)
    ensures Inv(End(s, actions))
    decreases |actions|
  {
    hide Apply, Enabled, RecordsStep;
    if actions != [] {
      StepKeeps(s, actions[0]);
      RunKeeps(Apply(s, actions[0]), actions[1..]);
    }
  }
}
