// The worker pool under any number and interleaving of Start and Stop: the wait group, the stop channels,
// the graceful drain, and how much work can still happen after a stop.
module Shutdown {
  import opened Wrappers
  import opened Tasks
  import opened Pipeline
  import opened Ownership
  import opened Invariant
  import opened Safety

  // 1 while a Start is between wg.Add(1) and `go`.
  ghost function Spawning(s: Sys): nat {
    if s.pool.holder.Some? && s.pool.holder.value in s.ctls && s.ctls[s.pool.holder.value].StartGo? then 1 else 0
  }

  predicate Starting(c: Controller) { c.StartAdd? || c.StartGo? }

  ghost predicate AllStopped(s: Sys) {
    forall w :: 0 <= w < s.pool.size ==> w in s.pool.stopped
  }

  // No goroutine holds a task or can reach Dequeue: all stop channels are closed and every goroutine is
  // before its check or leaving.
  ghost predicate Quiet(s: Sys) {
    AllStopped(s) && forall g :: g in s.gors ==> s.gors[g].pc.Check? || s.gors[g].pc.Exiting?
  }

  // Some Stop has taken (or is about to take) its done branch.
  predicate Drained(c: Controller) {
    c.StopReady? || (c.StopClear? && c.graceful) || (c.Finished? && c.graceful)
  }

  ghost predicate ControllerOk(s: Sys, c: nat)
    requires c in s.ctls
  {
    && (Starting(s.ctls[c]) ==> s.pool.holder == Some(c))
    && (s.ctls[c].StartGo? ==> s.ctls[c].next < s.pool.size)
    && (s.ctls[c].StopWorkers? ==> forall w :: 0 <= w < s.ctls[c].next && w < s.pool.size ==> w in s.pool.stopped)
    && (s.ctls[c].StopWait? || s.ctls[c].StopClear? || Drained(s.ctls[c]) ==> AllStopped(s))
    && (Drained(s.ctls[c]) ==> Quiet(s))
  }

  ghost predicate PoolInv(s: Sys) {
    && s.pool.wg == |s.gors| + Spawning(s)
    && (s.pool.holder.Some? ==> s.pool.holder.value in s.ctls && Starting(s.ctls[s.pool.holder.value]))
    && (forall g :: g in s.gors ==> g < s.nextGoroutine && s.gors[g].worker < s.pool.size)
    && (forall c :: c in s.ctls ==> ControllerOk(s, c))
  }

  lemma SizeOfInsert<T>(m: map<nat, T>, k: nat, v: T)
    requires k !in m
    ensures |m[k := v]| == |m| + 1
  {
    assert m[k := v].Keys == m.Keys + {k};
  }

  lemma SizeOfUpdate<T>(m: map<nat, T>, k: nat, v: T)
    requires k in m
    ensures |m[k := v]| == |m|
  {
    assert m[k := v].Keys == m.Keys;
  }

  lemma SizeOfRemove<T>(m: map<nat, T>, k: nat)
    requires k in m
    ensures |m - {k}| == |m| - 1
  {
    assert (m - {k}).Keys == m.Keys - {k};
  }

  // A goroutine moves from one control point to another.
  lemma MoveKeepsPool(s: Sys, s': Sys, g: nat)
    requires PoolInv(s) && g in s.gors && g in s'.gors && s'.gors == s.gors[g := s'.gors[g]]
    requires s'.gors[g].worker == s.gors[g].worker
    requires s'.pool == s.pool && s'.ctls == s.ctls && s'.nextGoroutine == s.nextGoroutine
    requires Quiet(s) ==> s'.gors[g].pc.Exiting?
    ensures PoolInv(s') && (Quiet(s) ==> Quiet(s'))
  {
    SizeOfUpdate(s.gors, g, s'.gors[g]);
    forall c | c in s'.ctls ensures ControllerOk(s', c) {
      assert ControllerOk(s, c);
    }
  }

  lemma ExitKeepsPool(s: Sys, g: nat)
    requires PoolInv(s) && g in s.gors
    ensures PoolInv(ExitNext(s, g)) && (Quiet(s) ==> Quiet(ExitNext(s, g)))
  {
    var s' := ExitNext(s, g);
    SizeOfRemove(s.gors, g);
    forall c | c in s'.ctls ensures ControllerOk(s', c) {
      assert ControllerOk(s, c);
    }
  }

  lemma StopSeen(s: Sys, g: nat)
    requires PoolInv(s) && g in s.gors
    ensures Quiet(s) ==> s.gors[g].worker in s.pool.stopped
  {
  }

  lemma GoroutinePoolStep(s: Sys, g: nat, x: Choice)
    requires PoolInv(s) && GoroutineEnabled(s, g, x)
    ensures PoolInv(GoroutineNext(s, g, x))
    ensures Quiet(s) ==> Quiet(GoroutineNext(s, g, x)) && GoroutineNext(s, g, x).list == s.list
  {
    hide WorkLocal, PoolInv;
    if s.gors[g].pc.Exiting? {
      ExitKeepsPool(s, g);
    } else {
      StopSeen(s, g);
      MoveKeepsPool(s, GoroutineNext(s, g, x), g);
    }
  }

  // Start's two steps.
  lemma StartKeepsPool(s: Sys, c: nat)
    requires PoolInv(s) && c in s.ctls && Starting(s.ctls[c])
    ensures PoolInv(ControllerNext(s, c, false)) && (Quiet(s) ==> Quiet(ControllerNext(s, c, false)))
  {
    var s' := ControllerNext(s, c, false);
    assert ControllerOk(s, c);
    if s.ctls[c].StartGo? {
      SizeOfInsert(s.gors, s.nextGoroutine, s'.gors[s.nextGoroutine]);
    }
    forall d | d in s'.ctls ensures ControllerOk(s', d) {
      assert ControllerOk(s, d);
    }
  }

  // Stop's steps change no goroutine and not the counter.
  lemma StopMovesKeepPool(s: Sys, s': Sys, c: nat)
    requires PoolInv(s) && c in s.ctls && c in s'.ctls && s'.ctls == s.ctls[c := s'.ctls[c]]
    requires !Starting(s.ctls[c]) && !Starting(s'.ctls[c]) && ControllerOk(s', c)
    requires s'.gors == s.gors && s'.nextGoroutine == s.nextGoroutine && s.pool.stopped <= s'.pool.stopped
    requires s'.pool.wg == s.pool.wg && s'.pool.holder == s.pool.holder && s'.pool.size == s.pool.size
    ensures PoolInv(s') && (Quiet(s) ==> Quiet(s'))
  {
    forall d | d in s'.ctls ensures ControllerOk(s', d) {
      assert ControllerOk(s, d);
    }
  }

  lemma StopMoves(s: Sys, c: nat, timeout: bool)
    requires ControllerEnabled(s, c, timeout) && !Starting(s.ctls[c])
    ensures var s' := ControllerNext(s, c, timeout);
            c in s'.ctls && s'.ctls == s.ctls[c := s'.ctls[c]] && !Starting(s'.ctls[c])
  {
  }

  lemma StopFrame(s: Sys, c: nat, timeout: bool)
    requires ControllerEnabled(s, c, timeout) && !Starting(s.ctls[c])
    ensures var s' := ControllerNext(s, c, timeout);
            && s'.gors == s.gors && s'.nextGoroutine == s.nextGoroutine && s.pool.stopped <= s'.pool.stopped
            && s'.pool.wg == s.pool.wg && s'.pool.holder == s.pool.holder && s'.pool.size == s.pool.size
  {
  }

  lemma EmptyGroupIsQuiet(s: Sys)
    requires PoolInv(s) && s.pool.wg == 0
    ensures s.gors == map[] && (AllStopped(s) ==> Quiet(s))
  {
    assert |s.gors.Keys| == 0;
  }

  lemma StopControllerOk(s: Sys, c: nat, timeout: bool)
    requires PoolInv(s) && ControllerEnabled(s, c, timeout) && !Starting(s.ctls[c])
    ensures ControllerOk(ControllerNext(s, c, timeout), c)
  {
    assert ControllerOk(s, c);
    if s.ctls[c].StopWait? && !timeout {
      EmptyGroupIsQuiet(s);
    }
    hide PoolInv;
    StopMoves(s, c, timeout);
    StopFrame(s, c, timeout);
  }

  lemma StopKeepsPool(s: Sys, c: nat, timeout: bool)
    requires PoolInv(s) && ControllerEnabled(s, c, timeout) && !Starting(s.ctls[c])
    ensures PoolInv(ControllerNext(s, c, timeout)) && (Quiet(s) ==> Quiet(ControllerNext(s, c, timeout)))
  {
    hide PoolInv, ControllerOk, ControllerNext, Quiet;
    StopMoves(s, c, timeout);
    StopFrame(s, c, timeout);
    StopControllerOk(s, c, timeout);
    StopMovesKeepPool(s, ControllerNext(s, c, timeout), c);
  }

  lemma ControllerPoolStep(s: Sys, c: nat, timeout: bool)
    requires PoolInv(s) && ControllerEnabled(s, c, timeout)
    ensures PoolInv(ControllerNext(s, c, timeout)) && (Quiet(s) ==> Quiet(ControllerNext(s, c, timeout)))
    ensures ControllerNext(s, c, timeout).list == s.list
  {
    hide PoolInv, Quiet;
    if Starting(s.ctls[c]) {
      StartKeepsPool(s, c);
    } else {
      StopKeepsPool(s, c, timeout);
    }
  }

  // A call of Start or Stop begins.
  lemma BeginKeepsPool(s: Sys, a: Action)
    requires PoolInv(s) && Enabled(s, a) && (a.BeginStart? || a.BeginStop?)
    ensures PoolInv(Apply(s, a)) && (Quiet(s) ==> Quiet(Apply(s, a)))
  {
    var s' := Apply(s, a);
    forall d | d in s'.ctls ensures ControllerOk(s', d) {
      if d in s.ctls {
        assert ControllerOk(s, d);
      }
    }
  }

  lemma OtherKeepsPool(s: Sys, s': Sys)
    requires PoolInv(s) && s'.gors == s.gors && s'.ctls == s.ctls && s'.nextGoroutine == s.nextGoroutine
    requires s'.pool == s.pool.(cancelled := s'.pool.cancelled)
    ensures PoolInv(s') && (Quiet(s) ==> Quiet(s'))
  {
    forall d | d in s'.ctls ensures ControllerOk(s', d) {
      assert ControllerOk(s, d);
    }
  }

  lemma PoolStep(s: Sys, a: Action)
    requires PoolInv(s) && Enabled(s, a)
    ensures PoolInv(Apply(s, a)) && (Quiet(s) ==> Quiet(Apply(s, a)))
  {
    hide SubmitterLocal, GoroutineNext, ControllerNext, PoolInv, Quiet;
    match a {
      case GoroutineStep(g, x) => GoroutinePoolStep(s, g, x);
      case ControllerStep(c, timeout) => ControllerPoolStep(s, c, timeout);
      case BeginStart(_) => BeginKeepsPool(s, a);
      case BeginStop(_) => BeginKeepsPool(s, a);
      case _ => OtherKeepsPool(s, Apply(s, a));
    }
  }

  // ----- runs -----

  lemma {:induction false} PoolRun(s: Sys, actions: seq<Action>)
    requires PoolInv(s) && IsRun(s, actions)
    ensures PoolInv(End(s, actions))
    decreases |actions|
  {
    hide Apply, Enabled, PoolInv, Quiet;
    if actions != [] {
      PoolStep(s, actions[0]);
      PoolRun(Apply(s, actions[0]), actions[1..]);
    }
  }

  lemma ReachedPoolInv(size: nat, registry: set<string>, actions: seq<Action>)
    requires Reached(size, registry, actions)
    ensures PoolInv(End(Init(size, registry), actions))
  {
    hide Apply, Enabled;
    assert PoolInv(Init(size, registry));
    PoolRun(Init(size, registry), actions);
  }

  // The wait group counts the live goroutines, up to the one that a Start holding the mutex is about to
  // launch. It is never negative, so no wg.Done panics.
  lemma WaitGroupCountsGoroutines(size: nat, registry: set<string>, actions: seq<Action>)
    requires Reached(size, registry, actions)
    ensures var s := End(Init(size, registry), actions);
            && |s.gors| <= s.pool.wg <= |s.gors| + 1
            && (s.pool.holder.None? ==> s.pool.wg == |s.gors|)
            && (forall g :: g in s.gors ==> s.pool.wg > 0)
  {
    ReachedPoolInv(size, registry, actions);
    var s := End(Init(size, registry), actions);
    forall g | g in s.gors ensures s.pool.wg > 0 {
      assert g in s.gors.Keys && |s.gors.Keys| > 0;
    }
  }

  // A step of a goroutine past its check: a Dequeue, or work on a task.
  predicate IsWorkerStep(s: Sys, a: Action) {
    a.GoroutineStep? && a.goroutine in s.gors && (s.gors[a.goroutine].pc.Await? || s.gors[a.goroutine].pc.Work?)
  }

  ghost function WorkerSteps(s: Sys, actions: seq<Action>): nat
    requires IsRun(s, actions)
    decreases |actions|
  {
    if actions == [] then 0
    else (if IsWorkerStep(s, actions[0]) then 1 else 0) + WorkerSteps(Apply(s, actions[0]), actions[1..])
  }

  ghost predicate IsSuffix(earlier: seq<QueuedContext>, later: seq<QueuedContext>) {
    |earlier| <= |later| && later[|later| - |earlier|..] == earlier
  }

  lemma QuietStep(s: Sys, a: Action)
    requires PoolInv(s) && Quiet(s) && Enabled(s, a)
    ensures !IsWorkerStep(s, a) && Apply(s, a).dequeued == s.dequeued && IsSuffix(s.list, Apply(s, a).list)
  {
    hide EffectOf, PlaceAfter, ControllerNext, PoolInv;
    match a {
      case ControllerStep(c, timeout) => ControllerFrame(s, c, timeout);
      case _ =>
    }
  }

  lemma SuffixTransitive(a: seq<QueuedContext>, b: seq<QueuedContext>, c: seq<QueuedContext>)
    requires IsSuffix(a, b) && IsSuffix(b, c)
    ensures IsSuffix(a, c)
  {
    assert c[|c| - |a|..] == c[|c| - |b|..][|b| - |a|..];
  }

  lemma {:induction false} QuietRun(s: Sys, actions: seq<Action>)
    requires PoolInv(s) && Quiet(s) && IsRun(s, actions)
    ensures var s' := End(s, actions);
            && Quiet(s') && WorkerSteps(s, actions) == 0
            && s'.dequeued == s.dequeued && IsSuffix(s.list, s'.list)
    decreases |actions|
  {
    hide Apply, Enabled, PoolInv, Quiet, IsWorkerStep;
    if actions != [] {
      var s1 := Apply(s, actions[0]);
      PoolStep(s, actions[0]);
      QuietStep(s, actions[0]);
      QuietRun(s1, actions[1..]);
      SuffixTransitive(s.list, s1.list, End(s1, actions[1..]).list);
    }
  }

  lemma QuietIds(s: Sys)
    requires Quiet(s)
    ensures WorkerIds(s) == {}
  {
  }

  lemma SubmittersHoldUnaccepted(s: Sys)
    requires Inv(s)
    ensures forall id :: id in SubmitterIds(s) ==> id in s.store && !Accepted(s.store[id].place)
  {
    hide SubmitterFacts;
    forall id | id in SubmitterIds(s) ensures id in s.store && !Accepted(s.store[id].place) {
      var who :| who in s.subs && s.subs[who].pc.Active? && s.subs[who].id == id;
      assert SubmitterOk(s, who);
    }
  }

  // Graceful drain. Once any Stop has seen the wait group at zero, then whatever follows, further Starts
  // included, no goroutine ever dequeues or works again; the queue only grows on the left; and every
  // task is with its submitter, queued, or at rest with a final status.
  lemma GracefulStopDrains(size: nat, registry: set<string>, before: seq<Action>, after: seq<Action>, c: nat)
    requires Reached(size, registry, before) && IsRun(End(Init(size, registry), before), after)
    requires c in End(Init(size, registry), before).ctls && Drained(End(Init(size, registry), before).ctls[c])
    ensures var s := End(Init(size, registry), before);
            var s' := End(s, after);
            && WorkerSteps(s, after) == 0 && WorkerIds(s') == {}
            && s'.dequeued == s.dequeued && IsSuffix(s.list, s'.list)
            && SubmitterIds(s') + QueueIds(s') + RestingIds(s') == s'.store.Keys
            && (forall id :: id in s'.store && Accepted(s'.store[id].place) ==> id in QueueIds(s') + RestingIds(s'))
  {
    var s := End(Init(size, registry), before);
    ReachedInv(size, registry, before);
    ReachedPoolInv(size, registry, before);
    assert ControllerOk(s, c);
    hide Inv, PoolInv, Apply, Enabled, IsRun, IsSuffix;
    QuietRun(s, after);
    RunKeeps(s, after);
    var s' := End(s, after);
    QuietIds(s');
    InvCovered(s');
    hide Quiet, Accepted, WorkerIds, SubmitterIds, QueueIds, RestingIds;
    SubmittersHoldUnaccepted(s');
  }

  // ----- a Stop that is not followed by a Start -----

  ghost predicate NoStart(actions: seq<Action>) {
    forall k :: 0 <= k < |actions| ==> !actions[k].BeginStart?
  }

  // Nothing is running and no Start is under way.
  ghost predicate Empty(s: Sys) {
    s.gors == map[] && s.pool.holder.None?
  }

  lemma EmptyStep(s: Sys, a: Action)
    requires PoolInv(s) && Empty(s) && Enabled(s, a) && !a.BeginStart?
    ensures Empty(Apply(s, a))
  {
    if a.ControllerStep? {
      assert ControllerOk(s, a.caller);
    }
  }

  lemma {:induction false} EmptyRun(s: Sys, actions: seq<Action>)
    requires PoolInv(s) && Empty(s) && IsRun(s, actions) && NoStart(actions)
    ensures Empty(End(s, actions)) && PoolInv(End(s, actions))
    decreases |actions|
  {
    hide Apply, Enabled, PoolInv, Empty;
    if actions != [] {
      PoolStep(s, actions[0]);
      EmptyStep(s, actions[0]);
      EmptyRun(Apply(s, actions[0]), actions[1..]);
    }
  }

  // When a Stop's waiter finds the wait group at zero and no Start is under way, the group stays at zero
  // and no goroutine exists until somebody calls Start again.
  lemma StoppedPoolStaysEmpty(size: nat, registry: set<string>, before: seq<Action>, c: nat, after: seq<Action>)
    requires Reached(size, registry, before)
    requires var s := End(Init(size, registry), before);
             && c in s.ctls && s.ctls[c].StopWait? && s.pool.wg == 0 && s.pool.holder.None?
             && IsRun(s, after) && NoStart(after)
    ensures var s' := End(End(Init(size, registry), before), after);
            s'.gors == map[] && s'.pool.wg == 0
  {
    var s := End(Init(size, registry), before);
    ReachedPoolInv(size, registry, before);
    EmptyGroupIsQuiet(s);
    hide Apply, Enabled;
    EmptyRun(s, after);
  }

  // ----- work after a stop signal -----

  // The two signals a goroutine checks before it dequeues.
  datatype Signal = StopChannel(worker: nat) | ContextDone(generation: nat)

  predicate Raised(s: Sys, signal: Signal) {
    match signal
    case StopChannel(worker) => worker in s.pool.stopped
    case ContextDone(generation) => generation in s.pool.cancelled
  }

  predicate Concerns(signal: Signal, g: Goroutine) {
    match signal
    case StopChannel(worker) => g.worker == worker
    case ContextDone(generation) => g.generation == generation
  }

  // A call of Dequeue, successful or not, by a goroutine that the signal reaches.
  predicate IsDequeueUnder(s: Sys, a: Action, signal: Signal) {
    && a.GoroutineStep? && a.goroutine in s.gors
    && Concerns(signal, s.gors[a.goroutine]) && s.gors[a.goroutine].pc.Await?
  }

  ghost function DequeuesUnder(s: Sys, actions: seq<Action>, signal: Signal): nat
    requires IsRun(s, actions)
    decreases |actions|
  {
    if actions == [] then 0
    else (if IsDequeueUnder(s, actions[0], signal) then 1 else 0)
         + DequeuesUnder(Apply(s, actions[0]), actions[1..], signal)
  }

  // Those of one goroutine.
  ghost function DequeuesUnderBy(s: Sys, actions: seq<Action>, signal: Signal, g: nat): nat
    requires IsRun(s, actions)
    decreases |actions|
  {
    if actions == [] then 0
    else (if IsDequeueUnder(s, actions[0], signal) && actions[0].goroutine == g then 1 else 0)
         + DequeuesUnderBy(Apply(s, actions[0]), actions[1..], signal, g)
  }

  // The goroutines in its reach that are already past their check.
  ghost function PastCheck(s: Sys, signal: Signal): set<nat> {
    set g | g in s.gors && Concerns(signal, s.gors[g]) && s.gors[g].pc.Await?
  }

  // No step of another kind brings a goroutine past its check once the signal is raised.
  ghost predicate NoNewDequeuer(s: Sys, s': Sys, signal: Signal) {
    && Raised(s', signal) && (forall g :: g in s'.gors ==> g < s'.nextGoroutine)
    && PastCheck(s', signal) <= PastCheck(s, signal)
  }

  lemma SignalledControllerStep(s: Sys, c: nat, timeout: bool, signal: Signal)
    requires ControllerEnabled(s, c, timeout) && Raised(s, signal) && forall g :: g in s.gors ==> g < s.nextGoroutine
    ensures NoNewDequeuer(s, ControllerNext(s, c, timeout), signal)
  {
  }

  lemma WorkNeverAwaits(task: TaskRecord, phase: Phase, registered: bool, x: Choice)
    ensures var e := WorkLocal(task, phase, registered, x);
            e.pc.Work? || e.pc.Check?
  {
  }

  lemma SignalledGoroutineStep(s: Sys, g: nat, x: Choice, signal: Signal)
    requires GoroutineEnabled(s, g, x) && Raised(s, signal) && forall h :: h in s.gors ==> h < s.nextGoroutine
    ensures NoNewDequeuer(s, GoroutineNext(s, g, x), signal)
    ensures s.gors[g].pc.Await? ==> g !in PastCheck(GoroutineNext(s, g, x), signal)
  {
    hide WorkLocal;
    var s' := GoroutineNext(s, g, x);
    if s.gors[g].pc.Work? {
      WorkNeverAwaits(s.gors[g].pc.task, s.gors[g].pc.phase, s.gors[g].pc.task.taskType in s.registry, x);
    }
    assert forall h :: h in s'.gors && h != g ==> h in s.gors && s'.gors[h] == s.gors[h];
  }

  lemma SignalledStep(s: Sys, a: Action, signal: Signal)
    requires Enabled(s, a) && Raised(s, signal) && forall g :: g in s.gors ==> g < s.nextGoroutine
    ensures NoNewDequeuer(s, Apply(s, a), signal)
    ensures IsDequeueUnder(s, a, signal) ==>
              && a.GoroutineStep? && a.goroutine in PastCheck(s, signal)
              && a.goroutine !in PastCheck(Apply(s, a), signal)
  {
    hide SubmitterLocal, GoroutineNext, ControllerNext;
    match a {
      case GoroutineStep(g, x) => SignalledGoroutineStep(s, g, x, signal);
      case ControllerStep(c, timeout) => SignalledControllerStep(s, c, timeout, signal);
      case _ => assert Apply(s, a).gors == s.gors;
    }
  }

  lemma SubsetSize(a: set<nat>, b: set<nat>)
    requires a <= b
    ensures |a| <= |b|
  {
    if a != {} {
      var x :| x in a;
      SubsetSize(a - {x}, b - {x});
    }
  }

  lemma {:induction false} SignalledRun(s: Sys, actions: seq<Action>, signal: Signal)
    requires IsRun(s, actions) && Raised(s, signal) && forall g :: g in s.gors ==> g < s.nextGoroutine
    ensures DequeuesUnder(s, actions, signal) <= |PastCheck(s, signal)|
    decreases |actions|
  {
    hide Apply, Enabled, PastCheck, IsDequeueUnder;
    if actions != [] {
      var s' := Apply(s, actions[0]);
      SignalledStep(s, actions[0], signal);
      SignalledRun(s', actions[1..], signal);
      if IsDequeueUnder(s, actions[0], signal) {
        SubsetSize(PastCheck(s', signal), PastCheck(s, signal) - {actions[0].goroutine});
      } else {
        SubsetSize(PastCheck(s', signal), PastCheck(s, signal));
      }
    }
  }

  lemma {:induction false} SignalledRunBy(s: Sys, actions: seq<Action>, signal: Signal, g: nat)
    requires IsRun(s, actions) && Raised(s, signal) && forall h :: h in s.gors ==> h < s.nextGoroutine
    ensures DequeuesUnderBy(s, actions, signal, g) <= if g in PastCheck(s, signal) then 1 else 0
    decreases |actions|
  {
    hide Apply, Enabled, PastCheck, IsDequeueUnder;
    if actions != [] {
      SignalledStep(s, actions[0], signal);
      SignalledRunBy(Apply(s, actions[0]), actions[1..], signal, g);
    }
  }

  // Bounded work after stop: once a worker's stop channel is closed, or a Start's context is done, each
  // goroutine it reaches that is already past its check calls Dequeue at most once more, and any other one,
  // however late it is started, never does. So all together call it at most once for each of the former.
  lemma DequeuesAfterStopAreBounded(
    size: nat, registry: set<string>, before: seq<Action>, after: seq<Action>, signal: Signal)
    requires Reached(size, registry, before) && IsRun(End(Init(size, registry), before), after)
    requires Raised(End(Init(size, registry), before), signal)
    ensures var s := End(Init(size, registry), before);
            && (forall g: nat :: DequeuesUnderBy(s, after, signal, g) <= if g in PastCheck(s, signal) then 1 else 0)
            && DequeuesUnder(s, after, signal) <= |PastCheck(s, signal)|
  {
    ReachedPoolInv(size, registry, before);
    hide Apply, Enabled;
    var s := End(Init(size, registry), before);
    SignalledRun(s, after, signal);
    forall g: nat ensures DequeuesUnderBy(s, after, signal, g) <= if g in PastCheck(s, signal) then 1 else 0 {
      SignalledRunBy(s, after, signal, g);
    }
  }

  lemma SizeStep(s: Sys, a: Action)
    requires Enabled(s, a)
    ensures Apply(s, a).pool.size == s.pool.size
  {
    hide EffectOf, PlaceAfter, WorkLocal, ControllerNext;
    match a {
      case ControllerStep(c, timeout) => ControllerFrame(s, c, timeout);
      case _ =>
    }
  }

  lemma {:induction false} SizeIsFixed(s: Sys, actions: seq<Action>)
    requires IsRun(s, actions)
    ensures End(s, actions).pool.size == s.pool.size
    decreases |actions|
  {
    hide Apply, Enabled;
    if actions != [] {
      SizeStep(s, actions[0]);
      SizeIsFixed(Apply(s, actions[0]), actions[1..]);
    }
  }

  // A Stop that has started to wait has raised the signal of every worker, whatever Starts and Stops ran
  // beside it.
  lemma StopSignalsEveryWorker(size: nat, registry: set<string>, actions: seq<Action>, c: nat, worker: nat)
    requires Reached(size, registry, actions) && c in End(Init(size, registry), actions).ctls && worker < size
    requires var ctl := End(Init(size, registry), actions).ctls[c];
             ctl.StopWait? || ctl.StopReady? || ctl.StopClear?
    ensures Raised(End(Init(size, registry), actions), StopChannel(worker))
  {
    ReachedPoolInv(size, registry, actions);
    SizeIsFixed(Init(size, registry), actions);
    assert ControllerOk(End(Init(size, registry), actions), c);
  }

}
