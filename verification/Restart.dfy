// Whether a stopped pool can work again: exactly when some stop channel is still open.
module Restart {
  import opened Wrappers
  import opened Errors
  import opened Lifecycle
  import opened Pipeline
  import opened Safety
  import opened Shutdown

  // A call of Dequeue, successful or not, by this goroutine.
  predicate IsDequeueBy(s: Sys, a: Action, g: nat) {
    a.GoroutineStep? && a.goroutine == g && g in s.gors && s.gors[g].pc.Await?
  }

  ghost function DequeuesBy(s: Sys, actions: seq<Action>, g: nat): nat
    requires IsRun(s, actions)
    decreases |actions|
  {
    if actions == [] then 0
    else (if IsDequeueBy(s, actions[0], g) then 1 else 0) + DequeuesBy(Apply(s, actions[0]), actions[1..], g)
  }

  // ----- one goroutine -----

  // The name, worker and context of a goroutine never change, and its name is not used again.
  ghost predicate SameGoroutine(s: Sys, s': Sys, g: nat) {
    && g < s'.nextGoroutine
    && (g in s'.gors ==>
          g in s.gors && s'.gors[g].worker == s.gors[g].worker && s'.gors[g].generation == s.gors[g].generation)
  }

  lemma GoroutineIdentity(s: Sys, h: nat, x: Choice, g: nat)
    requires GoroutineEnabled(s, h, x) && g < s.nextGoroutine
    ensures SameGoroutine(s, GoroutineNext(s, h, x), g)
  {
    hide WorkLocal;
  }

  lemma ControllerIdentity(s: Sys, c: nat, timeout: bool, g: nat)
    requires ControllerEnabled(s, c, timeout) && g < s.nextGoroutine
    ensures SameGoroutine(s, ControllerNext(s, c, timeout), g)
  {
  }

  lemma IdentityStep(s: Sys, a: Action, g: nat)
    requires Enabled(s, a) && g < s.nextGoroutine
    ensures SameGoroutine(s, Apply(s, a), g)
  {
    hide SubmitterLocal, GoroutineNext, ControllerNext;
    match a {
      case GoroutineStep(h, x) => GoroutineIdentity(s, h, x, g);
      case ControllerStep(c, timeout) => ControllerIdentity(s, c, timeout, g);
      case _ => assert Apply(s, a).gors == s.gors;
    }
  }

  // For a goroutine that the signal reaches, all its calls are calls under the signal.
  lemma {:induction false} AllCallsAreUnder(s: Sys, actions: seq<Action>, signal: Signal, g: nat)
    requires IsRun(s, actions) && g < s.nextGoroutine && (g in s.gors ==> Concerns(signal, s.gors[g]))
    ensures DequeuesBy(s, actions, g) == DequeuesUnderBy(s, actions, signal, g)
    decreases |actions|
  {
    hide Apply, Enabled;
    if actions != [] {
      IdentityStep(s, actions[0], g);
      AllCallsAreUnder(Apply(s, actions[0]), actions[1..], signal, g);
    }
  }

  // A goroutine before its check that no signal reaches: it passes the check and calls Dequeue.
  lemma FreeGoroutineDequeues(s: Sys, g: nat) returns (actions: seq<Action>)
    requires g in s.gors && s.gors[g].pc.Check?
    requires s.gors[g].worker !in s.pool.stopped && s.gors[g].generation !in s.pool.cancelled
    ensures IsRun(s, actions) && DequeuesBy(s, actions, g) > 0
  {
    var step := GoroutineStep(g, Choice(s.clock, Some(Plain("")), Outcome("", None)));
    actions := [step, step];
    var s1 := Apply(s, step);
    assert actions[1..] == [step];
    assert Enabled(s1, step) && IsRun(Apply(s1, step), [step][1..]);
    assert IsRun(s1, [step]) && IsDequeueBy(s1, step, g);
    assert DequeuesBy(s1, [step], g) == 1 + DequeuesBy(Apply(s1, step), [step][1..], g);
  }

  // A goroutine before its check can ever dequeue exactly when its worker's stop channel is open and its
  // context is not done.
  lemma DequeuesAgainIff(size: nat, registry: set<string>, before: seq<Action>, g: nat)
    requires Reached(size, registry, before)
    requires var s := End(Init(size, registry), before); g in s.gors && s.gors[g].pc.Check?
    ensures var s := End(Init(size, registry), before);
            (exists after :: IsRun(s, after) && DequeuesBy(s, after, g) > 0) <==>
            s.gors[g].worker !in s.pool.stopped && s.gors[g].generation !in s.pool.cancelled
  {
    var s := End(Init(size, registry), before);
    ReachedPoolInv(size, registry, before);
    hide IsRun, Apply, Enabled;
    if s.gors[g].worker !in s.pool.stopped && s.gors[g].generation !in s.pool.cancelled {
      var after := FreeGoroutineDequeues(s, g);
    } else {
      var signal := if s.gors[g].worker in s.pool.stopped then StopChannel(s.gors[g].worker)
                    else ContextDone(s.gors[g].generation);
      forall after | IsRun(s, after) ensures DequeuesBy(s, after, g) == 0 {
        SignalledRunBy(s, after, signal, g);
        AllCallsAreUnder(s, after, signal, g);
      }
    }
  }

  // ----- the pool -----

  // All channels stay closed, and a goroutine is at its Dequeue only if it has not left it.
  ghost predicate NoNewAwait(s: Sys, s': Sys, g: nat) {
    && AllStopped(s')
    && (g in s'.gors && s'.gors[g].pc.Await? ==> g in s.gors && s.gors[g].pc.Await?)
  }

  lemma StoppedGoroutineStep(s: Sys, h: nat, x: Choice, g: nat)
    requires PoolInv(s) && AllStopped(s) && GoroutineEnabled(s, h, x)
    ensures NoNewAwait(s, GoroutineNext(s, h, x), g)
    ensures g == h && s.gors[g].pc.Await? ==>
              g in GoroutineNext(s, h, x).gors && !GoroutineNext(s, h, x).gors[g].pc.Await?
  {
    hide WorkLocal, ControllerOk;
    if s.gors[h].pc.Work? {
      var t := s.gors[h].pc.task;
      WorkNeverAwaits(t, s.gors[h].pc.phase, t.taskType in s.registry, x);
    }
  }

  lemma StoppedControllerStep(s: Sys, c: nat, timeout: bool, g: nat)
    requires AllStopped(s) && ControllerEnabled(s, c, timeout)
    ensures NoNewAwait(s, ControllerNext(s, c, timeout), g)
  {
  }

  lemma StoppedPoolStep(s: Sys, a: Action, g: nat)
    requires PoolInv(s) && AllStopped(s) && Enabled(s, a)
    ensures NoNewAwait(s, Apply(s, a), g)
    ensures IsDequeueBy(s, a, g) ==> g in Apply(s, a).gors && !Apply(s, a).gors[g].pc.Await?
  {
    hide SubmitterLocal, GoroutineNext, ControllerNext, PoolInv;
    match a {
      case GoroutineStep(h, x) => StoppedGoroutineStep(s, h, x, g);
      case ControllerStep(c, timeout) => StoppedControllerStep(s, c, timeout, g);
      case _ => assert Apply(s, a).gors == s.gors;
    }
  }

  lemma {:induction false} StoppedPoolRun(s: Sys, actions: seq<Action>, g: nat)
    requires PoolInv(s) && AllStopped(s) && IsRun(s, actions)
    ensures DequeuesBy(s, actions, g) <= if g in s.gors && s.gors[g].pc.Await? then 1 else 0
    decreases |actions|
  {
    hide PoolInv, Apply, Enabled, AllStopped;
    if actions != [] {
      PoolStep(s, actions[0]);
      StoppedPoolStep(s, actions[0], g);
      StoppedPoolRun(Apply(s, actions[0]), actions[1..], g);
    }
  }

  // After every Stop that has begun to wait, graceful or timed out: whatever follows, further Starts
  // included, a goroutine that was already past its check calls Dequeue at most once, any other one never.
  lemma AnyStopIsFinal(size: nat, registry: set<string>, before: seq<Action>, after: seq<Action>, c: nat, g: nat)
    requires Reached(size, registry, before) && IsRun(End(Init(size, registry), before), after)
    requires var s := End(Init(size, registry), before);
             c in s.ctls && (s.ctls[c].StopWait? || s.ctls[c].StopReady? || s.ctls[c].StopClear?)
    ensures var s := End(Init(size, registry), before);
            DequeuesBy(s, after, g) <= if g in s.gors && s.gors[g].pc.Await? then 1 else 0
  {
    var s := End(Init(size, registry), before);
    ReachedPoolInv(size, registry, before);
    assert ControllerOk(s, c);
    hide Apply, Enabled, PoolInv;
    StoppedPoolRun(s, after, g);
  }

  // ----- when a new Start works -----

  // Only contexts that were made can be done.
  ghost predicate KnownGenerations(s: Sys) {
    && (s.pool.cancelFn.Some? ==> s.pool.cancelFn.value < s.pool.nextGeneration)
    && (forall generation :: generation in s.pool.cancelled ==> generation < s.pool.nextGeneration)
    && (forall c :: c in s.ctls && s.ctls[c].StopCancel? && s.ctls[c].cancel.Some? ==>
          s.ctls[c].cancel.value < s.pool.nextGeneration)
  }

  lemma ControllerMoves(s: Sys, c: nat, timeout: bool)
    requires ControllerEnabled(s, c, timeout)
    ensures var ctls := ControllerNext(s, c, timeout).ctls;
            forall d :: d in ctls && ctls[d].StopCancel? ==> d in s.ctls && ctls[d] == s.ctls[d]
  {
    match s.ctls[c] {
      case StopWorkers(_) =>
      case StartAdd(_, _) =>
      case _ =>
    }
  }

  lemma WhatControllersCancel(s: Sys, c: nat, timeout: bool)
    requires ControllerEnabled(s, c, timeout)
    ensures var pool := ControllerNext(s, c, timeout).pool;
            && pool.nextGeneration == s.pool.nextGeneration
            && (pool.cancelFn == s.pool.cancelFn || pool.cancelFn.None?)
            && pool.cancelled == if s.ctls[c].StopCancel? && s.ctls[c].cancel.Some?
                                 then s.pool.cancelled + {s.ctls[c].cancel.value} else s.pool.cancelled
  {
  }

  lemma KnownGenerationsControl(s: Sys, c: nat, timeout: bool)
    requires KnownGenerations(s) && ControllerEnabled(s, c, timeout)
    ensures KnownGenerations(ControllerNext(s, c, timeout))
  {
    hide ControllerNext;
    ControllerMoves(s, c, timeout);
    WhatControllersCancel(s, c, timeout);
  }

  lemma KnownGenerationsStep(s: Sys, a: Action)
    requires KnownGenerations(s) && Enabled(s, a)
    ensures KnownGenerations(Apply(s, a))
  {
    hide SubmitterLocal, WorkLocal;
    match a {
      case GoroutineStep(g, x) =>
      case ControllerStep(c, timeout) => KnownGenerationsControl(s, c, timeout);
      case _ =>
    }
  }

  lemma {:induction false} KnownGenerationsRun(s: Sys, actions: seq<Action>)
    requires KnownGenerations(s) && IsRun(s, actions)
    ensures KnownGenerations(End(s, actions))
    decreases |actions|
  {
    hide Apply, Enabled, KnownGenerations;
    if actions != [] {
      KnownGenerationsStep(s, actions[0]);
      KnownGenerationsRun(Apply(s, actions[0]), actions[1..]);
    }
  }

  lemma Prepend(s: Sys, a: Action, rest: seq<Action>, g: nat)
    requires Enabled(s, a) && IsRun(Apply(s, a), rest)
    ensures IsRun(s, [a] + rest) && DequeuesBy(s, [a] + rest, g) >= DequeuesBy(Apply(s, a), rest, g)
  {
    hide Apply, Enabled;
    assert ([a] + rest)[0] == a && ([a] + rest)[1..] == rest;
  }

  // A Start under an open context comes to worker w, launches it, and the goroutine dequeues.
  lemma {:induction false} LaunchAndDequeue(s: Sys, c: nat, w: nat) returns (actions: seq<Action>, g: nat)
    requires c in s.ctls && Starting(s.ctls[c]) && s.ctls[c].next <= w < s.pool.size
    requires w !in s.pool.stopped && s.ctls[c].generation !in s.pool.cancelled
    ensures IsRun(s, actions) && g >= s.nextGoroutine && DequeuesBy(s, actions, g) > 0
    decreases w - s.ctls[c].next, s.ctls[c].StartAdd?
  {
    var a := ControllerStep(c, false);
    var s1 := Apply(s, a);
    var rest: seq<Action>;
    if s.ctls[c].StartGo? && s.ctls[c].next == w {
      g := s.nextGoroutine;
      rest := FreeGoroutineDequeues(s1, g);
    } else {
      rest, g := LaunchAndDequeue(s1, c, w);
    }
    Prepend(s, a, rest, g);
    actions := [a] + rest;
  }

  // How many steps the Start that holds the mutex has left.
  ghost function StepsToUnlock(s: Sys): nat {
    if s.pool.holder.None? || s.pool.holder.value !in s.ctls then 0
    else
      var ctl := s.ctls[s.pool.holder.value];
      if Starting(ctl) && ctl.next <= s.pool.size then 2 * (s.pool.size - ctl.next) + if ctl.StartAdd? then 2 else 1
      else 1
  }

  lemma HolderMoves(s: Sys)
    requires PoolInv(s) && s.pool.holder.Some?
    ensures var a := ControllerStep(s.pool.holder.value, false);
            && Enabled(s, a) && StepsToUnlock(Apply(s, a)) < StepsToUnlock(s)
            && Apply(s, a).pool.size == s.pool.size && Apply(s, a).pool.stopped == s.pool.stopped
            && Apply(s, a).ctls.Keys == s.ctls.Keys && Apply(s, a).nextGoroutine >= s.nextGoroutine
  {
    assert ControllerOk(s, s.pool.holder.value);
  }

  // A new Start waits for the one that holds the mutex, and then launches worker w.
  lemma {:induction false} RestartAndDequeue(s: Sys, c: nat, w: nat) returns (actions: seq<Action>, g: nat)
    requires PoolInv(s) && KnownGenerations(s) && c !in s.ctls && w < s.pool.size && w !in s.pool.stopped
    ensures IsRun(s, actions) && g >= s.nextGoroutine && DequeuesBy(s, actions, g) > 0
    decreases StepsToUnlock(s)
  {
    var a: Action;
    var rest: seq<Action>;
    if s.pool.holder.None? {
      a := BeginStart(c);
      rest, g := LaunchAndDequeue(Apply(s, a), c, w);
    } else {
      a := ControllerStep(s.pool.holder.value, false);
      HolderMoves(s);
      PoolStep(s, a);
      KnownGenerationsStep(s, a);
      hide PoolInv, KnownGenerations;
      rest, g := RestartAndDequeue(Apply(s, a), c, w);
    }
    Prepend(s, a, rest, g);
    actions := [a] + rest;
  }

  lemma AboveAll(used: set<nat>) returns (c: nat)
    ensures forall u :: u in used ==> u < c
    decreases |used|
  {
    c := 0;
    if u :| u in used {
      var rest := AboveAll(used - {u});
      c := if rest <= u then u + 1 else rest;
      assert forall v :: v in used ==> v == u || v in used - {u};
    }
  }

  // Restart: some goroutine started from now on can ever call Dequeue exactly when some worker's stop
  // channel is still open.
  lemma RestartWorksIff(size: nat, registry: set<string>, before: seq<Action>)
    requires Reached(size, registry, before)
    ensures var s := End(Init(size, registry), before);
            (exists after, g :: IsRun(s, after) && g >= s.nextGoroutine && DequeuesBy(s, after, g) > 0) <==>
            (exists w :: 0 <= w < s.pool.size && w !in s.pool.stopped)
  {
    var s := End(Init(size, registry), before);
    ReachedPoolInv(size, registry, before);
    assert KnownGenerations(Init(size, registry));
    KnownGenerationsRun(Init(size, registry), before);
    hide IsRun, Apply, Enabled;
    if w :| 0 <= w < s.pool.size && w !in s.pool.stopped {
      var c := AboveAll(s.ctls.Keys);
      var after, g := RestartAndDequeue(s, c, w);
    } else {
      forall after, g | IsRun(s, after) && g >= s.nextGoroutine ensures DequeuesBy(s, after, g) == 0 {
        StoppedPoolRun(s, after, g);
      }
    }
  }
}
