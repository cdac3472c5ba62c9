// Who raises the two stop signals, and what a Start launches: the context of a Start is done exactly when its
// parent is, or when a Stop that read its cancelFn has called it; a channel is closed exactly by a Stop.
module Signals {
  import opened Wrappers
  import opened Pipeline
  import opened Invariant
  import opened Safety
  import opened Shutdown

  // ----- what raises a signal -----

  // The action cancels the context of this generation.
  predicate Cancels(s: Sys, a: Action, generation: nat) {
    match a
    case CancelParent(parent) => parent == generation
    case ControllerStep(c, _) => c in s.ctls && s.ctls[c] == StopCancel(Some(generation))
    case _ => false
  }

  // The action closes the stop channel of this worker.
  predicate Closes(s: Sys, a: Action, worker: nat) {
    a.ControllerStep? && a.caller in s.ctls && s.ctls[a.caller] == StopWorkers(worker) && worker < s.pool.size
  }

  predicate Raises(s: Sys, a: Action, signal: Signal) {
    match signal
    case ContextDone(generation) => Cancels(s, a, generation)
    case StopChannel(worker) => Closes(s, a, worker)
  }

  ghost predicate RaisedIn(s: Sys, actions: seq<Action>, signal: Signal)
    requires IsRun(s, actions)
    decreases |actions|
  {
    actions != [] && (Raises(s, actions[0], signal) || RaisedIn(Apply(s, actions[0]), actions[1..], signal))
  }

  // What a step of Start or Stop makes of the pool.
  lemma ControllerCancels(s: Sys, c: nat, timeout: bool)
    requires ControllerEnabled(s, c, timeout)
    ensures ControllerNext(s, c, timeout).pool.cancelled ==
            if s.ctls[c].StopCancel? && s.ctls[c].cancel.Some? then s.pool.cancelled + {s.ctls[c].cancel.value}
            else s.pool.cancelled
  {
  }

  lemma ControllerCloses(s: Sys, c: nat, timeout: bool)
    requires ControllerEnabled(s, c, timeout)
    ensures ControllerNext(s, c, timeout).pool.stopped ==
            if s.ctls[c].StopWorkers? && s.ctls[c].next < s.pool.size then s.pool.stopped + {s.ctls[c].next}
            else s.pool.stopped
  {
  }

  lemma ControllerForgets(s: Sys, c: nat, timeout: bool)
    requires ControllerEnabled(s, c, timeout)
    ensures var pool := ControllerNext(s, c, timeout).pool;
            && pool.cancelFn == (if s.ctls[c].StopClear? then None else s.pool.cancelFn)
            && pool.nextGeneration == s.pool.nextGeneration
  {
  }

  // Submitters, goroutines and registrations change nothing of the pool but the wait group.
  lemma OthersKeepPool(s: Sys, a: Action)
    requires Enabled(s, a) && (a.Register? || a.Submit? || a.SubmitterStep? || a.GoroutineStep?)
    ensures Apply(s, a).pool == s.pool.(wg := Apply(s, a).pool.wg) && Apply(s, a).ctls == s.ctls
  {
    hide EffectOf, PlaceAfter, WorkLocal;
  }

  lemma SignalStep(s: Sys, a: Action, signal: Signal)
    requires Enabled(s, a)
    ensures Raised(Apply(s, a), signal) <==> Raised(s, signal) || Raises(s, a, signal)
  {
    hide SubmitNext, SubmitterNext, GoroutineNext, ControllerNext;
    match a {
      case ControllerStep(c, timeout) =>
        ControllerCancels(s, c, timeout);
        ControllerCloses(s, c, timeout);
      case BeginStart(_) =>
      case BeginStop(_) =>
      case CancelParent(_) =>
      case _ => OthersKeepPool(s, a);
    }
  }

  // Over every run from every state, a signal is up at the end exactly when it was up at the start or an
  // action raised it: the parent's cancellation, a Stop that calls the cancelFn it has read, or a Stop that
  // closes the channel. No signal is ever taken back.
  lemma {:induction false} SignalsAreRaisedExactly(s: Sys, actions: seq<Action>, signal: Signal)
    requires IsRun(s, actions)
    ensures Raised(End(s, actions), signal) <==> Raised(s, signal) || RaisedIn(s, actions, signal)
    decreases |actions|
  {
    hide Apply, Enabled, Raised, Raises;
    if actions != [] {
      SignalStep(s, actions[0], signal);
      SignalsAreRaisedExactly(Apply(s, actions[0]), actions[1..], signal);
    }
  }

  // The parent of a context that was made can cancel it at any time.
  lemma ParentCancels(s: Sys, generation: nat)
    requires generation < s.pool.nextGeneration
    ensures var a := CancelParent(generation); Enabled(s, a) && Raised(Apply(s, a), ContextDone(generation))
  {
  }

  // ----- which context a Stop finds -----

  ghost function Starts(actions: seq<Action>): nat {
    if actions == [] then 0 else (if actions[0].BeginStart? then 1 else 0) + Starts(actions[1..])
  }

  // The number of the latest Start, unless a Stop has ended since; `held` and `starts` are those so far.
  ghost function LatestStart(s: Sys, actions: seq<Action>, held: Option<nat>, starts: nat): Option<nat>
    requires IsRun(s, actions)
    decreases |actions|
  {
    if actions == [] then held
    else
      match actions[0]
      case BeginStart(_) => LatestStart(Apply(s, actions[0]), actions[1..], Some(starts), starts + 1)
      case ControllerStep(c, _) =>
        LatestStart(Apply(s, actions[0]), actions[1..],
                    if c in s.ctls && s.ctls[c].StopClear? then None else held, starts)
      case _ => LatestStart(Apply(s, actions[0]), actions[1..], held, starts)
  }

  lemma LatestStep(s: Sys, a: Action)
    requires Enabled(s, a)
    ensures var pool := Apply(s, a).pool;
            && pool.nextGeneration == s.pool.nextGeneration + (if a.BeginStart? then 1 else 0)
            && pool.cancelFn == if a.BeginStart? then Some(s.pool.nextGeneration)
                                else if a.ControllerStep? && s.ctls[a.caller].StopClear? then None
                                else s.pool.cancelFn
  {
    hide SubmitNext, SubmitterNext, GoroutineNext, ControllerNext;
    match a {
      case ControllerStep(c, timeout) => ControllerForgets(s, c, timeout);
      case BeginStart(_) =>
      case BeginStop(_) =>
      case CancelParent(_) =>
      case _ => OthersKeepPool(s, a);
    }
  }

  lemma CallerExists(s: Sys, a: Action)
    requires Enabled(s, a) && a.ControllerStep?
    ensures a.caller in s.ctls
  {
  }

  lemma {:induction false} LatestRun(s: Sys, actions: seq<Action>)
    requires IsRun(s, actions)
    ensures End(s, actions).pool.cancelFn == LatestStart(s, actions, s.pool.cancelFn, s.pool.nextGeneration)
    ensures End(s, actions).pool.nextGeneration == s.pool.nextGeneration + Starts(actions)
    decreases |actions|
  {
    hide Apply, Enabled;
    if actions != [] {
      LatestStep(s, actions[0]);
      if actions[0].ControllerStep? {
        CallerExists(s, actions[0]);
      }
      LatestRun(Apply(s, actions[0]), actions[1..]);
    }
  }

  // The cancelFn that a Stop reads is that of the latest Start, counted from the beginning, unless a Stop has
  // ended since; then there is none.
  lemma CancelFnIsOfTheLatestStart(size: nat, registry: set<string>, actions: seq<Action>)
    requires Reached(size, registry, actions)
    ensures End(Init(size, registry), actions).pool.cancelFn == LatestStart(Init(size, registry), actions, None, 0)
  {
    hide Apply, Enabled;
    LatestRun(Init(size, registry), actions);
  }

  // ----- a Stop -----

  // The Stop at c, begun when `cancel` was the cancelFn, has done what its control point says.
  ghost predicate StopDone(s: Sys, c: nat, cancel: Option<nat>) {
    && c in s.ctls && !Starting(s.ctls[c])
    && (s.ctls[c].StopCancel? ==> s.ctls[c].cancel == cancel)
    && (!s.ctls[c].StopCancel? && cancel.Some? ==> cancel.value in s.pool.cancelled)
    && (!s.ctls[c].StopCancel? ==>
          forall w :: 0 <= w < s.pool.size && (s.ctls[c].StopWorkers? ==> w < s.ctls[c].next) ==> w in s.pool.stopped)
  }

  lemma OwnStopStep(s: Sys, c: nat, timeout: bool, cancel: Option<nat>)
    requires StopDone(s, c, cancel) && ControllerEnabled(s, c, timeout)
    ensures StopDone(ControllerNext(s, c, timeout), c, cancel)
  {
  }

  lemma OtherCallersKept(s: Sys, d: nat, timeout: bool, c: nat)
    requires ControllerEnabled(s, d, timeout) && d != c && c in s.ctls
    ensures var ctls := ControllerNext(s, d, timeout).ctls; c in ctls && ctls[c] == s.ctls[c]
  {
  }

  lemma OtherControllerKeepsStop(s: Sys, d: nat, timeout: bool, c: nat, cancel: Option<nat>)
    requires StopDone(s, c, cancel) && ControllerEnabled(s, d, timeout) && d != c
    ensures StopDone(ControllerNext(s, d, timeout), c, cancel)
  {
    ControllerFrame(s, d, timeout);
    ControllerCancels(s, d, timeout);
    ControllerCloses(s, d, timeout);
    OtherCallersKept(s, d, timeout, c);
    hide ControllerNext;
  }

  lemma StopStep(s: Sys, a: Action, c: nat, cancel: Option<nat>)
    requires StopDone(s, c, cancel) && Enabled(s, a)
    ensures StopDone(Apply(s, a), c, cancel)
  {
    hide SubmitNext, SubmitterNext, GoroutineNext, ControllerNext;
    match a {
      case ControllerStep(d, timeout) =>
        if d == c {
          OwnStopStep(s, c, timeout, cancel);
        } else {
          OtherControllerKeepsStop(s, d, timeout, c, cancel);
        }
      case BeginStart(_) =>
      case BeginStop(_) =>
      case CancelParent(_) =>
      case _ => OthersKeepPool(s, a);
    }
  }

  lemma {:induction false} StopRun(s: Sys, actions: seq<Action>, c: nat, cancel: Option<nat>)
    requires StopDone(s, c, cancel) && IsRun(s, actions)
    ensures StopDone(End(s, actions), c, cancel)
    decreases |actions|
  {
    hide Apply, Enabled, StopDone;
    if actions != [] {
      StopStep(s, actions[0], c, cancel);
      StopRun(Apply(s, actions[0]), actions[1..], c, cancel);
    }
  }

  // A Stop raises both signals, whatever runs beside it and for ever: after its first step the context whose
  // cancelFn it found is done, and from the moment it waits every worker's channel is closed.
  lemma StopRaisesBothSignals(s: Sys, c: nat, after: seq<Action>)
    requires Enabled(s, BeginStop(c)) && IsRun(Apply(s, BeginStop(c)), after)
    ensures var s' := End(Apply(s, BeginStop(c)), after);
            && c in s'.ctls && !Starting(s'.ctls[c])
            && (!s'.ctls[c].StopCancel? && s.pool.cancelFn.Some? ==> Raised(s', ContextDone(s.pool.cancelFn.value)))
            && (!s'.ctls[c].StopCancel? && !s'.ctls[c].StopWorkers? ==>
                  forall w: nat :: w < s'.pool.size ==> Raised(s', StopChannel(w)))
  {
    StopRun(Apply(s, BeginStop(c)), after, c, s.pool.cancelFn);
  }

  // ----- a Start -----

  ghost predicate Launched(s: Sys, generation: nat, first: nat) {
    forall g :: g in s.gors && g >= first ==>
      g < s.nextGoroutine && s.gors[g].worker == g - first && s.gors[g].generation == generation
  }

  // The Start at c, of this generation, has launched the goroutines first, first + 1, ..., one a worker, in
  // order; while it holds the mutex its context is the one to cancel.
  ghost predicate StartDone(s: Sys, c: nat, generation: nat, first: nat) {
    && c in s.ctls && Launched(s, generation, first)
    && if s.ctls[c].StartAdd? || s.ctls[c].StartGo? then
         && s.pool.holder == Some(c) && s.pool.cancelFn == Some(generation) && s.ctls[c].generation == generation
         && s.ctls[c].next <= s.pool.size && s.nextGoroutine == first + s.ctls[c].next
       else s.pool.holder.None? && s.nextGoroutine == first + s.pool.size
  }

  lemma OwnStartStep(s: Sys, c: nat, timeout: bool, generation: nat, first: nat)
    requires PoolInv(s) && StartDone(s, c, generation, first) && ControllerEnabled(s, c, timeout)
    requires Starting(s.ctls[c])
    ensures StartDone(ControllerNext(s, c, timeout), c, generation, first)
  {
    assert ControllerOk(s, c);
  }

  lemma StopKeepsStart(s: Sys, d: nat, timeout: bool, c: nat, generation: nat, first: nat)
    requires PoolInv(s) && StartDone(s, c, generation, first) && ControllerEnabled(s, d, timeout)
    requires !Starting(s.ctls[d])
    ensures StartDone(ControllerNext(s, d, timeout), c, generation, first)
  {
    StopMoves(s, d, timeout);
    StopFrame(s, d, timeout);
    ControllerForgets(s, d, timeout);
    hide ControllerNext, PoolInv;
  }

  lemma GoroutineKeepsStart(s: Sys, g: nat, x: Choice, c: nat, generation: nat, first: nat)
    requires StartDone(s, c, generation, first) && GoroutineEnabled(s, g, x)
    ensures StartDone(GoroutineNext(s, g, x), c, generation, first)
  {
    hide WorkLocal;
  }

  lemma OneStartAtATime(s: Sys, c: nat)
    requires PoolInv(s) && c in s.ctls && Starting(s.ctls[c])
    ensures s.pool.holder == Some(c)
  {
    assert ControllerOk(s, c);
  }

  lemma StartStep(s: Sys, a: Action, c: nat, generation: nat, first: nat)
    requires PoolInv(s) && StartDone(s, c, generation, first) && Enabled(s, a) && !a.BeginStart?
    ensures StartDone(Apply(s, a), c, generation, first)
  {
    hide EffectOf, PlaceAfter, GoroutineNext, ControllerNext, PoolInv;
    match a {
      case GoroutineStep(g, x) => GoroutineKeepsStart(s, g, x, c, generation, first);
      case ControllerStep(d, timeout) =>
        if Starting(s.ctls[d]) {
          assert d == c by { OneStartAtATime(s, d); }
          OwnStartStep(s, c, timeout, generation, first);
        } else {
          StopKeepsStart(s, d, timeout, c, generation, first);
        }
      case BeginStop(d) =>
      case _ =>
    }
  }

  lemma {:induction false} StartRun(s: Sys, actions: seq<Action>, c: nat, generation: nat, first: nat)
    requires PoolInv(s) && StartDone(s, c, generation, first) && IsRun(s, actions) && NoStart(actions)
    ensures StartDone(End(s, actions), c, generation, first) && PoolInv(End(s, actions))
    decreases |actions|
  {
    hide Apply, Enabled, PoolInv, StartDone;
    if actions != [] {
      PoolStep(s, actions[0]);
      StartStep(s, actions[0], c, generation, first);
      StartRun(Apply(s, actions[0]), actions[1..], c, generation, first);
    }
  }

  // A Start, up to the next one and whatever else runs beside it: its goroutines belong to the workers in
  // order and to its own context, and when it is over there has been one for each worker.
  lemma StartLaunchesEveryWorker(size: nat, registry: set<string>, before: seq<Action>, c: nat, after: seq<Action>)
    requires Reached(size, registry, before)
    requires var s := End(Init(size, registry), before);
             Enabled(s, BeginStart(c)) && IsRun(Apply(s, BeginStart(c)), after) && NoStart(after)
    ensures var s := End(Init(size, registry), before);
            var s' := End(Apply(s, BeginStart(c)), after);
            && (forall g :: g in s'.gors && g >= s.nextGoroutine ==>
                  s'.gors[g].worker == g - s.nextGoroutine && s'.gors[g].generation == s.pool.nextGeneration)
            && c in s'.ctls && (Starting(s'.ctls[c]) <==> s'.pool.holder.Some?)
            && (Starting(s'.ctls[c]) ==> s'.pool.cancelFn == Some(s.pool.nextGeneration))
            && (!Starting(s'.ctls[c]) ==> s'.nextGoroutine == s.nextGoroutine + s'.pool.size)
  {
    var s := End(Init(size, registry), before);
    ReachedPoolInv(size, registry, before);
    PoolStep(s, BeginStart(c));
    assert StartDone(Apply(s, BeginStart(c)), c, s.pool.nextGeneration, s.nextGoroutine);
    hide Apply, Enabled, PoolInv;
    StartRun(Apply(s, BeginStart(c)), after, c, s.pool.nextGeneration, s.nextGoroutine);
  }

  // The mutex: while a Start is under way no other call of Start or Stop begins or ends, and none of the
  // others is a Start.
  lemma StartExcludesOthers(size: nat, registry: set<string>, actions: seq<Action>, c: nat, d: nat, timeout: bool)
    requires Reached(size, registry, actions)
    requires var s := End(Init(size, registry), actions); c in s.ctls && Starting(s.ctls[c])
    ensures var s := End(Init(size, registry), actions);
            && !Enabled(s, BeginStart(d)) && !Enabled(s, BeginStop(d))
            && (d in s.ctls && s.ctls[d].StopClear? ==> !Enabled(s, ControllerStep(d, timeout)))
            && (d in s.ctls && Starting(s.ctls[d]) ==> d == c)
  {
    var s := End(Init(size, registry), actions);
    ReachedPoolInv(size, registry, actions);
    OneStartAtATime(s, c);
    if d in s.ctls && Starting(s.ctls[d]) {
      OneStartAtATime(s, d);
    }
  }

  // ----- a Start, and then a Stop -----

  // No Stop comes to its end.
  ghost predicate NoStopEnds(s: Sys, actions: seq<Action>)
    requires IsRun(s, actions)
    decreases |actions|
  {
    actions == [] ||
    (!(actions[0].ControllerStep? && actions[0].caller in s.ctls && s.ctls[actions[0].caller].StopClear?)
     && NoStopEnds(Apply(s, actions[0]), actions[1..]))
  }

  lemma {:induction false} ContextIsHeld(s: Sys, actions: seq<Action>)
    requires IsRun(s, actions) && NoStart(actions) && NoStopEnds(s, actions)
    ensures End(s, actions).pool.cancelFn == s.pool.cancelFn
    decreases |actions|
  {
    hide Apply, Enabled;
    if actions != [] {
      LatestStep(s, actions[0]);
      if actions[0].ControllerStep? {
        CallerExists(s, actions[0]);
      }
      ContextIsHeld(Apply(s, actions[0]), actions[1..]);
    }
  }

  // A Stop begun after a Start, with no other Start begun and no other Stop ended in between, has raised
  // both signals of every goroutine of that Start before it waits, and they stay up.
  lemma StopReachesTheStart(
    size: nat, registry: set<string>, before: seq<Action>, start: nat, middle: seq<Action>, stop: nat,
    after: seq<Action>, g: nat)
    requires Reached(size, registry, before)
    requires var s := End(Init(size, registry), before);
             Enabled(s, BeginStart(start)) && IsRun(Apply(s, BeginStart(start)), middle) && NoStart(middle)
    requires var s1 := Apply(End(Init(size, registry), before), BeginStart(start));
             NoStopEnds(s1, middle) && Enabled(End(s1, middle), BeginStop(stop))
             && IsRun(Apply(End(s1, middle), BeginStop(stop)), after)
    requires var s2 := End(Apply(End(Init(size, registry), before), BeginStart(start)), middle);
             g in s2.gors && g >= End(Init(size, registry), before).nextGoroutine
    ensures var s2 := End(Apply(End(Init(size, registry), before), BeginStart(start)), middle);
            var s' := End(Apply(s2, BeginStop(stop)), after);
            && stop in s'.ctls
            && (!s'.ctls[stop].StopCancel? ==> Raised(s', ContextDone(s2.gors[g].generation)))
            && (!s'.ctls[stop].StopCancel? && !s'.ctls[stop].StopWorkers? ==>
                  Raised(s', StopChannel(s2.gors[g].worker)))
  {
    var s := End(Init(size, registry), before);
    var s1 := Apply(s, BeginStart(start));
    assert s1.pool.cancelFn == Some(s.pool.nextGeneration);
    ReachedPoolInv(size, registry, before);
    PoolStep(s, BeginStart(start));
    PoolRun(s1, middle);
    assert Apply(End(s1, middle), BeginStop(stop)).pool == End(s1, middle).pool;
    hide Apply, Enabled, Raised;
    StartLaunchesEveryWorker(size, registry, before, start, middle);
    ContextIsHeld(s1, middle);
    SizeIsFixed(Apply(End(s1, middle), BeginStop(stop)), after);
    StopRaisesBothSignals(End(s1, middle), stop, after);
  }
}
