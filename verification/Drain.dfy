// Every Stop can come to its end: gracefully, once the goroutines have left, or at once by its time-out.
module Drain {
  import opened Wrappers
  import opened Errors
  import opened Lifecycle
  import opened Pipeline
  import opened Safety
  import opened Shutdown
  import opened Restart
  import opened Signals

  // At its select, with `done` still open or already closed.
  predicate Waiting(ctl: Controller) { ctl.StopWait? || ctl.StopReady? }

  // A Stop that is still raising signals or waiting.
  predicate Stopping(ctl: Controller) { ctl.StopCancel? || ctl.StopWorkers? || Waiting(ctl) }

  function StepsToWait(size: nat, ctl: Controller): nat {
    match ctl
    case StopCancel(_) => size + 2
    case StopWorkers(next) => if next < size then size - next + 1 else 1
    case _ => 0
  }

  lemma StopMovesOn(s: Sys, c: nat)
    requires c in s.ctls && Stopping(s.ctls[c]) && !Waiting(s.ctls[c])
    ensures Enabled(s, ControllerStep(c, false))
    ensures var s' := Apply(s, ControllerStep(c, false));
            && c in s'.ctls && Stopping(s'.ctls[c]) && s'.pool.size == s.pool.size
            && StepsToWait(s'.pool.size, s'.ctls[c]) < StepsToWait(s.pool.size, s.ctls[c])
  {
  }

  // The Stop's own steps, up to its wait.
  lemma {:induction false} StopComesToWait(s: Sys, c: nat) returns (actions: seq<Action>)
    requires PoolInv(s) && c in s.ctls && Stopping(s.ctls[c])
    ensures IsRun(s, actions) && forall a :: a in actions ==> a.ControllerStep?
    ensures var s' := End(s, actions); PoolInv(s') && c in s'.ctls && Waiting(s'.ctls[c])
    decreases StepsToWait(s.pool.size, s.ctls[c])
  {
    if Waiting(s.ctls[c]) {
      actions := [];
    } else {
      var a := ControllerStep(c, false);
      StopMovesOn(s, c);
      PoolStep(s, a);
      hide PoolInv, Enabled, Apply;
      var rest := StopComesToWait(Apply(s, a), c);
      FirstStep(s, a, rest);
      actions := [a] + rest;
    }
  }

  // The Start that holds the mutex comes to its end meanwhile.
  lemma {:induction false} StartComesToEnd(s: Sys, c: nat) returns (actions: seq<Action>)
    requires PoolInv(s) && c in s.ctls && Waiting(s.ctls[c])
    ensures IsRun(s, actions) && forall a :: a in actions ==> a.ControllerStep?
    ensures var s' := End(s, actions);
            PoolInv(s') && c in s'.ctls && Waiting(s'.ctls[c]) && s'.pool.holder.None?
    decreases StepsToUnlock(s)
  {
    if s.pool.holder.None? {
      actions := [];
    } else {
      var holder := s.pool.holder.value;
      var a := ControllerStep(holder, false);
      HolderMoves(s);
      PoolStep(s, a);
      OtherCallersKept(s, holder, false, c);
      var s1 := Apply(s, a);
      assert c in s1.ctls && Waiting(s1.ctls[c]);
      hide PoolInv, Enabled, Apply;
      var rest := StartComesToEnd(s1, c);
      FirstStep(s, a, rest);
      actions := [a] + rest;
    }
  }

  // ----- the goroutines leave -----

  function WorkLeft(phase: Phase): nat {
    match phase
    case Stamp(Running) => 12
    case Mark(Running) => 11
    case Persist(Running, _, _) => 10
    case Lookup => 9
    case Call => 8
    case Conclude(_, _) => 7
    case Stamp(_) => 6
    case Mark(_) => 5
    case _ => 4
  }

  // How many steps a goroutine has left that finds its stop channel closed.
  function StepsToLeave(pc: GoroutinePc): nat {
    match pc
    case Exiting => 1
    case Check => 2
    case Await => 3
    case Work(_, phase) => WorkLeft(phase)
  }

  // A Dequeue that the signal interrupts, or any other step.
  function LeavingChoice(now: nat): Choice { Choice(now, Some(Plain("context canceled")), Outcome("", None)) }

  lemma WorkComesToEnd(s: Sys, g: nat)
    requires g in s.gors && s.gors[g].pc.Work?
    ensures var x := LeavingChoice(s.clock);
            var s' := WorkNext(s, g, x);
            && s'.gors == s.gors[g := s'.gors[g]] && s'.gors[g].worker == s.gors[g].worker
            && StepsToLeave(s'.gors[g].pc) < StepsToLeave(s.gors[g].pc)
  {
  }

  lemma GoroutineComesCloser(s: Sys, g: nat)
    requires g in s.gors && s.gors[g].worker in s.pool.stopped
    ensures var a := GoroutineStep(g, LeavingChoice(s.clock));
            && Enabled(s, a)
            && var s' := Apply(s, a);
               && s'.ctls == s.ctls && s'.pool == s.pool.(wg := s'.pool.wg)
               && if s.gors[g].pc.Exiting? then s'.gors == s.gors - {g}
                  else && g in s'.gors && s'.gors == s.gors[g := s'.gors[g]]
                       && s'.gors[g].worker == s.gors[g].worker
                       && StepsToLeave(s'.gors[g].pc) < StepsToLeave(s.gors[g].pc)
  {
    if s.gors[g].pc.Work? {
      WorkComesToEnd(s, g);
    }
    hide WorkLocal, StepsToLeave;
    OthersKeepPool(s, GoroutineStep(g, LeavingChoice(s.clock)));
  }

  // One goroutine leaves: it ends its task, its Dequeue is interrupted, its check finds the signal.
  lemma {:induction false} OneLeaves(s: Sys, g: nat) returns (actions: seq<Action>)
    requires PoolInv(s) && AllStopped(s) && g in s.gors
    ensures IsRun(s, actions) && forall a :: a in actions ==> a.GoroutineStep?
    ensures var s' := End(s, actions);
            && PoolInv(s') && s'.ctls == s.ctls && s'.pool == s.pool.(wg := s'.pool.wg) && |s'.gors| == |s.gors| - 1
    decreases StepsToLeave(s.gors[g].pc)
  {
    var a := GoroutineStep(g, LeavingChoice(s.clock));
    GoroutineComesCloser(s, g);
    PoolStep(s, a);
    var s1 := Apply(s, a);
    var rest: seq<Action> := [];
    if s.gors[g].pc.Exiting? {
      SizeOfRemove(s.gors, g);
    } else {
      SizeOfUpdate(s.gors, g, s1.gors[g]);
      hide PoolInv, Enabled, Apply;
      rest := OneLeaves(s1, g);
    }
    FirstStep(s, a, rest);
    actions := [a] + rest;
  }

  lemma {:induction false} AllLeave(s: Sys) returns (actions: seq<Action>)
    requires PoolInv(s) && AllStopped(s)
    ensures IsRun(s, actions) && forall a :: a in actions ==> a.GoroutineStep?
    ensures var s' := End(s, actions);
            PoolInv(s') && s'.ctls == s.ctls && s'.pool == s.pool.(wg := s'.pool.wg) && |s'.gors| == 0
    decreases |s.gors|
  {
    actions := [];
    if |s.gors| > 0 {
      var g :| g in s.gors;
      var first := OneLeaves(s, g);
      hide PoolInv, Enabled, Apply, IsRun;
      var rest := AllLeave(End(s, first));
      RunsJoin(s, first, rest);
      actions := first + rest;
    }
  }

  // ----- the Stop comes to its end -----

  lemma TheLastSteps(s: Sys, c: nat, graceful: bool) returns (actions: seq<Action>)
    requires c in s.ctls && Waiting(s.ctls[c]) && s.pool.holder.None? && (graceful ==> s.pool.wg == 0)
    ensures IsRun(s, actions) && forall a :: a in actions ==> a.ControllerStep?
    ensures var s' := End(s, actions);
            && c in s'.ctls && s'.ctls[c] == Finished(graceful)
            && s'.pool == s.pool.(cancelFn := None) && s'.gors == s.gors
  {
    hide SubmitNext, SubmitterNext, GoroutineNext;
    var first: seq<Action> := [];
    if graceful && s.ctls[c].StopWait? {
      first := [ControllerStep(c, false)];
      OneMore(s, [], ControllerStep(c, false));
    }
    var s1 := End(s, first);
    assert if graceful then s1.ctls[c].StopReady? else Waiting(s1.ctls[c]);
    OneMore(s, first, ControllerStep(c, !graceful));
    OneMore(s, first + [ControllerStep(c, !graceful)], ControllerStep(c, false));
    actions := first + [ControllerStep(c, !graceful)] + [ControllerStep(c, false)];
  }

  // Every Stop can return from every reachable state, and both ways: by its time-out, with no step of a
  // goroutine at all, leaving them where they are; and gracefully, once every goroutine has ended its task and
  // left. The time-out is taken even when the goroutines are gone. Either way the cancelFn is forgotten.
  lemma EveryStopCanReturn(size: nat, registry: set<string>, before: seq<Action>, c: nat, graceful: bool)
    returns (after: seq<Action>)
    requires Reached(size, registry, before)
    requires var s := End(Init(size, registry), before); c in s.ctls && Stopping(s.ctls[c])
    ensures var s := End(Init(size, registry), before);
            && IsRun(s, after)
            && (forall a :: a in after ==> a.ControllerStep? || (graceful && a.GoroutineStep?))
            && var s' := End(s, after);
               && c in s'.ctls && s'.ctls[c] == Finished(graceful) && s'.pool.cancelFn.None?
               && (graceful ==> s'.gors == map[] && s'.pool.wg == 0)
  {
    var s := End(Init(size, registry), before);
    ReachedPoolInv(size, registry, before);
    hide Apply, Enabled, IsRun;
    var waiting := StopComesToWait(s, c);
    var s1 := End(s, waiting);
    var unlocked := StartComesToEnd(s1, c);
    var s2 := End(s1, unlocked);
    RunsJoin(s, waiting, unlocked);
    after := waiting + unlocked;
    if graceful {
      assert AllStopped(s2) by { assert ControllerOk(s2, c); }
      var leaving := AllLeave(s2);
      RunsJoin(s, after, leaving);
      after := after + leaving;
    }
    var s3 := End(s, after);
    var last := TheLastSteps(s3, c, graceful);
    RunsJoin(s, after, last);
    after := after + last;
  }
}
