// Every task step makes progress: a measure over all submitters, queued tasks and goroutines falls, so only
// boundedly many steps remain; and when none is left, a live pool has brought every stored task to rest.
module Quiescence {
  import opened Wrappers
  import opened Errors
  import opened Tasks
  import opened Lifecycle
  import opened Pipeline
  import opened Ownership
  import opened Invariant
  import opened Safety
  import opened Shutdown
  import opened Restart
  import opened Signals

  // ----- sums over finite maps -----

  ghost function Sum(m: map<nat, nat>): nat
    decreases |m|
  {
    if m == map[] then 0
    else
      var k :| k in m;
      assert (m - {k}).Keys == m.Keys - {k};
      m[k] + Sum(m - {k})
  }

  lemma {:induction false} SumRemove(m: map<nat, nat>, k: nat)
    requires k in m
    ensures Sum(m) == m[k] + Sum(m - {k})
    decreases |m|
  {
    var j :| j in m && Sum(m) == m[j] + Sum(m - {j});
    if j != k {
      assert (m - {j}).Keys == m.Keys - {j};
      assert (m - {k}).Keys == m.Keys - {k};
      SumRemove(m - {j}, k);
      SumRemove(m - {k}, j);
      assert (m - {j}) - {k} == (m - {k}) - {j};
    }
  }

  lemma SumUpdate(m: map<nat, nat>, k: nat, v: nat)
    requires k in m
    ensures Sum(m[k := v]) + m[k] == Sum(m) + v
  {
    SumRemove(m, k);
    SumRemove(m[k := v], k);
    assert m[k := v] - {k} == m - {k};
  }

  lemma SumInsert(m: map<nat, nat>, k: nat, v: nat)
    ensures Sum(m[k := v]) <= Sum(m) + v
    ensures k !in m ==> Sum(m[k := v]) == Sum(m) + v
  {
    if k in m {
      SumUpdate(m, k, v);
    } else {
      SumRemove(m[k := v], k);
      assert m[k := v] - {k} == m;
    }
  }

  // ----- the measure -----

  const QUEUED_RANK: nat := 12

  function PhaseRank(phase: Phase): nat {
    match phase
    case Stamp(Queued) => 11 + QUEUED_RANK
    case Mark(Queued) => 12 + QUEUED_RANK
    case Persist(Queued, _, _) => 10 + QUEUED_RANK
    case Stamp(Running) => 12 + QUEUED_RANK
    case Mark(Running) => 11 + QUEUED_RANK
    case Persist(Running, _, _) => 10 + QUEUED_RANK
    case Lookup => 9 + QUEUED_RANK
    case Push => 8 + QUEUED_RANK
    case Call => 8
    case Conclude(_, _) => 4
    case Stamp(_) => 3
    case Mark(_) => 2
    case Persist(_, _, _) => 1
  }

  function SubmitterRank(u: Submitter): nat {
    if u.pc.Returned? then 0 else PhaseRank(u.pc.phase) + 3 * u.repeats
  }

  function WorkRank(phase: Phase): nat {
    match phase
    case Persist(Running, _, _) => 9
    case Mark(Running) => 10
    case Stamp(Running) => 11
    case Lookup => 8
    case Call => 7
    case Conclude(_, _) => 6
    case Stamp(_) => 5
    case Mark(_) => 4
    case Persist(_, _, _) => 3
    case Push => 3
  }

  function GoroutineRank(g: Goroutine): nat {
    match g.pc
    case Await => 0
    case Exiting => 1
    case Check => 2
    case Work(_, phase) => WorkRank(phase)
  }

  ghost function SubmitterRanks(s: Sys): map<nat, nat> { map w | w in s.subs :: SubmitterRank(s.subs[w]) }

  ghost function GoroutineRanks(s: Sys): map<nat, nat> { map g | g in s.gors :: GoroutineRank(s.gors[g]) }

  ghost function Measure(s: Sys): nat {
    Sum(SubmitterRanks(s)) + QUEUED_RANK * |s.list| + Sum(GoroutineRanks(s))
  }

  // A step of a submitter or a goroutine, other than a Dequeue that fails.
  predicate IsTaskStep(s: Sys, a: Action) {
    || a.SubmitterStep?
    || (a.GoroutineStep? && (a.goroutine in s.gors && s.gors[a.goroutine].pc.Await? ==> a.choice.fault.None?))
  }

  lemma SubmitterRankFalls(task: TaskRecord, u: Submitter, registered: bool, x: Choice)
    requires u.pc.Active?
    ensures var e := SubmitterLocal(task, u, registered, x);
            SubmitterRank(e.sub) + (if e.pushed then QUEUED_RANK else 0) < SubmitterRank(u)
  {
  }

  lemma SubmitterStepFalls(s: Sys, who: nat, x: Choice)
    requires SubmitterEnabled(s, who)
    ensures Measure(SubmitterNext(s, who, x)) < Measure(s)
  {
    hide SubmitterLocal, SubmitterRank;
    var task := s.store[s.subs[who].id].task;
    SubmitterRankFalls(task, s.subs[who], task.taskType in s.registry, x);
    var s' := SubmitterNext(s, who, x);
    assert SubmitterRanks(s') == SubmitterRanks(s)[who := SubmitterRank(s'.subs[who])];
    SumUpdate(SubmitterRanks(s), who, SubmitterRank(s'.subs[who]));
    assert GoroutineRanks(s') == GoroutineRanks(s);
  }

  lemma GoroutineRankFalls(s: Sys, g: nat, x: Choice)
    requires GoroutineEnabled(s, g, x) && !s.gors[g].pc.Exiting? && (s.gors[g].pc.Await? ==> x.fault.None?)
    ensures var s' := GoroutineNext(s, g, x);
            && g in s'.gors && s'.gors == s.gors[g := s'.gors[g]]
            && GoroutineRank(s'.gors[g]) + QUEUED_RANK * |s'.list| < GoroutineRank(s.gors[g]) + QUEUED_RANK * |s.list|
  {
  }

  lemma ExitingRank(g: Goroutine)
    requires g.pc.Exiting?
    ensures GoroutineRank(g) == 1
  {
  }

  lemma GoroutineStepFalls(s: Sys, g: nat, x: Choice)
    requires GoroutineEnabled(s, g, x) && (s.gors[g].pc.Await? ==> x.fault.None?)
    ensures Measure(GoroutineNext(s, g, x)) < Measure(s)
  {
    hide WorkLocal, GoroutineRank;
    var s' := GoroutineNext(s, g, x);
    assert SubmitterRanks(s') == SubmitterRanks(s);
    if s.gors[g].pc.Exiting? {
      assert GoroutineRank(s.gors[g]) > 0 by { ExitingRank(s.gors[g]); }
      SumRemove(GoroutineRanks(s), g);
      assert GoroutineRanks(s') == GoroutineRanks(s) - {g};
    } else {
      GoroutineRankFalls(s, g, x);
      assert GoroutineRanks(s') == GoroutineRanks(s)[g := GoroutineRank(s'.gors[g])];
      SumUpdate(GoroutineRanks(s), g, GoroutineRank(s'.gors[g]));
    }
  }

  lemma TaskStepFalls(s: Sys, a: Action)
    requires Enabled(s, a) && IsTaskStep(s, a)
    ensures Measure(Apply(s, a)) < Measure(s)
  {
    hide SubmitterNext, GoroutineNext, Measure;
    match a {
      case SubmitterStep(who, x) => SubmitterStepFalls(s, who, x);
      case GoroutineStep(g, x) => GoroutineStepFalls(s, g, x);
      case _ =>
    }
  }

  // ----- every run -----

  // What a step that is not a task step may add: a new submission, a launched goroutine, a failed Dequeue.
  function Gain(s: Sys, a: Action): nat {
    match a
    case Submit(_, _, _, _, _, _) => 12 + QUEUED_RANK
    case GoroutineStep(g, x) => if g in s.gors && s.gors[g].pc.Await? && x.fault.Some? then 2 else 0
    case ControllerStep(c, _) => if c in s.ctls && s.ctls[c].StartGo? then 2 else 0
    case _ => 0
  }

  lemma FirstRank(u: Submitter)
    requires u.pc.Returned? || (u.repeats == 0 && (u.pc.phase == Mark(Queued) || u.pc.phase == Stamp(Running)))
    ensures SubmitterRank(u) <= 12 + QUEUED_RANK
  {
  }

  lemma SubmitGain(s: Sys, a: Action)
    requires Enabled(s, a) && a.Submit?
    ensures Measure(Apply(s, a)) <= Measure(s) + Gain(s, a)
  {
    hide SubmitterRank;
    var s' := Apply(s, a);
    FirstRank(s'.subs[a.who]);
    assert SubmitterRanks(s') == SubmitterRanks(s)[a.who := SubmitterRank(s'.subs[a.who])];
    SumInsert(SubmitterRanks(s), a.who, SubmitterRank(s'.subs[a.who]));
    assert GoroutineRanks(s') == GoroutineRanks(s);
  }

  lemma FailedDequeueGain(s: Sys, g: nat, x: Choice)
    requires GoroutineEnabled(s, g, x) && s.gors[g].pc.Await? && x.fault.Some?
    ensures Measure(AwaitNext(s, g, x)) <= Measure(s) + 2
  {
    var s' := AwaitNext(s, g, x);
    assert SubmitterRanks(s') == SubmitterRanks(s);
    assert GoroutineRanks(s') == GoroutineRanks(s)[g := 2];
    SumInsert(GoroutineRanks(s), g, 2);
  }

  lemma SpawnGain(s: Sys, s': Sys, worker: nat, generation: nat)
    requires s'.subs == s.subs && s'.list == s.list
    requires s'.gors == s.gors[s.nextGoroutine := Goroutine(worker, generation, Check)]
    ensures Measure(s') <= Measure(s) + 2
  {
    assert SubmitterRanks(s') == SubmitterRanks(s);
    assert GoroutineRanks(s') == GoroutineRanks(s)[s.nextGoroutine := 2];
    SumInsert(GoroutineRanks(s), s.nextGoroutine, 2);
  }

  lemma ControllerKeepsRanks(s: Sys, c: nat, timeout: bool)
    requires ControllerEnabled(s, c, timeout) && !s.ctls[c].StartGo?
    ensures Measure(ControllerNext(s, c, timeout)) == Measure(s)
  {
    hide SubmitterRank, GoroutineRank;
    var s' := ControllerNext(s, c, timeout);
    assert s'.subs == s.subs && s'.gors == s.gors && s'.list == s.list;
    assert SubmitterRanks(s') == SubmitterRanks(s) && GoroutineRanks(s') == GoroutineRanks(s);
  }

  lemma ControllerGain(s: Sys, c: nat, timeout: bool)
    requires ControllerEnabled(s, c, timeout)
    ensures Measure(ControllerNext(s, c, timeout)) <= Measure(s) + if s.ctls[c].StartGo? then 2 else 0
  {
    hide SubmitterRank, GoroutineRank;
    var s' := ControllerNext(s, c, timeout);
    if s.ctls[c].StartGo? {
      SpawnGain(s, s', s.ctls[c].next, s.ctls[c].generation);
    } else {
      hide ControllerNext;
      ControllerKeepsRanks(s, c, timeout);
    }
  }

  lemma StepBalance(s: Sys, a: Action)
    requires Enabled(s, a)
    ensures Measure(Apply(s, a)) + (if IsTaskStep(s, a) then 1 else 0) <= Measure(s) + Gain(s, a)
  {
    if IsTaskStep(s, a) {
      TaskStepFalls(s, a);
    } else {
      hide SubmitterNext, WorkNext, AwaitNext, ControllerNext;
      match a {
        case Submit(_, _, _, _, _, _) => SubmitGain(s, a);
        case GoroutineStep(g, x) => FailedDequeueGain(s, g, x);
        case ControllerStep(c, timeout) => ControllerGain(s, c, timeout);
        case SubmitterStep(_, _) =>
        case _ =>
          assert SubmitterRanks(Apply(s, a)) == SubmitterRanks(s) && GoroutineRanks(Apply(s, a)) == GoroutineRanks(s);
      }
    }
  }

  ghost function TaskSteps(s: Sys, actions: seq<Action>): nat
    requires IsRun(s, actions)
    decreases |actions|
  {
    if actions == [] then 0
    else (if IsTaskStep(s, actions[0]) then 1 else 0) + TaskSteps(Apply(s, actions[0]), actions[1..])
  }

  ghost function Gains(s: Sys, actions: seq<Action>): nat
    requires IsRun(s, actions)
    decreases |actions|
  {
    if actions == [] then 0 else Gain(s, actions[0]) + Gains(Apply(s, actions[0]), actions[1..])
  }

  // Bounded progress: in every run from every state, the task steps are no more than the measure, plus a
  // constant for each new submission, launched goroutine and failed Dequeue; Register, Stop and the rest of
  // Start add nothing.
  lemma {:induction false} TaskStepsAreBounded(s: Sys, actions: seq<Action>)
    requires IsRun(s, actions)
    ensures TaskSteps(s, actions) + Measure(End(s, actions)) <= Measure(s) + Gains(s, actions)
    decreases |actions|
  {
    hide Apply, Enabled, Measure, IsTaskStep, Gain;
    if actions != [] {
      StepBalance(s, actions[0]);
      TaskStepsAreBounded(Apply(s, actions[0]), actions[1..]);
    }
  }

  // ----- when no task step is left -----

  ghost predicate Stuck(s: Sys) {
    forall a :: IsTaskStep(s, a) ==> !Enabled(s, a)
  }

  lemma StuckMeansIdle(s: Sys)
    requires Inv(s) && Stuck(s)
    ensures forall w :: w in s.subs ==> s.subs[w].pc.Returned?
    ensures forall g :: g in s.gors ==> s.gors[g].pc.Await? && s.list == []
  {
    hide SubmitterFacts;
    var x := Choice(s.clock, None, Outcome("", None));
    forall w | w in s.subs ensures s.subs[w].pc.Returned? {
      assert SubmitterOk(s, w);
      assert IsTaskStep(s, SubmitterStep(w, x)) && !Enabled(s, SubmitterStep(w, x));
    }
    forall g | g in s.gors ensures s.gors[g].pc.Await? && s.list == [] {
      assert IsTaskStep(s, GoroutineStep(g, x)) && !Enabled(s, GoroutineStep(g, x));
    }
  }

  // A goroutine that nothing has told to stop.
  predicate Serving(s: Sys, g: nat) {
    && g in s.gors && !s.gors[g].pc.Exiting?
    && s.gors[g].generation !in s.pool.cancelled && s.gors[g].worker !in s.pool.stopped
  }

  lemma WorkNeverExits(task: TaskRecord, phase: Phase, registered: bool, x: Choice)
    ensures !WorkLocal(task, phase, registered, x).pc.Exiting?
  {
  }

  // No step takes a serving goroutine away: not a failing Dequeue, nor the end of a task, whatever its fate.
  lemma ServingGoroutineStep(s: Sys, h: nat, x: Choice, g: nat)
    requires GoroutineEnabled(s, h, x) && Serving(s, g)
    ensures var gors := GoroutineNext(s, h, x).gors;
            && g in gors && !gors[g].pc.Exiting?
            && gors[g].worker == s.gors[g].worker && gors[g].generation == s.gors[g].generation
  {
    hide WorkLocal;
    if s.gors[h].pc.Work? {
      var t := s.gors[h].pc.task;
      WorkNeverExits(t, s.gors[h].pc.phase, t.taskType in s.registry, x);
    }
  }

  lemma ControllersKeepGoroutine(s: Sys, c: nat, timeout: bool, g: nat)
    requires ControllerEnabled(s, c, timeout) && g in s.gors && g < s.nextGoroutine
    ensures var gors := ControllerNext(s, c, timeout).gors; g in gors && gors[g] == s.gors[g]
  {
  }

  lemma ServingStep(s: Sys, a: Action, g: nat)
    requires Enabled(s, a) && Serving(s, g) && g < s.nextGoroutine
    ensures var s' := Apply(s, a);
            && g in s'.gors && !s'.gors[g].pc.Exiting? && g < s'.nextGoroutine
            && s'.gors[g].worker == s.gors[g].worker && s'.gors[g].generation == s.gors[g].generation
    ensures a.SubmitterStep? || a.GoroutineStep? ==> Serving(Apply(s, a), g)
  {
    hide EffectOf, PlaceAfter, GoroutineNext, ControllerNext;
    IdentityStep(s, a, g);
    match a {
      case GoroutineStep(h, x) =>
        ServingGoroutineStep(s, h, x, g);
        OthersKeepPool(s, a);
      case ControllerStep(c, timeout) => ControllersKeepGoroutine(s, c, timeout, g);
      case _ =>
    }
  }

  lemma {:induction false} IdentityRun(s: Sys, actions: seq<Action>, g: nat)
    requires IsRun(s, actions) && g < s.nextGoroutine
    ensures SameGoroutine(s, End(s, actions), g)
    decreases |actions|
  {
    hide Apply, Enabled;
    if actions != [] {
      IdentityStep(s, actions[0], g);
      IdentityRun(Apply(s, actions[0]), actions[1..], g);
    }
  }

  ghost predicate Signalled(s: Sys, g: Goroutine) {
    Raised(s, StopChannel(g.worker)) || Raised(s, ContextDone(g.generation))
  }

  // Over every run: a serving goroutine still serves at the end exactly when neither of its signals was raised.
  lemma {:induction false} ServingRun(s: Sys, actions: seq<Action>, g: nat)
    requires IsRun(s, actions) && Serving(s, g) && g < s.nextGoroutine
    ensures Serving(End(s, actions), g) <==> !Signalled(End(s, actions), s.gors[g])
    decreases |actions|
  {
    if actions != [] {
      var s1 := Apply(s, actions[0]);
      hide Apply, Enabled;
      ServingStep(s, actions[0], g);
      SignalsAreRaisedExactly(s1, actions[1..], StopChannel(s.gors[g].worker));
      SignalsAreRaisedExactly(s1, actions[1..], ContextDone(s.gors[g].generation));
      IdentityRun(s1, actions[1..], g);
      if Serving(s1, g) {
        ServingRun(s1, actions[1..], g);
      }
    }
  }

  ghost predicate AllTaskSteps(s: Sys, actions: seq<Action>)
    requires IsRun(s, actions)
    decreases |actions|
  {
    actions == [] || (IsTaskStep(s, actions[0]) && AllTaskSteps(Apply(s, actions[0]), actions[1..]))
  }

  lemma {:induction false} CountTaskSteps(s: Sys, actions: seq<Action>)
    requires IsRun(s, actions) && AllTaskSteps(s, actions)
    ensures TaskSteps(s, actions) == |actions|
    ensures forall a :: a in actions ==> a.SubmitterStep? || a.GoroutineStep?
    decreases |actions|
  {
    hide Apply, Enabled;
    if actions != [] {
      CountTaskSteps(Apply(s, actions[0]), actions[1..]);
    }
  }

  // Steps of submitters and goroutines raise no signal.
  lemma {:induction false} ServingThroughSteps(s: Sys, actions: seq<Action>, g: nat)
    requires IsRun(s, actions) && Serving(s, g) && g < s.nextGoroutine
    requires forall a :: a in actions ==> a.SubmitterStep? || a.GoroutineStep?
    ensures Serving(End(s, actions), g)
    decreases |actions|
  {
    hide Apply, Enabled, Serving;
    if actions != [] {
      assert actions[0] in actions;
      ServingStep(s, actions[0], g);
      ServingThroughSteps(Apply(s, actions[0]), actions[1..], g);
    }
  }

  lemma StuckMeansResting(s: Sys, g: nat)
    requires Inv(s) && Stuck(s) && g in s.gors
    ensures RestingIds(s) == s.store.Keys && s.list == []
  {
    StuckMeansIdle(s);
    InvCovered(s);
    hide Inv, Stuck;
    assert SubmitterIds(s) == {} && QueueIds(s) == {} && WorkerIds(s) == {};
  }

  // Quiescence, over every continuation of every reachable state, with Register, Start, Stop, submissions and
  // failing Dequeues interleaved at will: when no submitter and no goroutine can move any more and some
  // goroutine is still alive, the queue is empty and every stored task is at rest with a final status; and
  // until then only boundedly many task steps were made. A goroutine that nothing had told to stop is still
  // serving exactly when nothing has told it since: no error of the queue and no task ends it.
  lemma EveryTaskComesToRest(size: nat, registry: set<string>, before: seq<Action>, after: seq<Action>, g: nat)
    requires Reached(size, registry, before) && IsRun(End(Init(size, registry), before), after)
    ensures var s := End(Init(size, registry), before);
            var s' := End(s, after);
            && TaskSteps(s, after) <= Measure(s) + Gains(s, after)
            && (Stuck(s') && g in s'.gors ==> RestingIds(s') == s'.store.Keys && s'.list == [])
            && (AllTaskSteps(s, after) ==> |after| <= Measure(s) + Gains(s, after))
            && (Serving(s, g) ==> (Serving(s', g) <==> !Signalled(s', s.gors[g])))
            && (Serving(s, g) && (forall a :: a in after ==> a.SubmitterStep? || a.GoroutineStep?) ==> Serving(s', g))
            && (Serving(s, g) && !Signalled(s', s.gors[g]) && Stuck(s') ==>
                  RestingIds(s') == s'.store.Keys && s'.list == [])
  {
    var s := End(Init(size, registry), before);
    ReachedInv(size, registry, before);
    TaskStepsAreBounded(s, after);
    if Serving(s, g) {
      ServingRun(s, after, g);
      if forall a :: a in after ==> a.SubmitterStep? || a.GoroutineStep? {
        ServingThroughSteps(s, after, g);
      }
    }
    hide Inv, Apply, Enabled, Measure, Stuck, Gains, Signalled;
    RunKeeps(s, after);
    if AllTaskSteps(s, after) {
      CountTaskSteps(s, after);
    }
    if Stuck(End(s, after)) && g in End(s, after).gors {
      StuckMeansResting(End(s, after), g);
    }
  }

  predicate Prescribed(a: Action, fault: Option<Error>, outcome: Outcome) {
    match a
    case SubmitterStep(_, x) => x.fault == fault && x.outcome == outcome
    case GoroutineStep(_, x) => x.fault.None? && x.outcome == outcome
    case _ => false
  }

  // Whether a task step is enabled does not depend on the environment's choices.
  lemma APrescribedStep(s: Sys, fault: Option<Error>, outcome: Outcome) returns (a: Action)
    requires !Stuck(s)
    ensures IsTaskStep(s, a) && Enabled(s, a) && Prescribed(a, fault, outcome)
  {
    var b :| IsTaskStep(s, b) && Enabled(s, b);
    a := if b.SubmitterStep? then SubmitterStep(b.who, Choice(b.choice.now, fault, outcome))
         else GoroutineStep(b.goroutine, Choice(b.choice.now, None, outcome));
  }

  // No deadlock: from every state, a run of task steps leads to a state where no task step is left. The
  // outcome of every handler, and the answer of every Enqueue, may be prescribed.
  lemma {:induction false} CanRunToTheEnd(s: Sys, fault: Option<Error>, outcome: Outcome) returns (actions: seq<Action>)
    ensures IsRun(s, actions) && AllTaskSteps(s, actions) && Stuck(End(s, actions))
    ensures forall a :: a in actions ==> Prescribed(a, fault, outcome)
    decreases Measure(s)
  {
    if Stuck(s) {
      actions := [];
    } else {
      var a := APrescribedStep(s, fault, outcome);
      hide SubmitterNext, GoroutineNext, Measure, Stuck, IsTaskStep;
      TaskStepFalls(s, a);
      var rest := CanRunToTheEnd(Apply(s, a), fault, outcome);
      actions := [a] + rest;
      assert actions[0] == a && actions[1..] == rest;
    }
  }
}
