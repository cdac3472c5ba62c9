// The timestamps of a task object, along every path from NewTask, for a clock that never runs backwards.
module Timestamps {
  import opened Wrappers
  import opened Errors
  import opened Tasks
  import opened Lifecycle
  import opened Pipeline
  import opened Ownership
  import opened Invariant
  import opened Safety

  predicate NotAfter(a: Option<nat>, b: Option<nat>) {
    a.Some? && b.Some? ==> a.value <= b.value
  }

  // The present ones of SubmittedAt, QueuedAt, StartedAt, CompletedAt, and now, are non-decreasing.
  predicate Chronological(r: TaskRecord, now: nat) {
    var submitted := Some(r.submittedAt);
    && NotAfter(submitted, r.queuedAt) && NotAfter(submitted, r.startedAt) && NotAfter(submitted, r.completedAt)
    && NotAfter(r.queuedAt, r.startedAt) && NotAfter(r.queuedAt, r.completedAt) && NotAfter(r.startedAt, r.completedAt)
    && NotAfter(submitted, Some(now)) && NotAfter(r.queuedAt, Some(now))
    && NotAfter(r.startedAt, Some(now)) && NotAfter(r.completedAt, Some(now))
  }

  // Which of QueuedAt, StartedAt, CompletedAt are set.
  datatype Stamps = Stamps(queued: bool, started: bool, completed: bool)

  function Present(r: TaskRecord): Stamps {
    Stamps(r.queuedAt.Some?, r.startedAt.Some?, r.completedAt.Some?)
  }

  function SubmitterStamps(u: Submitter, phase: Phase): Stamps {
    if u.mode == Async then
      match phase
      case Mark(Queued) => Stamps(false, false, false)
      case Stamp(Queued) => Stamps(false, false, false)
      case Stamp(Failed) => Stamps(true, false, u.repeats == 0)
      case Mark(Failed) => Stamps(true, false, true)
      case Persist(Failed, _, _) => Stamps(true, false, true)
      case _ => Stamps(true, false, false)
    else
      match phase
      case Stamp(Running) => Stamps(false, false, false)
      case Mark(Done) => Stamps(false, true, true)
      case Persist(Done, _, _) => Stamps(false, true, true)
      case Mark(Failed) => Stamps(false, true, true)
      case Persist(Failed, _, _) => Stamps(false, true, true)
      case _ => Stamps(false, true, false)
  }

  function WorkerStamps(phase: Phase): Stamps {
    match phase
    case Stamp(Running) => Stamps(true, false, false)
    case Mark(Running) => Stamps(true, true, false)
    case Persist(Running, _, _) => Stamps(true, true, false)
    case Mark(_) => Stamps(true, true, true)
    case Persist(_, _, _) => Stamps(true, true, true)
    case _ => Stamps(true, true, false)
  }

  function SettledStamps(route: Route): Stamps {
    match route
    case SyncRun => Stamps(false, true, true)
    case AsyncRefused(_) => Stamps(true, false, true)
    case AsyncRun => Stamps(true, false, false)
  }

  ghost predicate EntryTimed(s: Sys, id: string) {
    id in s.store && Chronological(s.store[id].task, s.clock) &&
    match s.store[id].place
    case WithSubmitter(who) =>
      who in s.subs && s.subs[who].pc.Active?
      && Present(s.store[id].task) == SubmitterStamps(s.subs[who], s.subs[who].pc.phase)
    case Settled(route) => Present(s.store[id].task) == SettledStamps(route)
    case _ => Present(s.store[id].task) == Stamps(true, false, false)
  }

  ghost predicate CopyTimed(s: Sys, g: nat) {
    g in s.gors && (s.gors[g].pc.Work? ==>
      && Chronological(s.gors[g].pc.task, s.clock)
      && Present(s.gors[g].pc.task) == WorkerStamps(s.gors[g].pc.phase))
  }

  ghost predicate TimeInv(s: Sys) {
    && (forall id :: id in s.store ==> EntryTimed(s, id))
    && (forall g :: g in s.gors ==> CopyTimed(s, g))
  }

  // ----- one step -----

  // The stamps that are set after the step are those of the new control point.
  predicate StampsGood(e: SubmitterEffect) {
    && (e.sub.pc.Active? ==> Present(e.task) == SubmitterStamps(e.sub, e.sub.pc.phase))
    && (e.pushed ==> Present(e.task) == Stamps(true, false, false))
    && (e.sub.pc.Returned? && !e.pushed ==> Present(e.task) == SettledStamps(RouteOf(e.sub)))
  }

  // A stamp may be written when no later one is present.
  predicate MayStamp(r: TaskRecord, target: TaskStatus) {
    match target
    case Queued => r.startedAt.None? && r.completedAt.None?
    case Running => r.completedAt.None?
    case _ => true
  }

  lemma StampIsChronological(r: TaskRecord, target: TaskStatus, clock: nat, now: nat)
    requires Chronological(r, clock) && clock <= now && MayStamp(r, target)
    ensures Chronological(Stamped(r, target, now), now)
  {
  }

  // Only a Stamp phase writes a timestamp.
  lemma OnlyStampsWriteTimes(r: TaskRecord, u: Submitter, registered: bool, x: Choice)
    requires u.pc.Active?
    ensures var r' := SubmitterLocal(r, u, registered, x).task;
            if u.pc.phase.Stamp? then r' == Stamped(r, u.pc.phase.target, x.now)
            else r' == r.(status := r'.status, result := r'.result)
  {
    hide Fallback, Text, Classify, KeepOrFallback;
  }

  lemma SubmitterStaysChronological(r: TaskRecord, u: Submitter, registered: bool, x: Choice, clock: nat)
    requires u.pc.Active? && clock <= x.now && Chronological(r, clock)
    requires u.pc.phase.Stamp? ==> MayStamp(r, u.pc.phase.target)
    ensures Chronological(SubmitterLocal(r, u, registered, x).task, x.now)
  {
    hide SubmitterLocal;
    OnlyStampsWriteTimes(r, u, registered, x);
    if u.pc.phase.Stamp? {
      StampIsChronological(r, u.pc.phase.target, clock, x.now);
    }
  }

  lemma AsyncRunnerStamps(r: TaskRecord, u: Submitter, registered: bool, x: Choice)
    requires u.pc.Active? && u.mode == Async && Present(r) == Stamps(true, false, false)
    requires u.pc.phase.Lookup? || u.pc.phase.Push? || (u.pc.phase.Conclude? && u.repeats == 1)
    ensures StampsGood(SubmitterLocal(r, u, registered, x))
  {
    hide KeepOrFallback, Classify, Text;
  }

  lemma AsyncStamps(r: TaskRecord, u: Submitter, cs: seq<Outcome>, registered: bool, x: Choice)
    requires u.pc.Active? && u.mode == Async && AsyncFacts(r, u, u.pc.phase, cs, registered)
    requires Present(r) == SubmitterStamps(u, u.pc.phase)
    ensures StampsGood(SubmitterLocal(r, u, registered, x))
    ensures u.pc.phase.Stamp? ==> MayStamp(r, u.pc.phase.target)
  {
    hide RefusalError, KeepOrFallback, Classify, Text;
    if u.pc.phase.Lookup? || u.pc.phase.Push? || u.pc.phase.Conclude? {
      hide AsyncFacts;
      AsyncRunnerStamps(r, u, registered, x);
    }
  }

  lemma SyncRunnerStamps(r: TaskRecord, u: Submitter, registered: bool, x: Choice)
    requires u.pc.Active? && u.mode == Sync && Present(r) == Stamps(false, true, false)
    requires u.pc.phase.Lookup? || u.pc.phase.Call? || u.pc.phase.Conclude?
    ensures StampsGood(SubmitterLocal(r, u, registered, x))
  {
    hide KeepOrFallback, Classify, Text;
  }

  lemma SyncStamps(r: TaskRecord, u: Submitter, cs: seq<Outcome>, registered: bool, x: Choice)
    requires u.pc.Active? && u.mode == Sync && SyncFacts(r, u, u.pc.phase, cs, registered)
    requires Present(r) == SubmitterStamps(u, u.pc.phase)
    ensures StampsGood(SubmitterLocal(r, u, registered, x))
    ensures u.pc.phase.Stamp? ==> MayStamp(r, u.pc.phase.target)
  {
    hide SyncVerdict, Succeeded, KeepOrFallback, Classify, Text;
    if u.pc.phase.Lookup? || u.pc.phase.Call? || u.pc.phase.Conclude? {
      SyncRunnerStamps(r, u, registered, x);
    }
  }

  lemma WorkerTimeLocal(
    t: TaskRecord, phase: Phase, r: TaskRecord, cs: seq<Outcome>, registered: bool, x: Choice, clock: nat)
    requires WorkerFacts(t, phase, r, cs, registered) && clock <= x.now
    requires Chronological(t, clock) && Present(t) == WorkerStamps(phase)
    ensures var e := WorkLocal(t, phase, registered, x);
            e.pc.Work? ==> Chronological(e.pc.task, x.now) && Present(e.pc.task) == WorkerStamps(e.pc.phase)
  {
  }

  lemma LaterIsChronological(r: TaskRecord, now: nat, later: nat)
    requires Chronological(r, now) && now <= later
    ensures Chronological(r, later)
  {
  }

  lemma SubmitterTime(s: Sys, who: nat, x: Choice)
    requires Inv(s) && TimeInv(s) && SubmitterEnabled(s, who) && s.clock <= x.now
    ensures TimeInv(SubmitterNext(s, who, x))
  {
    hide SubmitterLocal, AsyncFacts, SyncFacts, SettledFacts, QueueOk, GoroutineOk, Fifo;
    hide Chronological, Present, SubmitterStamps, MayStamp;
    var s' := SubmitterNext(s, who, x);
    var mine := s.subs[who].id;
    assert SubmitterOk(s, who) && EntryTimed(s, mine);
    var entry := s.store[mine];
    if s.subs[who].mode == Async {
      AsyncStamps(entry.task, s.subs[who], entry.calls, Registered(s, entry.task), x);
    } else {
      SyncStamps(entry.task, s.subs[who], entry.calls, Registered(s, entry.task), x);
    }
    SubmitterStaysChronological(entry.task, s.subs[who], Registered(s, entry.task), x, s.clock);
    forall id | id in s'.store ensures EntryTimed(s', id) {
      assert EntryTimed(s, id);
      LaterIsChronological(s.store[id].task, s.clock, x.now);
    }
    forall g | g in s'.gors ensures CopyTimed(s', g) {
      assert CopyTimed(s, g);
      if s.gors[g].pc.Work? {
        LaterIsChronological(s.gors[g].pc.task, s.clock, x.now);
      }
    }
  }

  lemma RegisteredCopy(t: TaskRecord, phase: Phase, r: TaskRecord, cs: seq<Outcome>, registered: bool)
    requires WorkerFacts(t, phase, r, cs, registered)
    ensures t.taskType == r.taskType
  {
  }

  lemma WorkTimeCopy(s: Sys, g: nat, x: Choice)
    requires Inv(s) && TimeInv(s) && GoroutineEnabled(s, g, x) && s.gors[g].pc.Work? && s.clock <= x.now
    ensures CopyTimed(WorkNext(s, g, x), g)
  {
    hide WorkLocal, Chronological, WorkerFacts, WorkerStamps;
    assert GoroutineOk(s, g) && CopyTimed(s, g);
    var t := s.gors[g].pc.task;
    var e := s.store[t.id];
    RegisteredCopy(t, s.gors[g].pc.phase, e.task, e.calls, Registered(s, e.task));
    WorkerTimeLocal(t, s.gors[g].pc.phase, e.task, e.calls, Registered(s, e.task), x, s.clock);
  }

  lemma SameStamps(r: TaskRecord, r': TaskRecord, now: nat)
    requires r' == r.(status := r'.status, result := r'.result)
    ensures Chronological(r, now) ==> Chronological(r', now)
    ensures Present(r') == Present(r)
  {
  }

  lemma WorkRoute(s: Sys, g: nat, x: Choice)
    requires Inv(s) && GoroutineEnabled(s, g, x) && s.gors[g].pc.Work?
    ensures var id := s.gors[g].pc.task.id;
            && id in s.store && s.store[id].place == WithWorker(g)
            && var place := WorkNext(s, g, x).store[id].place; place == WithWorker(g) || place == Settled(AsyncRun)
  {
    hide WorkLocal, WorkerFacts, SettledFacts, CanTransition;
    assert GoroutineOk(s, g);
    WorkStepGoodAt(s, g, x);
  }

  // A goroutine's step changes no stamp of a stored record.
  lemma WorkTime(s: Sys, g: nat, x: Choice)
    requires Inv(s) && TimeInv(s) && GoroutineEnabled(s, g, x) && s.gors[g].pc.Work? && s.clock <= x.now
    ensures TimeInv(WorkNext(s, g, x))
  {
    hide WorkLocal, WorkerFacts, WorkStepGood, Chronological, SubmitterOk, PlaceOk, QueueOk, Fifo;
    var s' := WorkNext(s, g, x);
    var t := s.gors[g].pc.task;
    assert GoroutineOk(s, g) && CopyTimed(s, g);
    WorkStepGoodAt(s, g, x);
    WorkTimeCopy(s, g, x);
    forall id | id in s'.store ensures EntryTimed(s', id) {
      assert EntryTimed(s, id);
      LaterIsChronological(s.store[id].task, s.clock, x.now);
      if id == t.id {
        SameStamps(s.store[id].task, s'.store[id].task, x.now);
        WorkRoute(s, g, x);
      }
    }
    forall h | h in s'.gors ensures CopyTimed(s', h) {
      assert CopyTimed(s, h);
      if h != g && s.gors[h].pc.Work? {
        LaterIsChronological(s.gors[h].pc.task, s.clock, x.now);
      }
    }
  }

  lemma AwaitTime(s: Sys, g: nat, x: Choice)
    requires Inv(s) && TimeInv(s) && GoroutineEnabled(s, g, x) && s.gors[g].pc.Await? && s.clock <= x.now
    ensures TimeInv(AwaitNext(s, g, x))
  {
    hide Chronological, SubmitterOk, PlaceOk, GoroutineOk;
    var s' := AwaitNext(s, g, x);
    if x.fault.None? {
      assert s.list[|s.list| - 1] == s.enqueued[|s.dequeued|];
      assert QueueOk(s, |s.dequeued|);
      assert EntryTimed(s, s.enqueued[|s.dequeued|].task.id);
      LaterIsChronological(s.enqueued[|s.dequeued|].task, s.clock, x.now);
    }
    forall id | id in s'.store ensures EntryTimed(s', id) {
      assert EntryTimed(s, id);
      LaterIsChronological(s.store[id].task, s.clock, x.now);
    }
    forall h | h in s'.gors ensures CopyTimed(s', h) {
      assert CopyTimed(s, h);
      if s.gors[h].pc.Work? {
        LaterIsChronological(s.gors[h].pc.task, s.clock, x.now);
      }
    }
  }

  lemma NewIsChronological(r: TaskRecord, u: Submitter, a: Action)
    requires a.Submit? && r == NewRecord(a.id, a.taskType, a.payload, a.now) && u.mode == a.mode
    requires u.pc == Active(if a.mode == Async then Mark(Queued) else Stamp(Running))
    ensures Chronological(r, a.now) && Present(r) == SubmitterStamps(u, u.pc.phase)
  {
  }

  lemma SubmitTime(s: Sys, a: Action)
    requires Inv(s) && TimeInv(s) && Enabled(s, a) && a.Submit?
    ensures TimeInv(Apply(s, a))
  {
    hide SubmitterOk, QueueOk, GoroutineOk, Fifo, SettledFacts, Chronological, Present, SubmitterStamps, WorkerStamps;
    var s' := Apply(s, a);
    forall id | id in s'.store ensures EntryTimed(s', id) {
      if id in s.store {
        assert EntryTimed(s, id) && PlaceOk(s, id);
        LaterIsChronological(s.store[id].task, s.clock, a.now);
      } else {
        NewIsChronological(s'.store[id].task, s'.subs[a.who], a);
      }
    }
    forall g | g in s'.gors ensures CopyTimed(s', g) {
      assert CopyTimed(s, g);
      if s.gors[g].pc.Work? {
        LaterIsChronological(s.gors[g].pc.task, s.clock, a.now);
      }
    }
  }

  lemma IdleTime(s: Sys, s': Sys)
    requires TimeInv(s) && s'.clock == s.clock && s'.store == s.store && s'.subs == s.subs
    requires forall g :: g in s'.gors && s'.gors[g].pc.Work? ==> g in s.gors && s'.gors[g] == s.gors[g]
    ensures TimeInv(s')
  {
    hide Chronological;
    forall id | id in s'.store ensures EntryTimed(s', id) {
      assert EntryTimed(s, id);
    }
    forall g | g in s'.gors ensures CopyTimed(s', g) {
      if g in s.gors {
        assert CopyTimed(s, g);
      }
    }
  }

  lemma TimeStep(s: Sys, a: Action)
    requires Inv(s) && TimeInv(s) && Enabled(s, a)
    ensures TimeInv(Apply(s, a))
  {
    hide Inv, TimeInv, SubmitNext, SubmitterNext, AwaitNext, WorkNext, ControllerNext;
    match a {
      case ControllerStep(c, timeout) =>
        ControllerFrame(s, c, timeout);
        IdleTime(s, Apply(s, a));
      case Submit(_, _, _, _, _, _) => SubmitTime(s, a);
      case SubmitterStep(who, x) => SubmitterTime(s, who, x);
      case GoroutineStep(g, x) =>
        if s.gors[g].pc.Await? {
          AwaitTime(s, g, x);
        } else if s.gors[g].pc.Work? {
          WorkTime(s, g, x);
        } else {
          IdleTime(s, Apply(s, a));
        }
      case _ => IdleTime(s, Apply(s, a));
    }
  }

  lemma {:induction false} TimeRun(s: Sys, actions: seq<Action>)
    requires Inv(s) && TimeInv(s) && IsRun(s, actions)
    ensures TimeInv(End(s, actions))
    decreases |actions|
  {
    hide Inv, TimeInv, Apply, Enabled, RecordsStep;
    if actions != [] {
      StepKeeps(s, actions[0]);
      TimeStep(s, actions[0]);
      TimeRun(Apply(s, actions[0]), actions[1..]);
    }
  }

  // Timestamps: every stored record and every worker's copy is chronological, and which stamps are present is
  // fixed by the holder's control point. A record in the queue or with a worker has exactly QueuedAt; a task
  // that ran synchronously ends with StartedAt and CompletedAt, a refused one with QueuedAt and CompletedAt,
  // and one that a worker ran ends with QueuedAt alone: only the worker's copy was stamped.
  lemma TimesAreChronological(size: nat, registry: set<string>, actions: seq<Action>)
    requires Reached(size, registry, actions)
    ensures var s := End(Init(size, registry), actions);
            && (forall id :: id in s.store ==> Chronological(s.store[id].task, s.clock))
            && (forall id :: id in s.store && s.store[id].place.Settled? ==>
                  Present(s.store[id].task) == SettledStamps(s.store[id].place.route))
            && (forall id :: id in s.store && (s.store[id].place.InQueue? || s.store[id].place.WithWorker?) ==>
                  Present(s.store[id].task) == Stamps(true, false, false))
            && (forall who :: who in s.subs && s.subs[who].pc.Active? ==>
                  && s.subs[who].id in s.store
                  && Present(s.store[s.subs[who].id].task) == SubmitterStamps(s.subs[who], s.subs[who].pc.phase))
            && (forall g :: g in s.gors && s.gors[g].pc.Work? ==>
                  && Chronological(s.gors[g].pc.task, s.clock)
                  && Present(s.gors[g].pc.task) == WorkerStamps(s.gors[g].pc.phase))
  {
    hide Apply, Enabled, Chronological, SubmitterStamps, SettledStamps, WorkerStamps, SubmitterFacts;
    InitInv(size, registry);
    assert TimeInv(Init(size, registry));
    TimeRun(Init(size, registry), actions);
    var s := End(Init(size, registry), actions);
    ReachedInv(size, registry, actions);
    forall who | who in s.subs && s.subs[who].pc.Active?
      ensures s.subs[who].id in s.store && s.store[s.subs[who].id].place == WithSubmitter(who)
    {
      assert SubmitterOk(s, who);
    }
    forall id | id in s.store ensures EntryTimed(s, id) {
    }
    forall g | g in s.gors ensures CopyTimed(s, g) {
    }
  }

  // ----- the values -----

  // Each stamp is as it was, or it is this reading of the clock.
  predicate StampedNow(r: TaskRecord, r': TaskRecord, now: nat) {
    && (r'.queuedAt == r.queuedAt || r'.queuedAt == Some(now))
    && (r'.startedAt == r.startedAt || r'.startedAt == Some(now))
    && (r'.completedAt == r.completedAt || r'.completedAt == Some(now))
  }

  lemma WorkerStampsNow(t: TaskRecord, phase: Phase, registered: bool, x: Choice)
    ensures var pc := WorkLocal(t, phase, registered, x).pc; pc.Work? ==> StampedNow(t, pc.task, x.now)
  {
  }

  lemma GoroutineStampsNow(s: Sys, g: nat, x: Choice)
    requires GoroutineEnabled(s, g, x)
    ensures var s' := GoroutineNext(s, g, x);
            && s'.clock == (if s.gors[g].pc.Await? || s.gors[g].pc.Work? then x.now else s.clock)
            && (forall id :: id in s.store ==>
                  id in s'.store && StampedNow(s.store[id].task, s'.store[id].task, s'.clock))
            && (g in s'.gors && s.gors[g].pc.Work? && s'.gors[g].pc.Work? ==>
                  StampedNow(s.gors[g].pc.task, s'.gors[g].pc.task, s'.clock))
  {
    hide WorkLocal;
    if s.gors[g].pc.Work? {
      var t := s.gors[g].pc.task;
      WorkerStampsNow(t, s.gors[g].pc.phase, t.taskType in s.registry, x);
    }
  }

  lemma SubmitterStampsNow(s: Sys, who: nat, x: Choice)
    requires SubmitterEnabled(s, who)
    ensures var s' := SubmitterNext(s, who, x);
            && s'.clock == x.now
            && forall id :: id in s.store ==> id in s'.store && StampedNow(s.store[id].task, s'.store[id].task, x.now)
  {
    var task := s.store[s.subs[who].id].task;
    OnlyStampsWriteTimes(task, s.subs[who], task.taskType in s.registry, x);
    hide SubmitterLocal, PlaceAfter, WithCall;
  }

  // What the clock shows after the action.
  function Reading(s: Sys, a: Action): nat {
    match a
    case Submit(_, _, _, _, _, now) => now
    case SubmitterStep(_, x) => x.now
    case GoroutineStep(g, x) => if g in s.gors && (s.gors[g].pc.Await? || s.gors[g].pc.Work?) then x.now else s.clock
    case _ => s.clock
  }

  // Every stamp is the clock's reading in the step that wrote it, on records and copies alike; SubmittedAt
  // is the reading of the submission.
  lemma StampsReadTheClock(s: Sys, a: Action)
    requires Enabled(s, a)
    ensures var s' := Apply(s, a);
            && (forall id :: id in s.store ==>
                  id in s'.store && StampedNow(s.store[id].task, s'.store[id].task, s'.clock))
            && (a.GoroutineStep? && a.goroutine in s'.gors
                && s.gors[a.goroutine].pc.Work? && s'.gors[a.goroutine].pc.Work? ==>
                  StampedNow(s.gors[a.goroutine].pc.task, s'.gors[a.goroutine].pc.task, s'.clock))
            && (a.Submit? && a.id !in s.store ==>
                  a.id in s'.store && s'.store[a.id].task.submittedAt == s'.clock == a.now)
            && s'.clock == Reading(s, a)
  {
    hide SubmitterNext, GoroutineNext, ControllerNext;
    match a {
      case SubmitterStep(who, x) => SubmitterStampsNow(s, who, x);
      case GoroutineStep(g, x) => GoroutineStampsNow(s, g, x);
      case ControllerStep(c, timeout) => ControllerFrame(s, c, timeout);
      case _ =>
    }
  }
}
