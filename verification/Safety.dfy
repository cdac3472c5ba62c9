// What holds in every reachable state and along every run, whatever the interleaving and the faults.
module Safety {
  import opened Wrappers
  import opened Errors
  import opened Tasks
  import opened Lifecycle
  import opened Pipeline
  import opened Ownership
  import opened Invariant

  ghost predicate Reached(size: nat, registry: set<string>, actions: seq<Action>) {
    IsRun(Init(size, registry), actions)
  }

  lemma ReachedInv(size: nat, registry: set<string>, actions: seq<Action>)
    requires Reached(size, registry, actions)
    ensures Inv(End(Init(size, registry), actions))
  {
    hide Apply, Enabled;
    InitInv(size, registry);
    RunKeeps(Init(size, registry), actions);
  }

  // ----- ownership -----

  ghost function SubmitterIds(s: Sys): set<string> {
    set who | who in s.subs && s.subs[who].pc.Active? :: s.subs[who].id
  }

  ghost function QueueIds(s: Sys): set<string> {
    set k | 0 <= k < |s.list| :: s.list[k].task.id
  }

  ghost function WorkerIds(s: Sys): set<string> {
    set g | g in s.gors && s.gors[g].pc.Work? :: s.gors[g].pc.task.id
  }

  // The stored tasks that are at rest: their record is final and nobody holds them.
  ghost function RestingIds(s: Sys): set<string> {
    set id | id in s.store && s.store[id].task.status.IsFinal()
             && id !in SubmitterIds(s) && id !in QueueIds(s) && id !in WorkerIds(s)
  }

  // No task is held twice: not by two submitters, in two slots, by two goroutines, or across kinds.
  ghost predicate HeldOnce(s: Sys) {
    && (forall v, w | v in s.subs && w in s.subs && s.subs[v].pc.Active? && s.subs[w].pc.Active? ::
          s.subs[v].id == s.subs[w].id ==> v == w)
    && (forall j, k | 0 <= j < |s.list| && 0 <= k < |s.list| :: s.list[j].task.id == s.list[k].task.id ==> j == k)
    && (forall g, h | g in s.gors && h in s.gors && s.gors[g].pc.Work? && s.gors[h].pc.Work? ::
          s.gors[g].pc.task.id == s.gors[h].pc.task.id ==> g == h)
    && SubmitterIds(s) !! QueueIds(s) && SubmitterIds(s) !! WorkerIds(s) && QueueIds(s) !! WorkerIds(s)
  }

  lemma SlotIds(s: Sys, k: nat)
    requires Inv(s) && k < |s.list|
    ensures var n := |s.enqueued| - 1 - k;
            |s.dequeued| <= n < |s.enqueued| && s.list[k] == s.enqueued[n] && QueueOk(s, n)
  {
  }

  lemma InvHeldOnce(s: Sys)
    requires Inv(s)
    ensures HeldOnce(s)
  {
    hide SubmitterFacts, WorkerFacts, QueuedFacts, PlaceOk;
    forall k | 0 <= k < |s.list|
      ensures s.list[k].task.id in s.store && s.store[s.list[k].task.id].place == InQueue(|s.enqueued| - 1 - k)
    {
      SlotIds(s, k);
    }
    forall w | w in s.subs && s.subs[w].pc.Active?
      ensures s.subs[w].id in s.store && s.store[s.subs[w].id].place == WithSubmitter(w)
    {
      assert SubmitterOk(s, w);
    }
    forall g | g in s.gors && s.gors[g].pc.Work?
      ensures s.gors[g].pc.task.id in s.store && s.store[s.gors[g].pc.task.id].place == WithWorker(g)
    {
      assert GoroutineOk(s, g);
    }
  }

  lemma InvCovered(s: Sys)
    requires Inv(s)
    ensures SubmitterIds(s) + QueueIds(s) + WorkerIds(s) + RestingIds(s) == s.store.Keys
  {
    hide SubmitterFacts, WorkerFacts, QueuedFacts;
    forall id | id in s.store ensures id in SubmitterIds(s) + QueueIds(s) + WorkerIds(s) + RestingIds(s) {
      assert PlaceOk(s, id);
      if s.store[id].place.InQueue? {
        assert s.list[|s.enqueued| - 1 - s.store[id].place.ordinal].task.id == id;
      } else if s.store[id].place.Settled? {
        assert s.store[id].task.status.IsFinal();
      }
    }
    forall id | id in SubmitterIds(s) + QueueIds(s) + WorkerIds(s) + RestingIds(s) ensures id in s.store {
      if id in SubmitterIds(s) {
        var who :| who in s.subs && s.subs[who].pc.Active? && s.subs[who].id == id;
        assert SubmitterOk(s, who);
      } else if id in QueueIds(s) {
        var k :| 0 <= k < |s.list| && s.list[k].task.id == id;
        SlotIds(s, k);
      } else if id in WorkerIds(s) {
        var g :| g in s.gors && s.gors[g].pc.Work? && s.gors[g].pc.task.id == id;
        assert GoroutineOk(s, g);
      }
    }
  }

  // Ownership and conservation: in every reachable state each stored task is held exactly once or is at
  // rest with a final status, and nothing else is held.
  lemma EachTaskInOnePlace(size: nat, registry: set<string>, actions: seq<Action>)
    requires Reached(size, registry, actions)
    ensures var s := End(Init(size, registry), actions);
            && HeldOnce(s)
            && SubmitterIds(s) + QueueIds(s) + WorkerIds(s) + RestingIds(s) == s.store.Keys
  {
    ReachedInv(size, registry, actions);
    InvHeldOnce(End(Init(size, registry), actions));
    InvCovered(End(Init(size, registry), actions));
  }

  // ----- histories -----

  // The statuses a poller of `id` can see, one per state of the run.
  ghost function Observed(s: Sys, actions: seq<Action>, id: string): seq<TaskStatus>
    requires IsRun(s, actions)
    decreases |actions|
  {
    (if id in s.store then [s.store[id].task.status] else [])
    + (if actions == [] then [] else Observed(Apply(s, actions[0]), actions[1..], id))
  }

  // Up to repeats, a path of canTransitionTo.
  ghost predicate LegalHistory(h: seq<TaskStatus>) {
    forall k {:trigger h[k]} :: 0 < k < |h| ==> h[k - 1] == h[k] || CanTransition(h[k - 1], h[k])
  }

  function Changes(h: seq<TaskStatus>): nat {
    if |h| <= 1 then 0 else (if h[0] == h[1] then 0 else 1) + Changes(h[1..])
  }

  lemma {:induction false} FewChanges(h: seq<TaskStatus>)
    requires |h| > 0 && LegalHistory(h)
    ensures Changes(h) + Rank(h[|h| - 1]) <= Rank(h[0])
  {
    if |h| > 1 {
      var rest := h[1..];
      forall k | 0 < k < |rest| ensures rest[k - 1] == rest[k] || CanTransition(rest[k - 1], rest[k]) {
        assert rest[k - 1] == h[k] && rest[k] == h[k + 1];
      }
      FewChanges(rest);
      assert h[0] == h[1] || CanTransition(h[0], h[1]);
    }
  }

  lemma NewTasksAreSubmitted(s: Sys, a: Action)
    requires Enabled(s, a)
    ensures forall id :: id in Apply(s, a).store && id !in s.store ==> Apply(s, a).store[id].task.status == Submitted
  {
    hide SubmitterLocal, WorkLocal;
  }

  lemma {:induction false} HistoryFrom(s: Sys, actions: seq<Action>, id: string)
    requires Inv(s) && IsRun(s, actions)
    ensures var h := Observed(s, actions, id);
            && LegalHistory(h)
            && (id in s.store ==> |h| > 0 && h[0] == s.store[id].task.status)
            && (id !in s.store && h != [] ==> h[0] == Submitted)
            && (id in End(s, actions).store ==> |h| > 0 && h[|h| - 1] == End(s, actions).store[id].task.status)
    decreases |actions|
  {
    hide Inv, CanTransition, Apply, Enabled;
    if actions != [] {
      var s' := Apply(s, actions[0]);
      StepKeeps(s, actions[0]);
      HistoryFrom(s', actions[1..], id);
      NewTasksAreSubmitted(s, actions[0]);
      var tail := Observed(s', actions[1..], id);
      if id in s.store {
        assert Observed(s, actions, id) == [s.store[id].task.status] + tail;
      } else {
        assert Observed(s, actions, id) == tail;
      }
    }
  }

  // Legal history: from any start of the system, the statuses a record passes through are, up to repeats,
  // a path of canTransitionTo from submitted, with at most three changes.
  lemma StoredHistoryIsLegal(size: nat, registry: set<string>, actions: seq<Action>, id: string)
    requires Reached(size, registry, actions)
    ensures var h := Observed(Init(size, registry), actions, id);
            && LegalHistory(h) && (h != [] ==> h[0] == Submitted) && Changes(h) <= 3
            && (id in End(Init(size, registry), actions).store ==> h != [])
  {
    hide Apply, Enabled;
    InitInv(size, registry);
    HistoryFrom(Init(size, registry), actions, id);
    var h := Observed(Init(size, registry), actions, id);
    if h != [] {
      FewChanges(h);
    }
  }

  // A later record against an earlier one.
  predicate LaterRecord(r: TaskRecord, r': TaskRecord) {
    && SameTask(r, r') && Reaches(r.status, r'.status)
    && (r.status.IsFinal() ==> r'.status == r.status && r'.result == r.result)
  }

  lemma {:induction false} RecordsOnlyAdvance(s: Sys, actions: seq<Action>, id: string)
    requires Inv(s) && IsRun(s, actions) && id in s.store
    ensures id in End(s, actions).store && LaterRecord(s.store[id].task, End(s, actions).store[id].task)
    ensures s.store[id].place.Settled? ==> End(s, actions).store[id] == s.store[id]
    decreases |actions|
  {
    hide Inv, Apply, Enabled;
    if actions != [] {
      StepKeeps(s, actions[0]);
      RecordsOnlyAdvance(Apply(s, actions[0]), actions[1..], id);
    }
  }

  // Monotone polling and terminal stability: of two observations of one ID, the later status is reachable
  // from the earlier, and a final status is seen for ever, with its result.
  lemma PollingIsMonotone(size: nat, registry: set<string>, before: seq<Action>, after: seq<Action>, id: string)
    requires Reached(size, registry, before) && IsRun(End(Init(size, registry), before), after)
    requires id in End(Init(size, registry), before).store
    ensures var s := End(Init(size, registry), before);
            id in End(s, after).store && LaterRecord(s.store[id].task, End(s, after).store[id].task)
  {
    hide Inv, Apply, Enabled;
    ReachedInv(size, registry, before);
    RecordsOnlyAdvance(End(Init(size, registry), before), after, id);
  }

  // ----- execution counts -----

  // The action is a call of handler.Run for this task.
  predicate RunsHandler(s: Sys, a: Action, id: string) {
    match a
    case SubmitterStep(who, _) => who in s.subs && s.subs[who].id == id && s.subs[who].pc == Active(Call)
    case GoroutineStep(g, _) =>
      g in s.gors && s.gors[g].pc.Work? && s.gors[g].pc.task.id == id && s.gors[g].pc.phase == Call
    case _ => false
  }

  ghost function HandlerRuns(s: Sys, actions: seq<Action>, id: string): nat
    requires IsRun(s, actions)
    decreases |actions|
  {
    if actions == [] then 0
    else (if RunsHandler(s, actions[0], id) then 1 else 0) + HandlerRuns(Apply(s, actions[0]), actions[1..], id)
  }

  ghost function Recorded(s: Sys, id: string): nat {
    if id in s.store then |s.store[id].calls| else 0
  }

  lemma SubmitterCalls(task: TaskRecord, u: Submitter, registered: bool, x: Choice)
    requires u.pc.Active?
    ensures SubmitterLocal(task, u, registered, x).called.Some? <==> u.pc.phase == Call
  {
  }

  lemma WorkerCalls(t: TaskRecord, phase: Phase, registered: bool, x: Choice)
    ensures WorkLocal(t, phase, registered, x).called.Some? <==> phase == Call
  {
  }

  lemma RecordedStep(s: Sys, a: Action, id: string)
    requires Inv(s) && Enabled(s, a)
    ensures Recorded(Apply(s, a), id) == Recorded(s, id) + if RunsHandler(s, a, id) then 1 else 0
  {
    hide SubmitterLocal, WorkLocal, ControllerNext, SubmitterOk, WorkerFacts, QueueOk, PlaceOk, Fifo;
    match a {
      case ControllerStep(c, timeout) => ControllerFrame(s, c, timeout);
      case SubmitterStep(who, x) =>
        var task := s.store[s.subs[who].id].task;
        SubmitterCalls(task, s.subs[who], task.taskType in s.registry, x);
      case GoroutineStep(g, x) =>
        assert GoroutineOk(s, g);
        if s.gors[g].pc.Work? {
          var t := s.gors[g].pc.task;
          WorkerCalls(t, s.gors[g].pc.phase, t.taskType in s.registry, x);
        }
      case _ =>
    }
  }

  lemma {:induction false} RecordedRun(s: Sys, actions: seq<Action>, id: string)
    requires Inv(s) && IsRun(s, actions)
    ensures Recorded(End(s, actions), id) == Recorded(s, id) + HandlerRuns(s, actions, id)
    decreases |actions|
  {
    hide Inv, Apply, Enabled, Recorded, RunsHandler, RecordsStep;
    if actions != [] {
      StepKeeps(s, actions[0]);
      RecordedStep(s, actions[0], id);
      RecordedRun(Apply(s, actions[0]), actions[1..], id);
    }
  }

  lemma CallsOfEntry(s: Sys, id: string)
    requires Inv(s) && id in s.store
    ensures var e := s.store[id];
            && |e.calls| <= 1
            && (e.place == Settled(AsyncRun) ==> |e.calls| == 1)
            && (e.place.Settled? && e.place.route.AsyncRefused? ==> e.calls == [])
            && (e.task.status == Submitted || e.task.status == Queued ==> e.calls == [])
            && (e.task.status == Done ==> |e.calls| == 1)
  {
    hide SyncError, Fallback, Text, KeepOrFallback, NoHandlerText;
    assert PlaceOk(s, id);
    match s.store[id].place {
      case WithSubmitter(who) =>
        assert SubmitterOk(s, who);
      case InQueue(n) => assert QueueOk(s, n);
      case WithWorker(g) => assert GoroutineOk(s, g);
      case Settled(_) =>
    }
  }

  // At most once: over any run handler.Run is called at most once for each task ID, exactly once for a task
  // that is done or that a worker has finished, and not at all for one that is submitted or queued.
  lemma HandlerRunsAtMostOnce(size: nat, registry: set<string>, actions: seq<Action>, id: string)
    requires Reached(size, registry, actions)
    ensures var s := End(Init(size, registry), actions);
            var runs := HandlerRuns(Init(size, registry), actions, id);
            && runs <= 1
            && (id !in s.store ==> runs == 0)
            && (id in s.store ==>
                  var e := s.store[id];
                  && (e.task.status == Done || e.place == Settled(AsyncRun) ==> runs == 1)
                  && (e.task.status == Submitted || e.task.status == Queued ==> runs == 0))
  {
    hide Inv, Apply, Enabled;
    var s := End(Init(size, registry), actions);
    ReachedInv(size, registry, actions);
    InitInv(size, registry);
    RecordedRun(Init(size, registry), actions, id);
    if id in s.store {
      CallsOfEntry(s, id);
    }
  }

  lemma SlotOfQueued(s: Sys, id: string)
    requires Inv(s) && id in s.store
    ensures s.store[id].place.InQueue? ==> id in QueueIds(s)
  {
    assert PlaceOk(s, id);
    if s.store[id].place.InQueue? {
      assert s.list[|s.enqueued| - 1 - s.store[id].place.ordinal].task.id == id;
    }
  }

  lemma RestingIsSettled(s: Sys, id: string)
    requires Inv(s) && id in RestingIds(s)
    ensures s.store[id].place.Settled?
  {
    assert PlaceOk(s, id);
    SlotOfQueued(s, id);
  }

  lemma SettledResult(s: Sys, id: string)
    requires Inv(s) && id in s.store && s.store[id].place.Settled? && s.store[id].task.status == Failed
    ensures var e := s.store[id];
            e.task.result == "" <==>
            e.place == Settled(AsyncRun) && |e.calls| == 1 && e.calls[0].err == Some(Plain(""))
  {
    assert PlaceOk(s, id);
    var e := s.store[id];
    if e.place.route == AsyncRun {
      FailedResultIsEmptyIff(e.task.taskType, e.calls[0]);
    } else if e.place.route == SyncRun {
      FailedResultIsEmptyIff(e.task.taskType, if e.calls == [] then Outcome("", Some(Plain(""))) else e.calls[0]);
    }
  }

  // A failed task explains itself, in every reachable state and whatever the handlers return: a task at rest
  // has an empty result only if it is done, or if a worker ran it and its one handler call returned a plain
  // error without text; and then it has.
  lemma FailuresExplainThemselves(size: nat, registry: set<string>, actions: seq<Action>, id: string)
    requires Reached(size, registry, actions)
    requires id in RestingIds(End(Init(size, registry), actions))
    requires End(Init(size, registry), actions).store[id].task.status == Failed
    ensures var e := End(Init(size, registry), actions).store[id];
            e.task.result == "" <==>
            e.place == Settled(AsyncRun) && |e.calls| == 1 && e.calls[0].err == Some(Plain(""))
  {
    hide Apply, Enabled, Inv;
    var s := End(Init(size, registry), actions);
    ReachedInv(size, registry, actions);
    RestingIsSettled(s, id);
    SettledResult(s, id);
  }

  // What a task at rest shows, by the way it took.
  predicate PromiseMet(e: Entry) {
    e.place.Settled? &&
    var verdict := Verdict(e.task.status, e.task.result);
    match e.place.route
    case SyncRun => SyncPromise(e.task.taskType, Last(e.calls), verdict, SyncError(e.task.taskType, Last(e.calls)))
    case AsyncRun => |e.calls| == 1 && WorkerPromise(e.calls[0], verdict)
    case AsyncRefused(pushFailed) =>
      && e.calls == [] && e.task.status == Failed && e.task.result != ""
      && (!pushFailed ==>
            e.task.result == "[not_found] " + ("no handler registered for task type: " + e.task.taskType))
  }

  lemma MissingText(taskType: string)
    ensures Text(NewNotFoundError(NoHandlerText(taskType))) ==
            "[not_found] " + ("no handler registered for task type: " + taskType)
  {
    hide Text;
    TextShows(NewNotFoundError(NoHandlerText(taskType)));
  }

  lemma SettledMeetsPromise(s: Sys, id: string)
    requires Inv(s) && id in s.store && s.store[id].place.Settled?
    ensures PromiseMet(s.store[id])
  {
    assert PlaceOk(s, id);
    var e := s.store[id];
    var verdict := Verdict(e.task.status, e.task.result);
    match e.place.route {
      case SyncRun =>
        SyncPromiseIff(e.task.taskType, Last(e.calls), verdict, SyncError(e.task.taskType, Last(e.calls)));
      case AsyncRun => WorkerPromiseIff(e.calls[0], verdict);
      case AsyncRefused(_) => MissingText(e.task.taskType);
    }
    hide SyncPromise, WorkerPromise, SyncVerdict, WorkerVerdict, SyncError, Inv;
  }

  // Every task at rest, in every reachable state, is done with its handler's result, or is failed and says
  // why: with the handler's own words, or in words made from its error, or naming the missing handler.
  lemma RestingTasksMeetTheirPromise(size: nat, registry: set<string>, actions: seq<Action>, id: string)
    requires Reached(size, registry, actions)
    requires id in RestingIds(End(Init(size, registry), actions))
    ensures PromiseMet(End(Init(size, registry), actions).store[id])
  {
    hide Apply, Enabled, Inv, PromiseMet;
    ReachedInv(size, registry, actions);
    RestingIsSettled(End(Init(size, registry), actions), id);
    SettledMeetsPromise(End(Init(size, registry), actions), id);
  }

  // ----- submissions -----

  // The action is an Enqueue of this task that succeeds.
  predicate Enqueues(s: Sys, a: Action, id: string) {
    && a.SubmitterStep? && a.who in s.subs && s.subs[a.who].id == id
    && s.subs[a.who].pc == Active(Push) && a.choice.fault.None?
  }

  ghost function EnqueueCount(s: Sys, actions: seq<Action>, id: string): nat
    requires IsRun(s, actions)
    decreases |actions|
  {
    if actions == [] then 0
    else (if Enqueues(s, actions[0], id) then 1 else 0) + EnqueueCount(Apply(s, actions[0]), actions[1..], id)
  }

  ghost predicate IsAccepted(s: Sys, id: string) {
    id in s.store && Accepted(s.store[id].place)
  }

  lemma PushedOnlyAtPush(task: TaskRecord, u: Submitter, registered: bool, x: Choice)
    requires u.pc.Active?
    ensures SubmitterLocal(task, u, registered, x).pushed <==> u.pc.phase == Push && x.fault.None?
    ensures u.pc.phase == Push && x.fault.None? ==> SubmitterLocal(task, u, registered, x).sub.pc.Returned?
  {
  }

  lemma GoroutineAcceptance(s: Sys, g: nat, x: Choice, id: string)
    requires Inv(s) && GoroutineEnabled(s, g, x)
    ensures IsAccepted(GoroutineNext(s, g, x), id) <==> IsAccepted(s, id)
  {
    hide WorkLocal, SubmitterOk, PlaceOk, WorkerFacts, CanTransition, SettledFacts;
    if s.gors[g].pc.Await? && x.fault.None? {
      assert s.list[|s.list| - 1] == s.enqueued[|s.dequeued|];
      assert QueueOk(s, |s.dequeued|);
    } else if s.gors[g].pc.Work? {
      assert GoroutineOk(s, g);
      WorkStepGoodAt(s, g, x);
    }
  }

  lemma SubmitterAcceptance(s: Sys, who: nat, x: Choice, id: string)
    requires Inv(s) && SubmitterEnabled(s, who)
    ensures var a := SubmitterStep(who, x);
            && (IsAccepted(SubmitterNext(s, who, x), id) <==> IsAccepted(s, id) || Enqueues(s, a, id))
            && (Enqueues(s, a, id) ==> !IsAccepted(s, id))
  {
    hide SubmitterLocal, SubmitterFacts, QueueOk, GoroutineOk, PlaceOk, Fifo, CanTransition, SettledFacts;
    var task := s.store[s.subs[who].id].task;
    assert SubmitterOk(s, who);
    PushedOnlyAtPush(task, s.subs[who], task.taskType in s.registry, x);
    SubmitterStepGood(s, who, x);
  }

  lemma AcceptanceStep(s: Sys, a: Action, id: string)
    requires Inv(s) && Enabled(s, a)
    ensures IsAccepted(Apply(s, a), id) <==> IsAccepted(s, id) || Enqueues(s, a, id)
    ensures Enqueues(s, a, id) ==> !IsAccepted(s, id)
  {
    hide SubmitterNext, GoroutineNext, ControllerNext, Inv;
    match a {
      case SubmitterStep(who, x) => SubmitterAcceptance(s, who, x, id);
      case GoroutineStep(g, x) => GoroutineAcceptance(s, g, x, id);
      case ControllerStep(c, timeout) => ControllerFrame(s, c, timeout);
      case _ =>
    }
  }

  lemma {:induction false} AcceptanceRun(s: Sys, actions: seq<Action>, id: string)
    requires Inv(s) && IsRun(s, actions)
    ensures (if IsAccepted(End(s, actions), id) then 1 else 0)
            == EnqueueCount(s, actions, id) + if IsAccepted(s, id) then 1 else 0
    decreases |actions|
  {
    hide Inv, Apply, Enabled, IsAccepted, Enqueues, RecordsStep;
    if actions != [] {
      StepKeeps(s, actions[0]);
      AcceptanceStep(s, actions[0], id);
      AcceptanceRun(Apply(s, actions[0]), actions[1..], id);
    }
  }

  // By task: an ID is enqueued at most once, whoever submits it; a refused task never; and whatever a
  // submission returns, a refused Save included, an error is a structured one.
  lemma TasksAreEnqueuedAtMostOnce(size: nat, registry: set<string>, actions: seq<Action>, who: nat)
    requires Reached(size, registry, actions)
    requires who in End(Init(size, registry), actions).subs && End(Init(size, registry), actions).subs[who].pc.Returned?
    ensures var s := End(Init(size, registry), actions);
            var u := s.subs[who];
            var pushes := EnqueueCount(Init(size, registry), actions, u.id);
            && u.id in s.store && pushes <= 1
            && (u.pc.err.Some? ==> u.pc.err.value.TaskError?)
            && (u.pc.err.None? && u.mode == Async ==> pushes == 1)
            && (u.pc.err.None? && u.mode == Sync ==> pushes == 0 && s.store[u.id].task.status == Done)
            && (s.store[u.id].place.Settled? && s.store[u.id].place.route.AsyncRefused? ==>
                  pushes == 0 && s.store[u.id].task.status == Failed && s.store[u.id].task.result != "")
  {
    hide Apply, Enabled, SubmitterFacts;
    var s := End(Init(size, registry), actions);
    ReachedInv(size, registry, actions);
    InitInv(size, registry);
    AcceptanceRun(Init(size, registry), actions, s.subs[who].id);
    assert SubmitterOk(s, who);
    assert PlaceOk(s, s.subs[who].id);
  }

  // A submission whose generated ID is already stored is refused: it enqueues nothing, changes no record,
  // and its caller gets the internal error.
  lemma CollidingSubmitIsInert(s: Sys, a: Action)
    requires Enabled(s, a) && a.Submit? && a.id in s.store
    ensures var s' := Apply(s, a);
            && s'.store == s.store && s'.list == s.list && s'.gors == s.gors
            && s'.subs[a.who].pc == Returned(Some(TaskError(InternalError, "failed to save task", 500)))
  {
  }

  // ----- the registry -----

  lemma RegistryStep(s: Sys, a: Action)
    requires Enabled(s, a)
    ensures Apply(s, a).registry == if a.Register? then s.registry + {a.taskType} else s.registry
  {
    hide EffectOf, PlaceAfter, WorkLocal, ControllerNext;
    match a {
      case ControllerStep(c, timeout) => ControllerFrame(s, c, timeout);
      case _ =>
    }
  }

  // The registry holds what it held at the start and what was registered since, no more and no less.
  lemma {:induction false} RegistryGrowsExactly(s: Sys, actions: seq<Action>)
    requires IsRun(s, actions)
    ensures End(s, actions).registry == s.registry + set a | a in actions && a.Register? :: a.taskType
    decreases |actions|
  {
    hide Apply, Enabled;
    if actions != [] {
      RegistryStep(s, actions[0]);
      RegistryGrowsExactly(Apply(s, actions[0]), actions[1..]);
      assert forall a :: a in actions <==> a == actions[0] || a in actions[1..];
    }
  }

  // ----- queue -----

  function Reversed(list: seq<QueuedContext>): seq<QueuedContext> {
    if list == [] then [] else Reversed(list[1..]) + [list[0]]
  }

  lemma {:induction false} ReversedAt(list: seq<QueuedContext>, k: nat)
    requires k < |list|
    ensures |Reversed(list)| == |list| && Reversed(list)[k] == list[|list| - 1 - k]
    decreases |list|
  {
    if |list| > 1 {
      ReversedAt(list[1..], if k < |list| - 1 then k else 0);
    }
  }

  lemma ReversedLength(list: seq<QueuedContext>)
    ensures |Reversed(list)| == |list|
  {
  }

  // FIFO: what was enqueued is what was dequeued followed by the reversed Redis list.
  lemma QueueIsFifo(size: nat, registry: set<string>, actions: seq<Action>)
    requires Reached(size, registry, actions)
    ensures var s := End(Init(size, registry), actions);
            s.enqueued == s.dequeued + Reversed(s.list) && |s.list| == |s.enqueued| - |s.dequeued|
  {
    ReachedInv(size, registry, actions);
    var s := End(Init(size, registry), actions);
    ReversedLength(s.list);
    forall n | 0 <= n < |s.enqueued| ensures s.enqueued[n] == (s.dequeued + Reversed(s.list))[n] {
      if n >= |s.dequeued| {
        ReversedAt(s.list, n - |s.dequeued|);
      }
    }
  }

  // Snapshot and store agree: a queued context carries no error and is, field by field, the stored record,
  // queued with an empty result, and its type has a handler.
  lemma SnapshotsMatchTheStore(size: nat, registry: set<string>, actions: seq<Action>, k: nat)
    requires Reached(size, registry, actions) && k < |End(Init(size, registry), actions).list|
    ensures var s := End(Init(size, registry), actions);
            var ctx := s.list[k];
            && ctx.err.None? && ctx.task.id in s.store && s.store[ctx.task.id].task == ctx.task
            && ctx.task.status == Queued && ctx.task.result == "" && ctx.task.taskType in s.registry
  {
    ReachedInv(size, registry, actions);
    var s := End(Init(size, registry), actions);
    SlotIds(s, k);
    assert QueueOk(s, |s.enqueued| - 1 - k);
  }

  // No dequeued task is dropped: a goroutine's transition to running is never refused, its handler is
  // always found, and every store.Update it makes finds the record and leaves the record's status and
  // result equal to its own copy's.
  lemma NoTaskIsDropped(size: nat, registry: set<string>, actions: seq<Action>, g: nat)
    requires Reached(size, registry, actions)
    requires g in End(Init(size, registry), actions).gors && End(Init(size, registry), actions).gors[g].pc.Work?
    ensures var s := End(Init(size, registry), actions);
            var t := s.gors[g].pc.task;
            var phase := s.gors[g].pc.phase;
            && t.id in s.store
            && (phase.Mark? ==> CanTransition(t.status, phase.target))
            && (phase.Lookup? ==> t.taskType in s.registry)
            && (phase.Persist? ==> phase.status == t.status && phase.result == t.result)
            && (phase.Lookup? || phase.Call? ==>
                  s.store[t.id].task.status == t.status && s.store[t.id].task.result == t.result)
  {
    ReachedInv(size, registry, actions);
    assert GoroutineOk(End(Init(size, registry), actions), g);
  }
}
