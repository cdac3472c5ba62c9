// tasks/task.go: the status graph and the task object.
module Tasks {
  import opened Wrappers
  import opened Errors

  // TaskStatus is a string type in the source: `Other` is any text that is none of the five constants.
  datatype TaskStatus = Submitted | Queued | Running | Done | Failed | Other(text: string) {
    predicate IsFinal() { this == Done || this == Failed }

    function Name(): string {
      match this
      case Submitted => "submitted"
      case Queued => "queued"
      case Running => "running"
      case Done => "done"
      case Failed => "failed"
      case Other(text) => text
    }
  }

  function AllowedTargets(from: TaskStatus): Option<seq<TaskStatus>> {
    match from
    case Submitted => Some([Running, Queued, Failed])
    case Queued => Some([Running, Failed])
    case Running => Some([Done, Failed])
    case Done => Some([])
    case Failed => Some([])
    case Other(_) => None
  }

  // canTransitionTo: None is Go's nil error.
  function TransitionError(from: TaskStatus, target: TaskStatus): (err: Option<Error>)
    ensures err.Some? ==> err.value.Plain?
  {
    match AllowedTargets(from)
    case None => Some(Plain("unknown current status: " + from.Name()))
    case Some(allowed) =>
      if target in allowed then None
      else Some(Plain("invalid transition from " + from.Name() + " to " + target.Name()))
  }

  predicate CanTransition(from: TaskStatus, target: TaskStatus) {
    TransitionError(from, target).None?
  }

  predicate NamedBy(status: TaskStatus, text: string) {
    match status
    case Submitted => text == "submitted"
    case Queued => text == "queued"
    case Running => text == "running"
    case Done => text == "done"
    case Failed => text == "failed"
    case Other(own) => text == own
  }

  // The wire text of a status, and of no other known status.
  lemma NamesTellStatusesApart(a: TaskStatus, b: TaskStatus)
    requires !a.Other? && !b.Other?
    ensures a.Name() == b.Name() <==> a == b
    ensures NamedBy(a, a.Name())
  {
    if a.Name() == b.Name() {
      assert a.Name()[0] == b.Name()[0];
    }
  }

  // The edges of the graph, one by one: a status moves in no other way.
  lemma EdgesAreExactly(a: TaskStatus, b: TaskStatus)
    ensures CanTransition(a, b) <==>
            || (a == Submitted && (b == Queued || b == Running || b == Failed))
            || (a == Queued && (b == Running || b == Failed))
            || (a == Running && (b == Done || b == Failed))
  {
  }

  lemma RunningCanFinish()
    ensures CanTransition(Queued, Running) && CanTransition(Running, Done) && CanTransition(Running, Failed)
  {
  }

  // The fields of a task object at one moment; times are readings of a clock.
  datatype TaskRecord = TaskRecord(
    id: string,
    taskType: string,
    payload: string,
    status: TaskStatus,
    result: string,
    submittedAt: nat,
    queuedAt: Option<nat>,
    startedAt: Option<nat>,
    completedAt: Option<nat>)

  function NewRecord(id: string, taskType: string, payload: string, now: nat): TaskRecord {
    TaskRecord(id, taskType, payload, Submitted, "", now, None, None, None)
  }

  // What no step of the pipeline may ever change.
  predicate SameTask(a: TaskRecord, b: TaskRecord) {
    a.id == b.id && a.taskType == b.taskType && a.payload == b.payload && a.submittedAt == b.submittedAt
  }

  // ----- the status graph -----

  predicate LegalPath(path: seq<TaskStatus>) {
    |path| > 0 && forall k {:trigger path[k]} :: 0 < k < |path| ==> CanTransition(path[k - 1], path[k])
  }

  function Rank(status: TaskStatus): nat {
    match status
    case Submitted => 3
    case Queued => 2
    case Running => 1
    case _ => 0
  }

  // A decidable form of "some legal path leads from a to b".
  predicate Reaches(a: TaskStatus, b: TaskStatus) {
    a == b || (!a.Other? && !b.Other? && Rank(b) < Rank(a))
  }

  lemma {:induction false} PathImpliesReaches(path: seq<TaskStatus>)
    requires LegalPath(path)
    ensures Reaches(path[0], path[|path| - 1])
    ensures |path| + Rank(path[|path| - 1]) <= Rank(path[0]) + 1
  {
    if |path| > 1 {
      var rest := path[1..];
      forall k | 0 < k < |rest| ensures CanTransition(rest[k - 1], rest[k]) {
        assert rest[k - 1] == path[k] && rest[k] == path[k + 1];
      }
      PathImpliesReaches(rest);
      assert CanTransition(path[0], path[1]);
    }
  }

  lemma ReachesHasPath(a: TaskStatus, b: TaskStatus) returns (path: seq<TaskStatus>)
    requires Reaches(a, b)
    ensures LegalPath(path) && path[0] == a && path[|path| - 1] == b
  {
    if a == b {
      path := [a];
    } else if CanTransition(a, b) {
      path := [a, b];
    } else {
      path := [a, Running, b];
    }
  }

  // Reaches is exactly reachability in the graph of canTransitionTo.
  lemma ReachesIffPath(a: TaskStatus, b: TaskStatus)
    ensures Reaches(a, b) <==>
            exists path: seq<TaskStatus> :: LegalPath(path) && path[0] == a && path[|path| - 1] == b
  {
    if Reaches(a, b) {
      var path := ReachesHasPath(a, b);
    }
    forall path: seq<TaskStatus> | LegalPath(path) && path[0] == a && path[|path| - 1] == b
      ensures Reaches(a, b)
    {
      PathImpliesReaches(path);
    }
  }

  // ----- the object -----

  class Task {
    const id: string
    const taskType: string
    const payload: string
    const submittedAt: nat
    var status: TaskStatus
    var result: string
    var queuedAt: Option<nat>
    var startedAt: Option<nat>
    var completedAt: Option<nat>

    // NewTask: the generated ID and the clock reading are parameters.
    constructor (id: string, taskType: string, payload: string, now: nat)
      ensures View() == NewRecord(id, taskType, payload, now)
      ensures this.id == id && this.taskType == taskType && this.payload == payload && submittedAt == now
      ensures status == Submitted && result == "" && queuedAt.None? && startedAt.None? && completedAt.None?
    {
      this.id, this.taskType, this.payload, this.submittedAt := id, taskType, payload, now;
      status, result := Submitted, "";
      queuedAt, startedAt, completedAt := None, None, None;
    }

    // A new object with the fields of another: `copied := *task`, and json.Unmarshal.
    constructor CopyOf(r: TaskRecord)
      ensures View() == r
    {
      id, taskType, payload, submittedAt := r.id, r.taskType, r.payload, r.submittedAt;
      status, result := r.status, r.result;
      queuedAt, startedAt, completedAt := r.queuedAt, r.startedAt, r.completedAt;
    }

    function View(): TaskRecord
      reads this
    {
      TaskRecord(id, taskType, payload, status, result, submittedAt, queuedAt, startedAt, completedAt)
    }

    // A refused transition changes nothing and names the task.
    method SetStatus(newStatus: TaskStatus) returns (err: Option<Error>)
      modifies this`status
      ensures err.None? <==> CanTransition(old(status), newStatus)
      ensures err.None? ==> View() == old(View()).(status := newStatus)
      ensures err.Some? ==> View() == old(View())
      ensures err.Some? ==>
                err.value == Plain("task " + id + ": " +
                                   if old(status).Other? then "unknown current status: " + old(status).text
                                   else "invalid transition from " + old(status).Name() + " to " + newStatus.Name())
    {
      var invalid := TransitionError(status, newStatus);
      if invalid.Some? {
        return Some(Plain("task " + id + ": " + invalid.value.text));
      }
      status := newStatus;
      return None;
    }
  }
}
