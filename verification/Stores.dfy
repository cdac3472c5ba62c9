// tasks/store: the in-memory store, and the TaskStore interface as the other components see it.
module Stores {
  import opened Wrappers
  import opened Errors
  import opened Tasks

  function NotStored(id: string): Error { Plain("task with ID " + id + " not found") }

  class MemoryTaskStore {
    var tasks: map<string, Task>

    // Every record is stored under its own ID. An ID never changes, so distinct keys hold distinct objects.
    ghost predicate Valid()
      reads this
    {
      forall id :: id in tasks ==> tasks[id].id == id
    }

    constructor ()
      ensures Valid() && tasks == map[]
    {
      tasks := map[];
    }

    // The stored object is this very task: its owner's writes are writes to the store.
    ghost predicate Holds(task: Task)
      reads this
    {
      task.id in tasks && tasks[task.id] == task
    }

    ghost function RecordOf(id: string): set<Task>
      reads this
    {
      if id in tasks then {tasks[id]} else {}
    }

    // Save keeps the caller's object; an ID that is taken is refused.
    method Save(task: Task) returns (err: Option<Error>)
      modifies this
      ensures err.None? <==> task.id !in old(tasks)
      ensures tasks == if err.None? then old(tasks)[task.id := task] else old(tasks)
      ensures err.Some? ==> err.value == Plain("task with ID " + task.id + " already exists")
      ensures old(Valid()) ==> Valid()
    {
      if task.id in tasks {
        return Some(Plain("task with ID " + task.id + " already exists"));
      }
      tasks := tasks[task.id := task];
      return None;
    }

    // Get hands out a new object: writing to its fields cannot reach the store.
    method Get(id: string) returns (task: Task?, err: Option<Error>)
      ensures err.None? <==> id in tasks
      ensures err.None? ==> task != null && fresh(task) && task.View() == tasks[id].View()
      ensures err.Some? ==> task == null && err.value == NotStored(id)
    {
      if id !in tasks {
        return null, Some(NotStored(id));
      }
      task := new Task.CopyOf(tasks[id].View());
      err := None;
    }

    // Update writes one record's status and result, without asking whether the transition is allowed.
    method Update(id: string, status: TaskStatus, result: string) returns (err: Option<Error>)
      modifies RecordOf(id)`status, RecordOf(id)`result
      ensures err.None? <==> id in tasks
      ensures err.None? ==> tasks[id].View() == old(tasks[id].View()).(status := status, result := result)
      ensures err.Some? ==> err.value == NotStored(id)
    {
      if id !in tasks {
        return Some(NotStored(id));
      }
      var task := tasks[id];
      task.status, task.result := status, result;
      return None;
    }
  }

  // Under Valid, an Update of one ID leaves every record with another ID as it was.
  lemma RecordsAreSeparate(store: MemoryTaskStore, a: string, b: string)
    requires store.Valid() && a in store.tasks && b in store.tasks
    ensures store.tasks[a] == store.tasks[b] <==> a == b
  {
    if store.tasks[a] == store.tasks[b] {
      assert store.tasks[a].id == a;
    }
  }

  // A TaskStore: the memory store behind a connection. Any call may fail before it reaches a store that is
  // not `reliable`; a reliable one is the memory store itself.
  class TaskStore {
    const memory: MemoryTaskStore
    const reliable: bool
    // how often Update was called, successfully or not
    ghost var updates: nat

    constructor (memory: MemoryTaskStore, reliable: bool)
      ensures this.memory == memory && this.reliable == reliable
    {
      this.memory, this.reliable := memory, reliable;
    }

    method Outage() returns (err: Option<Error>)
      ensures reliable ==> err.None?
    {
      err := None;
      if !reliable {
        err := *;
      }
    }

    method Save(task: Task) returns (err: Option<Error>)
      modifies memory
      ensures err.None? ==> task.id !in old(memory.tasks)
      ensures reliable && task.id !in old(memory.tasks) ==> err.None?
      ensures memory.tasks == if err.None? then old(memory.tasks)[task.id := task] else old(memory.tasks)
      ensures old(memory.Valid()) ==> memory.Valid()
    {
      err := Outage();
      if err.None? {
        err := memory.Save(task);
      }
    }

    method Get(id: string) returns (task: Task?, err: Option<Error>)
      ensures err.None? ==> id in memory.tasks && task != null && fresh(task) && task.View() == memory.tasks[id].View()
      ensures reliable && id in memory.tasks ==> err.None?
      ensures err.Some? ==> task == null
    {
      task := null;
      err := Outage();
      if err.None? {
        task, err := memory.Get(id);
      }
    }

    method Update(id: string, status: TaskStatus, result: string) returns (err: Option<Error>)
      modifies this`updates, memory.RecordOf(id)`status, memory.RecordOf(id)`result
      ensures updates == old(updates) + 1
      ensures err.None? ==> id in memory.tasks
      ensures reliable && id in memory.tasks ==> err.None?
      ensures err.None? ==> memory.tasks[id].View() == old(memory.tasks[id].View()).(status := status, result := result)
      ensures err.Some? && id in memory.tasks ==> memory.tasks[id].View() == old(memory.tasks[id].View())
    {
      updates := updates + 1;
      err := Outage();
      if err.None? {
        err := memory.Update(id, status, result);
      }
    }
  }
}
