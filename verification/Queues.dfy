// tasks/queue/redis.go: the FIFO of serialised contexts, with the Redis list as a sequence.
module Queues {
  import opened Wrappers
  import opened Errors
  import opened Tasks
  import opened Contexts

  // The serialised form: values only, no reference to the submitter's objects.
  datatype Message = Message(task: TaskRecord, error: Option<Error>, startTime: nat, endTime: Option<nat>)

  ghost function Encoded(ctx: ExecutionContext): Message
    reads ctx, ctx.task
  {
    Message(ctx.task.View(), ctx.error, ctx.startTime, ctx.endTime)
  }

  class RedisTaskQueue {
    // What becomes of the n-th command: an error, or nothing when it reaches Redis. Contracts hold for every
    // such schedule of failures.
    const connection: nat -> Option<Error>
    var commands: nat
    var list: seq<Message>
    // how often either operation was called, successfully or not
    ghost var enqueueCalls: nat
    ghost var dequeueCalls: nat

    constructor (connection: nat -> Option<Error>)
      ensures this.connection == connection && commands == 0
      ensures list == [] && enqueueCalls == 0 && dequeueCalls == 0
    {
      this.connection := connection;
      list, commands, enqueueCalls, dequeueCalls := [], 0, 0, 0;
    }

    function NextAnswer(): Option<Error>
      reads this
    {
      connection(commands)
    }

    // LPUSH. A failing Enqueue leaves the list as it was.
    method Enqueue(ctx: ExecutionContext) returns (err: Option<Error>)
      modifies this
      ensures err == old(NextAnswer()) && commands == old(commands) + 1
      ensures list == if err.None? then [Encoded(ctx)] + old(list) else old(list)
      ensures enqueueCalls == old(enqueueCalls) + 1 && dequeueCalls == old(dequeueCalls)
    {
      enqueueCalls := enqueueCalls + 1;
      err := connection(commands);
      commands := commands + 1;
      if err.None? {
        list := [Message(ctx.task.View(), ctx.error, ctx.startTime, ctx.endTime)] + list;
      }
    }

    // The next command finds a message.
    ghost predicate Delivers()
      reads this
    {
      NextAnswer().None? && list != []
    }

    // BRPOP and decoding. On an empty list the wait ends only with an error. A context that carries an error
    // cannot be decoded (an error interface has no JSON form to decode into): it is popped and lost.
    method Dequeue() returns (ctx: ExecutionContext?, err: Option<Error>)
      modifies this
      ensures err.None? <==> ctx != null
      ensures list == if old(Delivers()) then old(list)[..|old(list)| - 1] else old(list)
      ensures err.None? <==> old(Delivers()) && old(list)[|old(list)| - 1].error.None?
      ensures err.None? ==>
                && fresh(ctx) && fresh(ctx.task) && ctx.error.None?
                && Encoded(ctx) == old(list)[|old(list)| - 1]
      ensures commands == old(commands) + 1
      ensures dequeueCalls == old(dequeueCalls) + 1 && enqueueCalls == old(enqueueCalls)
    {
      dequeueCalls := dequeueCalls + 1;
      ctx, err := null, connection(commands);
      commands := commands + 1;
      if err.Some? {
        return null, Some(Plain("failed to dequeue task: " + Text(err.value)));
      }
      if list == [] {
        return null, Some(Plain("failed to dequeue task"));
      }
      var message := list[|list| - 1];
      list := list[..|list| - 1];
      if message.error.Some? {
        return null, Some(Plain("failed to unmarshall task"));
      }
      var task := new Task.CopyOf(message.task);
      ctx := new ExecutionContext(task, message.startTime);
      ctx.endTime := message.endTime;
    }

    // LLEN.
    method GetQueueDepth() returns (depth: nat, err: Option<Error>)
      modifies this`commands
      ensures err == old(NextAnswer()) && commands == old(commands) + 1
      ensures err.None? ==> depth == |list|
    {
      depth, err := 0, connection(commands);
      commands := commands + 1;
      if err.None? {
        depth := |list|;
      }
    }
  }
}
