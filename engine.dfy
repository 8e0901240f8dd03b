/** The engine of core/engine.hh: the default worker count, `running_`, and the two ways of
    handing a task to the shared queue that a `Worker` consumes (`fire_and_forget` and
    `spawn_task`). Threads (`start`, the destructor) are left out. */
module Engines {
  import opened Tasks
  import opened TaskQueue
  import opened TaskArena
  import opened Workers

  /** The range of `unsigned int`, the type `std::thread::hardware_concurrency` returns. */
  newtype uint32 = x: int | 0 <= x < 0x1_0000_0000

  /** `static_cast<int>` of an `unsigned int`: the value modulo 2^32, read as two's complement. */
  function ToInt32(u: uint32): (r: int)
    ensures -0x8000_0000 <= r < 0x8000_0000
    ensures r % 0x1_0000_0000 == u as int % 0x1_0000_0000
  {
    if u < 0x8000_0000 then u as int else u as int - 0x1_0000_0000
  }

  /** The default `num_workers`: `std::max(static_cast<int>(hardware_concurrency()) - 2, 2)`.
      Two fewer than the hardware threads, but never below two; a count that does not fit an
      `int` (or the "unknown" answer 0) falls back to two. */
  function DefaultWorkerCount(hardwareConcurrency: uint32): (r: nat)
    ensures r >= 2
    ensures r == if 4 <= hardwareConcurrency < 0x8000_0000 then hardwareConcurrency as int - 2 else 2
  {
    var n := ToInt32(hardwareConcurrency) - 2;
    if n > 2 then n else 2
  }

  /** `fire_and_forget(x)`: a heap copy of the handle (one more reference) goes on the queue,
      then the task is flagged as enqueued. */
  function Fire(ws: WorkerState, t: Id): (r: WorkerState)
    requires t < |ws.tasks| && ws.tasks[t].refs > 0
  {
    var copied := ws.tasks[t := CopyHandle(ws.tasks[t])];
    ws.(queue := ws.queue + [t], tasks := SetEnqueued(copied, t, true))
  }

  /** `fire_and_forget` adds exactly one handle to the back of the queue, takes one more
      reference to the task and flags it; every other task is untouched. */
  lemma FireFacts(ws: WorkerState, t: Id)
    requires Tasks.Valid(ws.tasks) && Live(ws.tasks, t)
    ensures var next := Fire(ws, t);
      next.queue == ws.queue + [t] && multiset(next.queue) == multiset(ws.queue) + multiset{t} &&
      next.tasks[t] == ws.tasks[t].(enqueued := true, refs := ws.tasks[t].refs + 1) &&
      (forall i :: 0 <= i < |ws.tasks| && i != t ==> next.tasks[i] == ws.tasks[i]) &&
      next.running == ws.running && Tasks.Valid(next.tasks) &&
      (Closed(ws.tasks) ==> Closed(next.tasks))
  {
    var next := Fire(ws, t);
    forall i | 0 <= i < |next.tasks|
      ensures WellFormed(next.tasks, i)
    {
      assert WellFormed(ws.tasks, i);
    }
  }

  /** Handing a worker a task that has not completed and is not already queued keeps the
      worker's invariant. (`fire_and_forget` itself checks neither; see `FireTwiceQueuesTwice`.) */
  lemma FireKeepsInv(ws: WorkerState, t: Id)
    requires WInv(ws) && Live(ws.tasks, t) && ws.tasks[t].state == Awaiting && t !in ws.queue
    ensures WInv(Fire(ws, t))
  {
    FireFacts(ws, t);
    var next := Fire(ws, t);
    forall k | 0 <= k < |next.queue|
      ensures Live(next.tasks, next.queue[k]) && next.tasks[next.queue[k]].state == Awaiting &&
              (next.tasks[next.queue[k]].enqueued || !Awaited(next.tasks, next.queue[k]))
    {
      AwaitedSame(ws.tasks, next.tasks, next.queue[k]);
      if k < |ws.queue| {
        assert next.queue[k] == ws.queue[k];
      }
    }
    DistinctAppend(ws.queue, t);
  }

  /** `fire_and_forget` checks no flag: firing the same task twice queues it twice. */
  lemma FireTwiceQueuesTwice(ws: WorkerState, t: Id)
    requires Tasks.Valid(ws.tasks) && Live(ws.tasks, t)
    ensures Live(Fire(ws, t).tasks, t)
    ensures var twice := Fire(Fire(ws, t), t);
      multiset(twice.queue)[t] == multiset(ws.queue)[t] + 2 && !Distinct(twice.queue)
  {
    FireFacts(ws, t);
    var once := Fire(ws, t);
    FireFacts(once, t);
    var twice := Fire(once, t);
    assert twice.queue[|twice.queue| - 2] == t == twice.queue[|twice.queue| - 1];
  }

  class Engine {
    const numWorkers: nat
    const numDispatchers: nat
    /** `queue_`: the queue the worker loop consumes. */
    const queue: Queue<Id>
    /** The tasks the queued handles refer to. */
    const arena: Arena
    /** `running_`. */
    var running: bool

    ghost function State(): WorkerState
      reads this, queue, arena
    {
      WorkerState(queue.contents, arena.tasks, running)
    }

    /** `Engine(num_workers, num_dispatchers)`: an empty queue, and `running_` true. */
    constructor (numWorkers: nat, numDispatchers: nat, arena: Arena)
      ensures this.numWorkers == numWorkers && this.numDispatchers == numDispatchers
      ensures this.arena == arena && fresh(queue)
      ensures State() == WorkerState([], arena.tasks, true)
    {
      this.numWorkers := numWorkers;
      this.numDispatchers := numDispatchers;
      this.arena := arena;
      queue := new Queue<Id>();
      running := true;
    }

    /** `Engine()` with its default arguments: the default worker count and one dispatcher. */
    constructor Default(hardwareConcurrency: uint32, arena: Arena)
      ensures numWorkers == DefaultWorkerCount(hardwareConcurrency) && numWorkers >= 2
      ensures numDispatchers == 1
      ensures this.arena == arena && fresh(queue)
      ensures State() == WorkerState([], arena.tasks, true)
    {
      numWorkers := DefaultWorkerCount(hardwareConcurrency);
      numDispatchers := 1;
      this.arena := arena;
      queue := new Queue<Id>();
      running := true;
    }

    /** `fire_and_forget(x)`. */
    method FireAndForget(t: Id)
      requires arena.Valid() && Live(arena.tasks, t)
      modifies queue, arena
      ensures arena.Valid() && (old(Closed(arena.tasks)) ==> Closed(arena.tasks))
      ensures State() == Fire(old(State()), t)
    {
      FireFacts(State(), t);
      var copy := arena.Clone(t);
      queue.Push(copy);
      arena.SetEnqueued(t, true);
    }

    /** `spawn_task(x)`: `fire_and_forget(x)`, then returns the task it was given. */
    method SpawnTask(t: Id) returns (h: Id)
      requires arena.Valid() && Live(arena.tasks, t)
      modifies queue, arena
      ensures arena.Valid() && (old(Closed(arena.tasks)) ==> Closed(arena.tasks))
      ensures h == t && State() == Fire(old(State()), t)
    {
      FireAndForget(t);
      h := t;
    }
  }
}
