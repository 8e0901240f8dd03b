/** The single-queue worker of core/worker.cc: one loop over one shared queue that puts back
    a task whose awaited task has not completed, and otherwise runs it. On `Awaiting` the
    awaited task is queued (once) and the task that ran goes back behind it.

    `queue_->get()` is a blocking dequeue: on an empty queue the model reports `Blocked` and
    changes nothing. As for the scheduler, one iteration is modelled at a time, first as a
    function on a `WorkerState` value and then by a `Worker` object proved to agree with it. */
module Workers {
  import opened Wrappers
  import opened Tasks
  import opened TaskQueue
  import opened TaskArena

  /** `queue_`, the tasks its handles refer to, and `running_`. */
  datatype WorkerState = WorkerState(queue: seq<Id>, tasks: seq<Task>, running: bool)

  /** What one iteration of the `while (running_)` loop did. */
  datatype Outcome =
    | Stopped                          // `running_` was false: the loop exits
    | Blocked                          // the queue was empty: `get` waits
    | Requeued(task: Id)               // the task's awaited task had not completed
    | Ran(task: Id, state: TaskState)  // the task was run and reported `state`

  datatype Transition = Transition(next: WorkerState, outcome: Outcome)

  predicate Distinct(q: seq<Id>) {
    forall i, j :: 0 <= i < j < |q| ==> q[i] != q[j]
  }

  /** Some task's body awaits `a`. */
  predicate Awaited(tasks: seq<Task>, a: Id) {
    exists i, k :: 0 <= i < |tasks| && tasks[i].body.Coroutine? && 0 <= k < |tasks[i].body.awaits| &&
                   tasks[i].body.awaits[k] == a
  }

  /** Whether a task is awaited depends only on the bodies. */
  lemma AwaitedSame(tasks: seq<Task>, other: seq<Task>, a: Id)
    requires |other| == |tasks| && forall i :: 0 <= i < |tasks| ==> other[i].body == tasks[i].body
    ensures Awaited(other, a) <==> Awaited(tasks, a)
  {
    if Awaited(tasks, a) {
      var i, k :| 0 <= i < |tasks| && tasks[i].body.Coroutine? && 0 <= k < |tasks[i].body.awaits| &&
                  tasks[i].body.awaits[k] == a;
      assert other[i].body.awaits[k] == a;
    }
    if Awaited(other, a) {
      var i, k :| 0 <= i < |other| && other[i].body.Coroutine? && 0 <= k < |other[i].body.awaits| &&
                  other[i].body.awaits[k] == a;
      assert tasks[i].body.awaits[k] == a;
    }
  }

  /** Every queued task exists and has not completed. A task some body awaits carries the
      enqueued flag when it is queued; a root that `enqueue` or the dispatcher queued need not. */
  predicate Queued(tasks: seq<Task>, q: seq<Id>) {
    forall k :: 0 <= k < |q| ==>
      Live(tasks, q[k]) && tasks[q[k]].state == Awaiting && (tasks[q[k]].enqueued || !Awaited(tasks, q[k]))
  }

  /** What the loop relies on: a well-formed arena whose live tasks link only to live tasks,
      and a queue holding each unfinished task at most once, with the flag on every queued task
      that is awaited (the flag is what keeps the loop from queueing such a task twice). */
  predicate WInv(ws: WorkerState) {
    Tasks.Valid(ws.tasks) && Closed(ws.tasks) && Queued(ws.tasks, ws.queue) && Distinct(ws.queue)
  }

  /** One iteration of `Worker::start`. */
  function Iteration(ws: WorkerState): (tr: Transition)
    requires WInv(ws)
  {
    if !ws.running then Transition(ws, Stopped)
    else if ws.queue == [] then Transition(ws, Blocked)
    else
      var t := ws.queue[0];
      var rest := ws.queue[1..];
      assert Live(ws.tasks, t) && WellFormed(ws.tasks, t);
      if !Ready(ws.tasks, t) then Transition(ws.(queue := rest + [t]), Requeued(t))
      else
        RunFacts(ws.tasks, t);
        var s := Run(ws.tasks, t);
        if s.state == Awaiting then
          var a := s.tasks[t].awaiting.value;
          if !s.tasks[a].enqueued then
            Transition(ws.(queue := rest + [a, t], tasks := SetEnqueued(s.tasks, a, true)), Ran(t, Awaiting))
          else
            Transition(ws.(queue := rest + [t], tasks := s.tasks), Ran(t, Awaiting))
        else
          Transition(ws.(queue := rest, tasks := s.tasks), Ran(t, Complete))
  }

  // ---------------------------------------------------------------------------------------
  // Properties of an iteration

  /** Setting an enqueued flag keeps the arena well-formed and closed. */
  lemma SetEnqueuedKeepsValid(tasks: seq<Task>, t: Id, value: bool)
    requires Tasks.Valid(tasks) && Closed(tasks) && t < |tasks|
    ensures var r := SetEnqueued(tasks, t, value);
      Tasks.Valid(r) && Closed(r) && |r| == |tasks| && r[t].enqueued == value &&
      forall i :: 0 <= i < |tasks| ==> r[i] == tasks[i].(enqueued := r[i].enqueued)
  {
    var r := SetEnqueued(tasks, t, value);
    forall i | 0 <= i < |r|
      ensures WellFormed(r, i)
    {
      assert WellFormed(tasks, i);
    }
  }

  /** The queue minus its front still satisfies the queue part of the invariant, and the front
      is not in it. */
  lemma RestFacts(tasks: seq<Task>, q: seq<Id>)
    requires Queued(tasks, q) && Distinct(q) && q != []
    ensures Queued(tasks, q[1..]) && Distinct(q[1..]) && q[0] !in q[1..]
  {
  }

  /** Appending an element that is not yet in a queue keeps it free of duplicates. */
  lemma DistinctAppend(q: seq<Id>, x: Id)
    requires Distinct(q) && x !in q
    ensures Distinct(q + [x])
  {
    var r := q + [x];
    forall i, j | 0 <= i < j < |r|
      ensures r[i] != r[j]
    {
      if j < |q| {
        assert r[i] == q[i] && r[j] == q[j];
      } else {
        assert r[i] in q;
      }
    }
  }

  /** A task that is not ready goes to the back of the queue without being run; the tasks are
      untouched. */
  lemma RequeueFacts(ws: WorkerState)
    requires WInv(ws) && ws.running && ws.queue != []
    requires WellFormed(ws.tasks, ws.queue[0]) && !Ready(ws.tasks, ws.queue[0])
    ensures var tr := Iteration(ws);
      tr.outcome == Requeued(ws.queue[0]) &&
      tr.next == ws.(queue := ws.queue[1..] + [ws.queue[0]]) &&
      multiset(tr.next.queue) == multiset(ws.queue) &&
      WInv(tr.next)
  {
    RestFacts(ws.tasks, ws.queue);
    assert ws.queue == [ws.queue[0]] + ws.queue[1..];
  }

  /** A run that reports `Awaiting`: the awaited task, which has not completed, gets the task as
      its continuation; it is put on the queue, and flagged, only if its flag was clear; the task
      that ran goes back on the queue behind it. No task ends up queued twice. */
  lemma AwaitingFacts(ws: WorkerState)
    requires WInv(ws) && ws.running && ws.queue != []
    requires WellFormed(ws.tasks, ws.queue[0]) && Ready(ws.tasks, ws.queue[0])
    requires Run(ws.tasks, ws.queue[0]).state == Awaiting
    ensures var t := ws.queue[0];
      var tr := Iteration(ws);
      tr.outcome == Ran(t, Awaiting) &&
      |tr.next.tasks| == |ws.tasks| && tr.next.tasks[t].awaiting.Some? &&
      var a := tr.next.tasks[t].awaiting.value;
      a < |ws.tasks| && ws.tasks[a].state == Awaiting && tr.next.tasks[a].callback == Some(t) &&
      tr.next.tasks[a].enqueued &&
      tr.next.queue == ws.queue[1..] + (if ws.tasks[a].enqueued then [] else [a]) + [t] &&
      WInv(tr.next) && tr.next.running
  {
    var t := ws.queue[0];
    var rest := ws.queue[1..];
    RunFacts(ws.tasks, t);
    var s := Run(ws.tasks, t);
    var a := s.tasks[t].awaiting.value;
    assert Queued(s.tasks, ws.queue) by {
      forall k | 0 <= k < |ws.queue|
        ensures Live(s.tasks, ws.queue[k]) && s.tasks[ws.queue[k]].state == Awaiting &&
                (s.tasks[ws.queue[k]].enqueued || !Awaited(s.tasks, ws.queue[k]))
      {
        AwaitedSame(ws.tasks, s.tasks, ws.queue[k]);
        if k > 0 {
          assert ws.queue[k] in rest;
        }
      }
    }
    RestFacts(s.tasks, ws.queue);
    assert WellFormed(s.tasks, t);
    assert s.tasks[t].body.awaits[s.tasks[t].frame.pc] == a;
    RequeueAfterAwait(s.tasks, rest, t, a);
  }

  /** The queue after a run that reports `Awaiting` on `a`: `a`, if unflagged, is flagged and
      queued, then the task that ran. An awaited task without the flag is not in the queue, so
      no task ends up there twice. */
  lemma RequeueAfterAwait(tasks: seq<Task>, rest: seq<Id>, t: Id, a: Id)
    requires Tasks.Valid(tasks) && Closed(tasks) && Queued(tasks, rest) && Distinct(rest) && t !in rest
    requires Live(tasks, t) && tasks[t].state == Awaiting && (tasks[t].enqueued || !Awaited(tasks, t))
    requires Live(tasks, a) && tasks[a].state == Awaiting && Awaited(tasks, a)
    ensures !tasks[a].enqueued ==>
              var r := SetEnqueued(tasks, a, true);
              Tasks.Valid(r) && Closed(r) && Queued(r, rest + [a, t]) && Distinct(rest + [a, t])
    ensures tasks[a].enqueued ==> Queued(tasks, rest + [t]) && Distinct(rest + [t])
  {
    if !tasks[a].enqueued {
      SetEnqueuedKeepsValid(tasks, a, true);
      var r := SetEnqueued(tasks, a, true);
      assert a !in rest;
      var q := rest + [a, t];
      forall k | 0 <= k < |q|
        ensures Live(r, q[k]) && r[q[k]].state == Awaiting && (r[q[k]].enqueued || !Awaited(r, q[k]))
      {
        AwaitedSame(tasks, r, q[k]);
        if k < |rest| {
          assert q[k] == rest[k];
        }
      }
      DistinctAppend(rest, a);
      DistinctAppend(rest + [a], t);
      assert rest + [a] + [t] == q;
    } else {
      var q := rest + [t];
      forall k | 0 <= k < |q|
        ensures Live(tasks, q[k]) && tasks[q[k]].state == Awaiting &&
                (tasks[q[k]].enqueued || !Awaited(tasks, q[k]))
      {
        if k < |rest| {
          assert q[k] == rest[k];
        }
      }
      DistinctAppend(rest, t);
    }
  }

  /** A run that reports `Complete`: nothing is put on the queue, so it is one shorter, and the
      task that ran is no longer in it. */
  lemma CompleteFacts(ws: WorkerState)
    requires WInv(ws) && ws.running && ws.queue != []
    requires WellFormed(ws.tasks, ws.queue[0]) && Ready(ws.tasks, ws.queue[0])
    requires Run(ws.tasks, ws.queue[0]).state == Complete
    ensures var t := ws.queue[0];
      var tr := Iteration(ws);
      tr.outcome == Ran(t, Complete) &&
      tr.next.queue == ws.queue[1..] && |tr.next.queue| == |ws.queue| - 1 && t !in tr.next.queue &&
      tr.next.tasks == Run(ws.tasks, t).tasks &&
      WInv(tr.next) && tr.next.running
  {
    var t := ws.queue[0];
    var rest := ws.queue[1..];
    RestFacts(ws.tasks, ws.queue);
    RunFacts(ws.tasks, t);
    var s := Run(ws.tasks, t);
    assert Queued(s.tasks, rest) by {
      forall k | 0 <= k < |rest|
        ensures Live(s.tasks, rest[k]) && s.tasks[rest[k]].state == Awaiting &&
                (s.tasks[rest[k]].enqueued || !Awaited(s.tasks, rest[k]))
      {
        assert rest[k] in rest;
        AwaitedSame(ws.tasks, s.tasks, rest[k]);
      }
    }
  }

  /** Every iteration keeps the invariant and the running flag. */
  lemma IterationKeepsInv(ws: WorkerState)
    requires WInv(ws)
    ensures WInv(Iteration(ws).next) && Iteration(ws).next.running == ws.running
  {
    if ws.running && ws.queue != [] {
      var t := ws.queue[0];
      assert WellFormed(ws.tasks, t);
      if !Ready(ws.tasks, t) {
        RequeueFacts(ws);
      } else if Run(ws.tasks, t).state == Awaiting {
        AwaitingFacts(ws);
      } else {
        CompleteFacts(ws);
      }
    }
  }

  /** No premature resumption: the loop runs a task exactly when its awaited task (if any) has
      completed, so a suspended task always resumes on a finished result; a task that is not
      ready is put back and nothing else changes. */
  lemma NoPrematureResume(ws: WorkerState)
    requires WInv(ws) && ws.running && ws.queue != []
    ensures var t := ws.queue[0];
      var tr := Iteration(ws);
      t < |ws.tasks| && InRange(ws.tasks, ws.tasks[t].awaiting) &&
      (tr.outcome.Ran? <==> Ready(ws.tasks, t)) &&
      (tr.outcome.Ran? ==> tr.outcome.task == t) &&
      (tr.outcome.Ran? && ws.tasks[t].body.Coroutine? && ws.tasks[t].frame.suspended ==>
         ws.tasks[t].awaiting.Some? && ws.tasks[ws.tasks[t].awaiting.value].state == Complete) &&
      (!tr.outcome.Ran? ==> tr == Transition(ws.(queue := ws.queue[1..] + [t]), Requeued(t)))
  {
    var t := ws.queue[0];
    assert WellFormed(ws.tasks, t);
  }

  /** The loop stops exactly when `running_` is false, and then changes nothing; it blocks on an
      empty queue without changing anything. */
  lemma StopAndBlock(ws: WorkerState)
    requires WInv(ws)
    ensures !ws.running <==> Iteration(ws).outcome == Stopped
    ensures !ws.running ==> Iteration(ws).next == ws
    ensures ws.running && ws.queue == [] ==> Iteration(ws) == Transition(ws, Blocked)
  {
  }

  // ---------------------------------------------------------------------------------------
  // The worker object

  class Worker {
    /** `queue_`, shared with whoever feeds the worker. */
    const queue: Queue<Id>
    /** The tasks the queued handles refer to. */
    const arena: Arena
    /** `running_`. */
    var running: bool

    ghost function State(): WorkerState
      reads this, queue, arena
    {
      WorkerState(queue.contents, arena.tasks, running)
    }

    ghost predicate Valid()
      reads this, queue, arena
    {
      WInv(State())
    }

    /** `Worker(queue)`: `running_` starts true. */
    constructor (queue: Queue<Id>, arena: Arena)
      ensures this.queue == queue && this.arena == arena && running
      ensures State() == WorkerState(queue.contents, arena.tasks, true)
    {
      this.queue := queue;
      this.arena := arena;
      running := true;
    }

    /** One iteration of `start`. */
    method Step() returns (o: Outcome)
      requires Valid()
      modifies queue, arena
      ensures Valid()
      ensures Transition(State(), o) == Iteration(old(State()))
    {
      ghost var ws := State();
      IterationKeepsInv(ws);
      if !running {
        return Stopped;
      }
      var got := queue.TryGet();
      if got.None? {
        // the blocking `get` would wait here for another thread to enqueue
        return Blocked;
      }
      var t := got.value;
      assert WellFormed(arena.tasks, t);
      var awaited := arena.tasks[t].awaiting;
      if awaited.Some? && arena.tasks[awaited.value].state != Complete {
        queue.Push(t);
        return Requeued(t);
      }
      o := RunTaken(ws, t);
    }

    /** The rest of an iteration once the front task `t` has been taken and found ready: run
        it, and on `Awaiting` queue its awaited task (once) and then the task itself. */
    method RunTaken(ghost ws: WorkerState, t: Id) returns (o: Outcome)
      requires WInv(ws) && ws.running && ws.queue != [] && t == ws.queue[0]
      requires State() == ws.(queue := ws.queue[1..])
      requires WellFormed(ws.tasks, t) && Ready(ws.tasks, t)
      modifies queue, arena
      ensures Transition(State(), o) == Iteration(ws)
    {
      assert Valid() by {
        RestFacts(ws.tasks, ws.queue);
      }
      RunFacts(arena.tasks, t);
      var state := arena.Run(t);
      if state == Awaiting {
        var a := arena.tasks[t].awaiting.value;
        if !arena.tasks[a].enqueued {
          queue.Push(a);
          arena.SetEnqueued(a, true);
        }
        queue.Push(t);
      }
      o := Ran(t, state);
    }

    /** `stop`: clears `running_`, so the next iteration exits. */
    method Stop()
      modifies this
      ensures State() == old(State()).(running := false)
    {
      running := false;
    }

    /** `enqueue`: appends exactly one handle; no flag is set. */
    method Enqueue(t: Id)
      modifies queue
      ensures State() == old(State()).(queue := old(queue.contents) + [t])
    {
      queue.Push(t);
    }
  }

  /** Enqueuing a task from outside keeps the invariant when the task exists, has not completed
      and is not already queued, and is either flagged or awaited by no body (a root). */
  lemma EnqueueKeepsInv(ws: WorkerState, t: Id)
    requires WInv(ws) && Live(ws.tasks, t) && ws.tasks[t].state == Awaiting
    requires ws.tasks[t].enqueued || !Awaited(ws.tasks, t)
    requires t !in ws.queue
    ensures WInv(ws.(queue := ws.queue + [t]))
  {
    DistinctAppend(ws.queue, t);
  }

  /** A root queued by `enqueue`, without the flag, is run like any other task: a body that
      awaits nothing completes in one iteration and leaves the queue. */
  lemma EnqueuedRootRuns()
    ensures var ws := WorkerState([0], [NewTask(Coroutine([], 1))], true);
      WInv(ws) && !ws.tasks[0].enqueued &&
      Iteration(ws) == Transition(WorkerState([], [NewTask(Coroutine([], 1)).(state := Complete, result := 1)], true),
                                  Ran(0, Complete))
  {
    var ws := WorkerState([0], [NewTask(Coroutine([], 1))], true);
    assert WellFormed(ws.tasks, 0);
    assert Continue(ws.tasks, 0, 0, 0) == Settle(ws.tasks, 0, 0, 0);
  }

  /** The continuation test through the worker loop: `top` awaits `bottom`, which returns 42,
      and adds 8. Starting from a queue holding only `top`: the first iteration suspends `top`
      and queues `bottom` ahead of it, the second completes `bottom`, the third completes `top`
      with 50, and the queue is empty. */
  lemma WorkerRunsContinuation()
    ensures var ws0 := WorkerState([1], [NewTask(Coroutine([], 42)), NewTask(Coroutine([0], 8)).(enqueued := true)], true);
      WInv(ws0) &&
      var tr1 := Iteration(ws0);
      tr1.outcome == Ran(1, Awaiting) && tr1.next.queue == [0, 1] && WInv(tr1.next) &&
      var tr2 := Iteration(tr1.next);
      tr2.outcome == Ran(0, Complete) && tr2.next.queue == [1] && WInv(tr2.next) &&
      var tr3 := Iteration(tr2.next);
      tr3.outcome == Ran(1, Complete) && tr3.next.queue == [] && tr3.next.tasks[1].result == 50
  {
    assert TopQueued() == WorkerState([1], [NewTask(Coroutine([], 42)), NewTask(Coroutine([0], 8)).(enqueued := true)], true);
    TopSuspends();
    BottomCompletes();
    TopCompletes();
  }

  /** After the first iteration: `top` is parked on `bottom`, which was flagged and queued
      ahead of it. */
  function TopParked(): (ws: WorkerState) {
    WorkerState([0, 1],
      [NewTask(Coroutine([], 42)).(callback := Some(1), enqueued := true),
       NewTask(Coroutine([0], 8)).(enqueued := true, frame := Frame(0, 0, true), awaiting := Some(0))], true)
  }

  /** After the second iteration: `bottom` returned 42. */
  function BottomReturned(): (ws: WorkerState) {
    WorkerState([1],
      [NewTask(Coroutine([], 42)).(callback := Some(1), enqueued := true, state := Complete, result := 42),
       NewTask(Coroutine([0], 8)).(enqueued := true, frame := Frame(0, 0, true), awaiting := Some(0))], true)
  }

  /** After the third iteration: `top` returned 42 + 8. */
  function TopReturned(): (ws: WorkerState) {
    WorkerState([],
      [NewTask(Coroutine([], 42)).(callback := Some(1), enqueued := true, state := Complete, result := 42),
       NewTask(Coroutine([0], 8)).(enqueued := true, frame := Frame(1, 42, false), awaiting := Some(0),
                                   state := Complete, result := 50)], true)
  }

  /** Before the first iteration: only `top` is queued, and flagged. */
  function TopQueued(): (ws: WorkerState) {
    WorkerState([1], [NewTask(Coroutine([], 42)), NewTask(Coroutine([0], 8)).(enqueued := true)], true)
  }

  lemma TopRunParks()
    ensures Tasks.Valid(TopQueued().tasks) && CanRun(TopQueued().tasks, 1)
    ensures Run(TopQueued().tasks, 1) == Step(SetEnqueued(TopParked().tasks, 0, false), Awaiting)
  {
    var tasks := TopQueued().tasks;
    assert WellFormed(tasks, 0) && WellFormed(tasks, 1);
    assert Continue(tasks, 1, 0, 0) == Settle(tasks, 1, 0, 0);
  }

  lemma TopParkedInv()
    ensures WInv(TopParked())
  {
    var ws1 := TopParked();
    assert WellFormed(ws1.tasks, 0) && WellFormed(ws1.tasks, 1);
  }

  lemma TopSuspends()
    ensures WInv(TopQueued()) && Iteration(TopQueued()) == Transition(TopParked(), Ran(1, Awaiting))
    ensures WInv(TopParked())
  {
    var ws0 := TopQueued();
    assert WellFormed(ws0.tasks, 0) && WellFormed(ws0.tasks, 1);
    TopRunParks();
    TopParkedInv();
  }

  lemma BottomCompletes()
    ensures WInv(TopParked()) && Iteration(TopParked()) == Transition(BottomReturned(), Ran(0, Complete))
    ensures WInv(BottomReturned())
  {
    var ws1 := TopParked();
    assert WellFormed(ws1.tasks, 0) && WellFormed(ws1.tasks, 1);
    assert Continue(ws1.tasks, 0, 0, 0) == Settle(ws1.tasks, 0, 0, 0);
    var ws2 := BottomReturned();
    assert WellFormed(ws2.tasks, 0) && WellFormed(ws2.tasks, 1);
  }

  lemma TopCompletes()
    ensures WInv(BottomReturned()) && Iteration(BottomReturned()) == Transition(TopReturned(), Ran(1, Complete))
  {
    var ws2 := BottomReturned();
    assert WellFormed(ws2.tasks, 0) && WellFormed(ws2.tasks, 1);
    assert Continue(ws2.tasks, 1, 1, 42) == Settle(ws2.tasks, 1, 1, 42);
  }
}
