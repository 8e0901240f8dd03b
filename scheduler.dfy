/** The scheduler of core/scheduler.hh and core/scheduler.cc: per-worker local queues, one
    global queue, the `push_task` routing rule, `spawn_task`/`fire_and_forget`, `start`/`stop`,
    and one iteration of a worker's loop. Threads are left out: a worker's loop is modelled one
    iteration at a time, on a state that nothing else changes meanwhile.

    The transitions are first stated as functions on a `SchedState` value; the `Scheduler`
    class then performs them in place and is proved to agree with them. */
module Scheduling {
  import opened Wrappers
  import opened Tasks
  import opened TaskQueue
  import opened TaskArena

  /** `kMaxLocalTasks`. */
  const kMaxLocalTasks: nat := 256

  datatype Route = ToLocal | ToGlobal

  /** The routing test of `push_task`, as written: local only when the local queue already holds
      more than `kMaxLocalTasks`. */
  function PushRoute(localSize: nat): (route: Route) {
    if localSize > kMaxLocalTasks then ToLocal else ToGlobal
  }

  /** The load-balancing direction: a task stays on the worker's local queue while that queue
      holds fewer than `kMaxLocalTasks` entries, and overflows to the global queue after. */
  function BalancedRoute(localSize: nat): (route: Route) {
    if localSize < kMaxLocalTasks then ToLocal else ToGlobal
  }

  /** The rule as written agrees with the intended one only at exactly `kMaxLocalTasks`. */
  lemma RoutingInverted(localSize: nat)
    ensures PushRoute(localSize) == BalancedRoute(localSize) <==> localSize == kMaxLocalTasks
    ensures localSize < kMaxLocalTasks ==> PushRoute(localSize) == ToGlobal && BalancedRoute(localSize) == ToLocal
  {
  }

  /** The scheduler's state: `queues_`, `global_queue_`, the tasks, `running_`. */
  datatype SchedState = SchedState(local: seq<seq<Id>>, global: seq<Id>, tasks: seq<Task>, running: bool)

  predicate AllLive(tasks: seq<Task>, q: seq<Id>) {
    forall k :: 0 <= k < |q| ==> Live(tasks, q[k])
  }

  /** What the scheduler relies on: a well-formed arena whose live tasks link only to live tasks,
      and a live task behind every queued handle. */
  predicate Inv(st: SchedState) {
    Tasks.Valid(st.tasks) && Closed(st.tasks) &&
    (forall w :: 0 <= w < |st.local| ==> AllLive(st.tasks, st.local[w])) &&
    AllLive(st.tasks, st.global)
  }

  predicate LocalsEmpty(st: SchedState) {
    forall w :: 0 <= w < |st.local| ==> st.local[w] == []
  }

  /** All handles in all queues. */
  function Handles(local: seq<seq<Id>>): (m: multiset<Id>) {
    if local == [] then multiset{} else Handles(local[..|local| - 1]) + multiset(local[|local| - 1])
  }

  function AllQueued(st: SchedState): (m: multiset<Id>) {
    Handles(st.local) + multiset(st.global)
  }

  /** The constructor: `num_workers` empty local queues, an empty global queue, not running. */
  function Initial(numWorkers: nat, tasks: seq<Task>): (r: SchedState) {
    SchedState(seq(numWorkers, _ => []), [], tasks, false)
  }

  /** `push_task`. */
  function PushState(st: SchedState, t: Id, w: nat): (r: SchedState)
    requires w < |st.local|
  {
    if PushRoute(|st.local[w]|) == ToLocal then st.(local := st.local[w := st.local[w] + [t]])
    else st.(global := st.global + [t])
  }

  /** `spawn_task` (and `fire_and_forget`, which calls it): set the enqueued flag, then push a
      clone of the handle onto the global queue. */
  function Spawn(st: SchedState, t: Id): (r: SchedState)
    requires t < |st.tasks| && st.tasks[t].refs > 0
  {
    var flagged := SetEnqueued(st.tasks, t, true);
    st.(tasks := flagged[t := CopyHandle(flagged[t])], global := st.global + [t])
  }

  /** What one iteration of `run_worker` did. */
  datatype Outcome =
    | Stopped                          // `running_` was false: the loop exits
    | Idle                             // both queues empty: nothing to do yet
    | Skipped(task: Id, pushed: Id)    // the task had already completed and was passed on
    | Ran(task: Id, state: TaskState)  // the task was run and reported `state`

  datatype Transition = Transition(next: SchedState, outcome: Outcome)

  datatype Taken = Taken(task: Id, rest: SchedState)

  /** The local queue's front if there is one, otherwise `global_queue_.try_get()`. */
  function Take(st: SchedState, w: nat): (r: Option<Taken>)
    requires w < |st.local|
  {
    if st.local[w] != [] then Some(Taken(st.local[w][0], st.(local := st.local[w := st.local[w][1..]])))
    else if st.global != [] then Some(Taken(st.global[0], st.(global := st.global[1..])))
    else None
  }

  /** What a worker does with a task it has taken: a task that has already completed is not
      run but passed on (its callback if it has one, otherwise itself); otherwise it is run, and
      on `Awaiting` the awaited task gets the task as its callback and is pushed unless already
      enqueued; on `Complete` the callback, or else the task itself, is pushed. */
  function AfterTake(st: SchedState, t: Id, w: nat): (tr: Transition)
    requires Inv(st) && Live(st.tasks, t) && w < |st.local|
  {
    if st.tasks[t].state == Complete then
      var next := st.tasks[t].callback.GetOr(t);
      Transition(PushState(st, next, w), Skipped(t, next))
    else
      assert WellFormed(st.tasks, t);
      RunFacts(st.tasks, t);
      var s := Run(st.tasks, t);
      if s.state == Awaiting then
        var a := s.tasks[t].awaiting.value;
        var st2 := st.(tasks := SetCallback(s.tasks, a, t));
        Transition(if st2.tasks[a].enqueued then st2 else PushState(st2, a, w), Ran(t, Awaiting))
      else
        var next := s.tasks[t].callback.GetOr(t);
        Transition(PushState(st.(tasks := s.tasks), next, w), Ran(t, Complete))
  }

  /** One iteration of the `while (running_)` loop of `run_worker` for worker `w`. */
  function WorkerIteration(st: SchedState, w: nat): (tr: Transition)
    requires Inv(st) && w < |st.local|
  {
    if !st.running then Transition(st, Stopped)
    else
      TakeFacts(st, w);
      match Take(st, w)
      case None => Transition(st, Idle)
      case Some(Taken(t, rest)) => AfterTake(rest, t, w)
  }

  // ---------------------------------------------------------------------------------------
  // Properties of the transitions

  lemma MultisetCancel(a: multiset<Id>, b: multiset<Id>, x: multiset<Id>)
    requires a + x == b + x
    ensures a == b
  {
    forall e
      ensures a[e] == b[e]
    {
      assert (a + x)[e] == (b + x)[e];
    }
  }

  /** Replacing one local queue replaces its handles in the multiset of all handles. */
  lemma {:induction false} HandlesUpdate(local: seq<seq<Id>>, w: nat, q: seq<Id>)
    requires w < |local|
    ensures Handles(local[w := q]) + multiset(local[w]) == Handles(local) + multiset(q)
    decreases |local|
  {
    var n := |local| - 1;
    assert Handles(local) == Handles(local[..n]) + multiset(local[n]);
    assert Handles(local[w := q]) == Handles(local[w := q][..n]) + multiset(local[w := q][n]);
    if w < n {
      assert local[w := q][..n] == local[..n][w := q];
      HandlesUpdate(local[..n], w, q);
      assert local[..n][w] == local[w];
      calc {
        Handles(local[w := q]) + multiset(local[w]);
        Handles(local[..n][w := q]) + multiset(local[n]) + multiset(local[w]);
        (Handles(local[..n][w := q]) + multiset(local[w])) + multiset(local[n]);
        (Handles(local[..n]) + multiset(q)) + multiset(local[n]);
        Handles(local) + multiset(q);
      }
    } else {
      assert local[w := q][..n] == local[..n];
    }
  }

  /** `push_task` adds exactly one handle, to exactly one queue: to worker `w`'s local queue
      when it holds more than `kMaxLocalTasks`, otherwise to the back of the global queue. */
  lemma PushFacts(st: SchedState, t: Id, w: nat)
    requires w < |st.local|
    ensures var next := PushState(st, t, w);
      AllQueued(next) == AllQueued(st) + multiset{t} &&
      |next.local| == |st.local| && next.tasks == st.tasks && next.running == st.running &&
      (|st.local[w]| > kMaxLocalTasks ==>
         next.local == st.local[w := st.local[w] + [t]] && next.global == st.global) &&
      (|st.local[w]| <= kMaxLocalTasks ==> next.local == st.local && next.global == st.global + [t]) &&
      (Inv(st) && Live(st.tasks, t) ==> Inv(next)) &&
      (LocalsEmpty(st) ==> LocalsEmpty(next))
  {
    PushAddsOne(st, t, w);
    if Inv(st) && Live(st.tasks, t) {
      PushKeepsInv(st, t, w);
    }
  }

  lemma PushAddsOne(st: SchedState, t: Id, w: nat)
    requires w < |st.local|
    ensures AllQueued(PushState(st, t, w)) == AllQueued(st) + multiset{t}
  {
    var next := PushState(st, t, w);
    if |st.local[w]| > kMaxLocalTasks {
      HandlesUpdate(st.local, w, st.local[w] + [t]);
      assert multiset(st.local[w] + [t]) == multiset(st.local[w]) + multiset{t};
      assert Handles(next.local) + multiset(st.local[w]) == Handles(st.local) + multiset{t} + multiset(st.local[w]);
      MultisetCancel(Handles(next.local), Handles(st.local) + multiset{t}, multiset(st.local[w]));
    }
  }

  lemma PushKeepsInv(st: SchedState, t: Id, w: nat)
    requires w < |st.local| && Inv(st) && Live(st.tasks, t)
    ensures Inv(PushState(st, t, w))
  {
    var next := PushState(st, t, w);
    if |st.local[w]| > kMaxLocalTasks {
      forall v | 0 <= v < |next.local|
        ensures AllLive(next.tasks, next.local[v])
      {
        assert v != w ==> next.local[v] == st.local[v];
      }
    }
  }

  /** Taking a task: the local queue's front when there is one, else the global queue's front,
      else nothing. Exactly that handle leaves the queues; nothing else changes. */
  lemma TakeFacts(st: SchedState, w: nat)
    requires w < |st.local|
    ensures var tk := Take(st, w);
      (tk.None? <==> st.local[w] == [] && st.global == []) &&
      (tk.Some? ==>
         tk.value.task == (if st.local[w] != [] then st.local[w][0] else st.global[0]) &&
         AllQueued(tk.value.rest) + multiset{tk.value.task} == AllQueued(st) &&
         |tk.value.rest.local| == |st.local| && tk.value.rest.tasks == st.tasks &&
         tk.value.rest.running == st.running &&
         (Inv(st) ==> Inv(tk.value.rest) && Live(st.tasks, tk.value.task)) &&
         (LocalsEmpty(st) ==> LocalsEmpty(tk.value.rest)))
  {
    if st.local[w] != [] {
      TakeLocal(st, w);
    } else if st.global != [] {
      assert st.global == [st.global[0]] + st.global[1..];
    }
  }

  /** Taking the front of a non-empty local queue removes exactly that handle. */
  lemma TakeLocal(st: SchedState, w: nat)
    requires w < |st.local| && st.local[w] != []
    ensures var rest := st.(local := st.local[w := st.local[w][1..]]);
      AllQueued(rest) + multiset{st.local[w][0]} == AllQueued(st) &&
      (Inv(st) ==> Inv(rest) && Live(st.tasks, st.local[w][0])) &&
      (LocalsEmpty(st) ==> LocalsEmpty(rest))
  {
    var rest := st.(local := st.local[w := st.local[w][1..]]);
    HandlesUpdate(st.local, w, st.local[w][1..]);
    assert st.local[w] == [st.local[w][0]] + st.local[w][1..];
    assert multiset(st.local[w]) == multiset{st.local[w][0]} + multiset(st.local[w][1..]);
    assert Handles(rest.local) + multiset{st.local[w][0]} + multiset(st.local[w][1..]) ==
           Handles(st.local) + multiset(st.local[w][1..]);
    MultisetCancel(Handles(rest.local) + multiset{st.local[w][0]}, Handles(st.local), multiset(st.local[w][1..]));
    if Inv(st) {
      forall v | 0 <= v < |rest.local|
        ensures AllLive(rest.tasks, rest.local[v])
      {
        assert v != w ==> rest.local[v] == st.local[v];
      }
    }
  }

  /** A task that had already completed is not run; it is passed on as its callback if it has
      one, otherwise as itself, and only the queues change. */
  lemma AfterTakeSkip(st: SchedState, t: Id, w: nat)
    requires Inv(st) && Live(st.tasks, t) && w < |st.local| && st.tasks[t].state == Complete
    ensures var tr := AfterTake(st, t, w);
      tr.outcome == Skipped(t, st.tasks[t].callback.GetOr(t)) && tr.next.tasks == st.tasks &&
      AllQueued(tr.next) == AllQueued(st) + multiset{st.tasks[t].callback.GetOr(t)} &&
      Inv(tr.next) && |tr.next.local| == |st.local| && tr.next.running == st.running &&
      (LocalsEmpty(st) ==> LocalsEmpty(tr.next))
  {
    assert Closed(st.tasks);
    PushFacts(st, st.tasks[t].callback.GetOr(t), w);
  }

  /** A run that reports `Awaiting`: the awaited task (which has not completed) gets the task as
      its callback and is pushed only if its enqueued flag is clear; the task is not pushed. */
  lemma AfterTakeAwaiting(st: SchedState, t: Id, w: nat)
    requires Inv(st) && Live(st.tasks, t) && w < |st.local| && st.tasks[t].state == Awaiting
    requires WellFormed(st.tasks, t) && Run(st.tasks, t).state == Awaiting
    ensures var tr := AfterTake(st, t, w);
      tr.outcome == Ran(t, Awaiting) &&
      |tr.next.tasks| == |st.tasks| && tr.next.tasks[t].awaiting.Some? &&
      var a := tr.next.tasks[t].awaiting.value;
      a < |st.tasks| && st.tasks[a].state == Awaiting &&
      tr.next.tasks[a].callback == Some(t) && tr.next.tasks[a].enqueued == st.tasks[a].enqueued &&
      AllQueued(tr.next) == AllQueued(st) + (if st.tasks[a].enqueued then multiset{} else multiset{a}) &&
      Inv(tr.next) && |tr.next.local| == |st.local| && tr.next.running == st.running &&
      (LocalsEmpty(st) ==> LocalsEmpty(tr.next))
  {
    AwaitingLinks(st, t);
    var s := Run(st.tasks, t);
    var a := s.tasks[t].awaiting.value;
    var st2 := st.(tasks := SetCallback(s.tasks, a, t));
    PushFacts(st2, a, w);
  }

  /** After a run that reports `Awaiting`, recording the task as the awaited task's callback
      keeps the invariant. */
  lemma AwaitingLinks(st: SchedState, t: Id)
    requires Inv(st) && Live(st.tasks, t) && st.tasks[t].state == Awaiting
    requires WellFormed(st.tasks, t) && Run(st.tasks, t).state == Awaiting
    ensures var s := Run(st.tasks, t);
      s.tasks[t].awaiting.Some? && s.tasks[t].awaiting.value < |st.tasks| &&
      var a := s.tasks[t].awaiting.value;
      var st2 := st.(tasks := SetCallback(s.tasks, a, t));
      st.tasks[a].state == Awaiting && |st2.tasks| == |st.tasks| &&
      st2.tasks[t].awaiting == Some(a) && st2.tasks[a].callback == Some(t) &&
      st2.tasks[a].enqueued == st.tasks[a].enqueued &&
      Inv(st2) && Live(st2.tasks, a)
  {
    RunFacts(st.tasks, t);
    var s := Run(st.tasks, t);
    var a := s.tasks[t].awaiting.value;
    var st2 := st.(tasks := SetCallback(s.tasks, a, t));
    assert Live(s.tasks, t) && Live(s.tasks, a);
    SetCallbackFacts(s.tasks, a, t);
    forall w | 0 <= w < |st2.local|
      ensures AllLive(st2.tasks, st2.local[w])
    {
      assert AllLive(st.tasks, st.local[w]);
    }
  }

  /** A run keeps the scheduler's invariant: queued handles keep their tasks alive. */
  lemma RunKeepsInv(st: SchedState, t: Id)
    requires Inv(st) && Live(st.tasks, t) && st.tasks[t].state == Awaiting && WellFormed(st.tasks, t)
    ensures Inv(st.(tasks := Run(st.tasks, t).tasks))
  {
    RunFacts(st.tasks, t);
    var s := Run(st.tasks, t);
    forall w | 0 <= w < |st.local|
      ensures AllLive(s.tasks, st.local[w])
    {
      assert AllLive(st.tasks, st.local[w]);
    }
  }

  /** A run that reports `Complete`: exactly one handle is pushed, the callback if the task has
      one, otherwise the task itself. */
  lemma AfterTakeComplete(st: SchedState, t: Id, w: nat)
    requires Inv(st) && Live(st.tasks, t) && w < |st.local| && st.tasks[t].state == Awaiting
    requires WellFormed(st.tasks, t) && Run(st.tasks, t).state == Complete
    ensures var tr := AfterTake(st, t, w);
      tr.outcome == Ran(t, Complete) &&
      |tr.next.tasks| == |st.tasks| &&
      (st.tasks[t].body.Coroutine? ==> tr.next.tasks[t].state == Complete) &&
      AllQueued(tr.next) == AllQueued(st) + multiset{tr.next.tasks[t].callback.GetOr(t)} &&
      Inv(tr.next) && |tr.next.local| == |st.local| && tr.next.running == st.running &&
      (LocalsEmpty(st) ==> LocalsEmpty(tr.next))
  {
    RunFacts(st.tasks, t);
    var s := Run(st.tasks, t);
    assert Live(s.tasks, t);
    PushFacts(st.(tasks := s.tasks), s.tasks[t].callback.GetOr(t), w);
  }

  /** Every iteration keeps the invariant, the number of workers and the running flag. */
  lemma AfterTakeFacts(st: SchedState, t: Id, w: nat)
    requires Inv(st) && Live(st.tasks, t) && w < |st.local|
    ensures var tr := AfterTake(st, t, w);
      Inv(tr.next) && |tr.next.local| == |st.local| && tr.next.running == st.running &&
      (LocalsEmpty(st) ==> LocalsEmpty(tr.next))
  {
    if st.tasks[t].state == Complete {
      AfterTakeSkip(st, t, w);
    } else {
      assert WellFormed(st.tasks, t);
      if Run(st.tasks, t).state == Awaiting {
        AfterTakeAwaiting(st, t, w);
      } else {
        AfterTakeComplete(st, t, w);
      }
    }
  }

  /** Pushes a task to each (task, worker) pair in turn. */
  function PushAll(st: SchedState, pushes: seq<(Id, nat)>): (r: SchedState)
    requires forall k :: 0 <= k < |pushes| ==> pushes[k].1 < |st.local|
    decreases |pushes|
  {
    if pushes == [] then st
    else PushAll(PushState(st, pushes[0].0, pushes[0].1), pushes[1..])
  }

  /** The inverted rule in action: local queues that hold at most `kMaxLocalTasks` handles (in
      particular the empty ones the constructor makes) never receive a handle from any sequence
      of `push_task` calls; everything lands on the global queue, in order. */
  lemma {:induction false} PushesNeverLocal(st: SchedState, pushes: seq<(Id, nat)>)
    requires forall k :: 0 <= k < |pushes| ==> pushes[k].1 < |st.local|
    requires forall w :: 0 <= w < |st.local| ==> |st.local[w]| <= kMaxLocalTasks
    ensures PushAll(st, pushes).local == st.local
    ensures PushAll(st, pushes).global == st.global + seq(|pushes|, k requires 0 <= k < |pushes| => pushes[k].0)
    decreases |pushes|
  {
    if pushes != [] {
      var st1 := PushState(st, pushes[0].0, pushes[0].1);
      PushesNeverLocal(st1, pushes[1..]);
      assert seq(|pushes|, k requires 0 <= k < |pushes| => pushes[k].0) ==
             [pushes[0].0] + seq(|pushes[1..]|, k requires 0 <= k < |pushes[1..]| => pushes[1..][k].0);
    }
  }

  /** Spawning flags the task, takes one more reference to it and adds exactly one handle, at the
      back of the global queue; the local queues and every other task are untouched. */
  lemma SpawnFacts(st: SchedState, t: Id)
    requires Inv(st) && Live(st.tasks, t)
    ensures var next := Spawn(st, t);
      Inv(next) && next.local == st.local && next.global == st.global + [t] &&
      next.tasks[t] == st.tasks[t].(enqueued := true, refs := st.tasks[t].refs + 1) &&
      AllQueued(next) == AllQueued(st) + multiset{t} &&
      next.running == st.running &&
      forall i :: 0 <= i < |st.tasks| && i != t ==> next.tasks[i] == st.tasks[i]
  {
    var next := Spawn(st, t);
    forall i | 0 <= i < |next.tasks|
      ensures WellFormed(next.tasks, i)
    {
      assert WellFormed(st.tasks, i);
    }
  }

  /** A worker takes the front of its own local queue when there is one, and the front of the
      global queue only when its local queue is empty; with both empty nothing changes. A task
      that had already completed is never run. */
  lemma StepTakesLocalFirst(st: SchedState, w: nat)
    requires Inv(st) && w < |st.local| && st.running
    ensures var tr := WorkerIteration(st, w);
      (st.local[w] != [] ==> tr.outcome.task == st.local[w][0]) &&
      (st.local[w] == [] && st.global != [] ==> tr.outcome.task == st.global[0]) &&
      (st.local[w] == [] && st.global == [] ==> tr == Transition(st, Idle)) &&
      (tr.outcome.Ran? ==> st.tasks[tr.outcome.task].state == Awaiting) &&
      (tr.outcome.Skipped? ==> st.tasks[tr.outcome.task].state == Complete)
  {
    TakeFacts(st, w);
  }

  /** Every iteration keeps the invariant; with the inverted rule, local queues that are empty
      stay empty. */
  lemma StepKeepsInv(st: SchedState, w: nat)
    requires Inv(st) && w < |st.local|
    ensures var next := WorkerIteration(st, w).next;
      Inv(next) && |next.local| == |st.local| && next.running == st.running &&
      (LocalsEmpty(st) ==> LocalsEmpty(next))
  {
    TakeFacts(st, w);
    if st.running && Take(st, w).Some? {
      var tk := Take(st, w).value;
      AfterTakeFacts(tk.rest, tk.task, w);
    }
  }

  /** A task that has completed and has no continuation is pushed back as itself: on a worker
      whose only queued handle is that task, an iteration changes nothing, so the worker never
      becomes idle. */
  lemma FinishedRootCirculates(st: SchedState, t: Id, w: nat)
    requires Inv(st) && w < |st.local| && st.running
    requires LocalsEmpty(st) && st.global == [t]
    requires Live(st.tasks, t) && st.tasks[t].state == Complete && st.tasks[t].callback == None
    ensures WorkerIteration(st, w) == Transition(st, Skipped(t, t))
  {
    TakeFacts(st, w);
  }

  // The chained test on one worker: `top` (task 1) awaits `simple` (task 0), which returns 42,
  // and adds 8. The states between iterations are written out.

  function Simple(): (r: Task) { NewTask(Coroutine([], 42)) }
  function Top(): (r: Task) { NewTask(Coroutine([0], 8)).(enqueued := true, refs := 2) }

  /** After `spawn_task(top)`. */
  function ChainSpawned(): (st: SchedState) {
    SchedState([[]], [1], [Simple(), Top()], true)
  }

  /** After the first iteration: `top` is parked on `simple`, which was pushed. */
  function ChainSuspended(): (st: SchedState) {
    SchedState([[]], [0],
      [Simple().(callback := Some(1)), Top().(frame := Frame(0, 0, true), awaiting := Some(0))], true)
  }

  /** After the second iteration: `simple` returned 42 and its continuation `top` was pushed. */
  function ChainResumable(): (st: SchedState) {
    SchedState([[]], [1],
      [Simple().(callback := Some(1), frame := Frame(0, 0, false), result := 42, state := Complete),
       Top().(frame := Frame(0, 0, true), awaiting := Some(0))], true)
  }

  /** After the third iteration: `top` returned 42 + 8 and, having no continuation, was pushed
      again as itself. */
  function ChainDone(): (st: SchedState) {
    SchedState([[]], [1],
      [Simple().(callback := Some(1), frame := Frame(0, 0, false), result := 42, state := Complete),
       Top().(frame := Frame(1, 42, false), awaiting := Some(0), result := 50, state := Complete)], true)
  }

  lemma ChainSpawn()
    ensures var st0 := Initial(1, [NewTask(Coroutine([], 42)), NewTask(Coroutine([0], 8))]).(running := true);
      Inv(st0) && Live(st0.tasks, 1) && Spawn(st0, 1) == ChainSpawned()
  {
    var st0 := Initial(1, [NewTask(Coroutine([], 42)), NewTask(Coroutine([0], 8))]).(running := true);
    assert WellFormed(st0.tasks, 0) && WellFormed(st0.tasks, 1);
    assert st0.local == [[]];
  }

  lemma ChainFirstIteration()
    ensures Inv(ChainSpawned()) && WorkerIteration(ChainSpawned(), 0) == Transition(ChainSuspended(), Ran(1, Awaiting))
  {
    var st := ChainSpawned();
    assert WellFormed(st.tasks, 0) && WellFormed(st.tasks, 1);
    var rest := st.(global := []);
    assert st.local[0] == [] && st.global[1..] == [];
    assert Take(st, 0) == Some(Taken(1, rest));
    assert Run(rest.tasks, 1) == Step(ChainSuspended().tasks, Awaiting) by {
      assert Continue(rest.tasks, 1, 0, 0) == Settle(rest.tasks, 1, 0, 0);
    }
  }

  lemma ChainSecondIteration()
    ensures Inv(ChainSuspended()) && WorkerIteration(ChainSuspended(), 0) == Transition(ChainResumable(), Ran(0, Complete))
  {
    var st := ChainSuspended();
    assert WellFormed(st.tasks, 0) && WellFormed(st.tasks, 1);
    var rest := st.(global := []);
    assert st.local[0] == [] && st.global[1..] == [];
    assert Take(st, 0) == Some(Taken(0, rest));
    assert Run(rest.tasks, 0) == Step(ChainResumable().tasks, Complete) by {
      assert Continue(rest.tasks, 0, 0, 0) == Settle(rest.tasks, 0, 0, 0);
    }
  }

  lemma ChainThirdIteration()
    ensures Inv(ChainResumable()) && WorkerIteration(ChainResumable(), 0) == Transition(ChainDone(), Ran(1, Complete))
  {
    var st := ChainResumable();
    assert WellFormed(st.tasks, 0) && WellFormed(st.tasks, 1);
    var rest := st.(global := []);
    assert st.local[0] == [] && st.global[1..] == [];
    assert Take(st, 0) == Some(Taken(1, rest));
    assert Run(rest.tasks, 1) == Step(ChainDone().tasks, Complete) by {
      assert Continue(rest.tasks, 1, 1, 42) == Settle(rest.tasks, 1, 1, 42);
    }
  }

  /** The whole run: three iterations finish `top` with 50; the fourth passes the finished `top`
      on to itself, and so does every later one. */
  lemma SchedulerRunsChain()
    ensures var st0 := Initial(1, [NewTask(Coroutine([], 42)), NewTask(Coroutine([0], 8))]).(running := true);
      Inv(st0) && Live(st0.tasks, 1) &&
      var st1 := Spawn(st0, 1);
      Inv(st1) &&
      var tr1 := WorkerIteration(st1, 0);
      tr1.outcome == Ran(1, Awaiting) && Inv(tr1.next) &&
      var tr2 := WorkerIteration(tr1.next, 0);
      tr2.outcome == Ran(0, Complete) && Inv(tr2.next) &&
      var tr3 := WorkerIteration(tr2.next, 0);
      tr3.outcome == Ran(1, Complete) && tr3.next.tasks[1].result == 50 && Inv(tr3.next) &&
      WorkerIteration(tr3.next, 0) == Transition(tr3.next, Skipped(1, 1))
  {
    ChainSpawn();
    ChainFirstIteration();
    ChainSecondIteration();
    ChainThirdIteration();
    StepKeepsInv(ChainResumable(), 0);
    assert Live(ChainDone().tasks, 1);
    FinishedRootCirculates(ChainDone(), 1, 0);
  }

  // ---------------------------------------------------------------------------------------
  // The scheduler object

  class Scheduler {
    const numWorkers: nat
    /** `queues_`: one local queue per worker. */
    const local: array<seq<Id>>
    /** `global_queue_`. */
    const global: Queue<Id>
    /** The tasks the queued handles refer to. */
    const arena: Arena
    /** `running_`. */
    var running: bool

    ghost function State(): SchedState
      reads this, local, global, arena
    {
      SchedState(local[..], global.contents, arena.tasks, running)
    }

    ghost predicate Valid()
      reads this, local, global, arena
    {
      local.Length == numWorkers && Inv(State())
    }

    /** `Scheduler(num_workers)`: `num_workers` empty local queues; `running_` starts false. */
    constructor (numWorkers: nat, arena: Arena)
      requires arena.Valid() && Closed(arena.tasks)
      ensures Valid() && fresh(local) && fresh(global)
      ensures this.numWorkers == numWorkers && this.arena == arena
      ensures State() == Initial(numWorkers, arena.tasks) && LocalsEmpty(State())
    {
      this.numWorkers := numWorkers;
      this.arena := arena;
      local := new seq<Id>[numWorkers](_ => []);
      global := new Queue<Id>();
      running := false;
      new;
      assert local[..] == seq(numWorkers, _ => []);
    }

    /** `push_task(task, worker_id)`. */
    method PushTask(t: Id, w: nat)
      requires Valid() && w < numWorkers && Live(arena.tasks, t)
      modifies local, global
      ensures Valid() && State() == PushState(old(State()), t, w)
      ensures old(LocalsEmpty(State())) ==> LocalsEmpty(State())
    {
      PushFacts(State(), t, w);
      if |local[w]| > kMaxLocalTasks {
        local[w] := local[w] + [t];
      } else {
        global.Push(t);
      }
    }

    /** `spawn_task`: returns the handle it was given. */
    method SpawnTask(t: Id) returns (h: Id)
      requires Valid() && Live(arena.tasks, t)
      modifies arena, global
      ensures Valid() && h == t && State() == Spawn(old(State()), t)
    {
      SpawnFacts(State(), t);
      arena.SetEnqueued(t, true);
      var c := arena.Clone(t);
      global.Push(c);
      h := t;
    }

    /** `fire_and_forget`: `spawn_task`, discarding the returned handle. */
    method FireAndForget(t: Id)
      requires Valid() && Live(arena.tasks, t)
      modifies arena, global
      ensures Valid() && State() == Spawn(old(State()), t)
    {
      var _ := SpawnTask(t);
    }

    /** `start`, without the threads: sets `running_`. */
    method Start()
      modifies this
      ensures running && State() == old(State()).(running := true)
    {
      running := true;
    }

    /** `stop`: clears `running_`; calling it again changes nothing. */
    method Stop()
      modifies this
      ensures !running && State() == old(State()).(running := false)
    {
      running := false;
    }

    /** One iteration of `run_worker(w)`: take a task (local queue first), then handle it. */
    method WorkerStep(w: nat) returns (o: Outcome)
      requires Valid() && w < numWorkers
      modifies local, global, arena
      ensures Valid()
      ensures Transition(State(), o) == WorkerIteration(old(State()), w)
      ensures old(LocalsEmpty(State())) ==> LocalsEmpty(State())
    {
      ghost var st := State();
      TakeFacts(st, w);
      if !running {
        return Stopped;
      }
      var t: Id;
      if local[w] != [] {
        t := local[w][0];
        local[w] := local[w][1..];
      } else {
        var opt := global.TryGet();
        if opt.None? {
          // `try_get` is retried until another worker pushes; here that is the end of the iteration
          return Idle;
        }
        t := opt.value;
      }
      assert State() == Take(st, w).value.rest;
      o := Handle(t, w);
    }

    /** The rest of the iteration, once task `t` has been taken off a queue. */
    method Handle(t: Id, w: nat) returns (o: Outcome)
      requires Valid() && w < numWorkers && Live(arena.tasks, t)
      modifies local, global, arena
      ensures Valid()
      ensures Transition(State(), o) == AfterTake(old(State()), t, w)
      ensures old(LocalsEmpty(State())) ==> LocalsEmpty(State())
    {
      ghost var st := State();
      AfterTakeFacts(st, t, w);
      assert WellFormed(arena.tasks, t) && Closed(arena.tasks);
      if arena.tasks[t].state == Complete {
        var next := arena.tasks[t].callback.GetOr(t);
        PushTask(next, w);
        return Skipped(t, next);
      }
      o := RunAndPush(st, t, w);
    }

    /** Running a taken task that has not completed, then pushing what its state calls for. */
    method RunAndPush(ghost st: SchedState, t: Id, w: nat) returns (o: Outcome)
      requires Valid() && w < numWorkers && State() == st
      requires Live(st.tasks, t) && st.tasks[t].state == Awaiting && WellFormed(st.tasks, t)
      modifies local, global, arena
      ensures Valid()
      ensures Transition(State(), o) == AfterTake(st, t, w)
      ensures LocalsEmpty(st) ==> LocalsEmpty(State())
    {
      RunKeepsInv(st, t);
      var state := arena.Run(t);
      if state == Awaiting {
        o := LinkAwaited(st, t, w);
      } else {
        o := PushContinuation(st, t, w);
      }
    }

    /** After `kAwaiting`: record the continuation, and push the awaited task unless flagged. */
    method LinkAwaited(ghost st: SchedState, t: Id, w: nat) returns (o: Outcome)
      requires local.Length == numWorkers && w < numWorkers && arena.Valid()
      requires Inv(st) && Live(st.tasks, t) && st.tasks[t].state == Awaiting && WellFormed(st.tasks, t)
      requires Run(st.tasks, t).state == Awaiting && State() == st.(tasks := Run(st.tasks, t).tasks)
      modifies local, global, arena
      ensures Valid()
      ensures Transition(State(), o) == AfterTake(st, t, w)
      ensures LocalsEmpty(st) ==> LocalsEmpty(State())
    {
      AwaitingLinks(st, t);
      AfterTakeAwaiting(st, t, w);
      var a := arena.tasks[t].awaiting.value;
      arena.SetCallback(a, t);
      if !arena.tasks[a].enqueued {
        PushTask(a, w);
      }
      o := Ran(t, Awaiting);
    }

    /** After `kComplete`: push the callback, or else the task itself. */
    method PushContinuation(ghost st: SchedState, t: Id, w: nat) returns (o: Outcome)
      requires local.Length == numWorkers && w < numWorkers
      requires Inv(st) && Live(st.tasks, t) && st.tasks[t].state == Awaiting && WellFormed(st.tasks, t)
      requires Run(st.tasks, t).state == Complete && State() == st.(tasks := Run(st.tasks, t).tasks)
      modifies local, global, arena
      ensures Valid()
      ensures Transition(State(), o) == AfterTake(st, t, w)
      ensures LocalsEmpty(st) ==> LocalsEmpty(State())
    {
      RunKeepsInv(st, t);
      AfterTakeComplete(st, t, w);
      RunFacts(st.tasks, t);
      assert Live(arena.tasks, t);
      var next := arena.tasks[t].callback.GetOr(t);
      PushTask(next, w);
      o := Ran(t, Complete);
    }
  }
}
