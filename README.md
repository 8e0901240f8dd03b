# Vial scheduling core, modelled in Dafny

Vial runs C++20 coroutines ("tasks") on worker threads. This project models its sequential
core, one step at a time:

- the task record and its lifecycle (core/task.hh);
- the FIFO queue (core/queue.hh);
- the scheduler with its per-worker local queues and its global queue (core/scheduler.hh,
  core/scheduler.cc). Each worker serves its own local queue first, then the shared global
  one; no worker takes from another's;
- the earlier single-queue worker (core/worker.cc) and the engine that feeds it (core/engine.hh).

Each module is listed with its file:

| module | file | what it holds |
|---|---|---|
| `Wrappers` | wrappers.dfy | `Option` |
| `TaskQueue` | queue.dfy | class `Queue<T>`: `TryGet`, `Push`, `Size` over a `seq` |
| `Tasks` | task.dfy | task records as values, `run` as a step function, the awaiter protocol, the reference count |
| `TaskArena` | task_arena.dfy | class `Arena`: the tasks, updated in place by the task interface's methods |
| `Scheduling` | scheduler.dfy | `push_task`, `spawn_task`, `fire_and_forget`, `start`/`stop`, one `run_worker` iteration; class `Scheduler` |
| `Workers` | worker.dfy | one `Worker::start` iteration, `stop`, `enqueue`; class `Worker` |
| `Engines` | engine.dfy | the default worker count, `fire_and_forget`, `spawn_task`; class `Engine` |

**Tasks.** All tasks live in an arena (`seq<Task>`) and refer to each other by index. A record
holds:
- the promise fields `state_`, `result_`, `awaiting_` and `callback_`;
- the `enqueued` flag;
- the shared reference count, and how often the frame has been destroyed.

A coroutine body is a script `Coroutine(awaits, bias)`. It awaits the listed tasks in order,
adds up their results, and returns `bias` plus that sum. So `co_return co_await simple() + 8` is
`Coroutine([simple], 8)`.

A frame `(pc, acc, suspended)` records how far the body has got. `run` continues the body:
- past every await whose operand has completed (`await_ready`, `await_resume`);
- up to the first await that is not ready, where it suspends (`await_suspend` links both tasks),
  or up to the end, where `return_value` stores the result and sets `kComplete`.

A body parked in an await reads the operand's result when resumed, as the C++ does, whether or
not the operand has completed.

A task is *accounted for* (`Tasks.Accounted`) when its running sum holds exactly the results of
the awaits it has passed, all of which have completed, and, once complete, it returned `bias`
plus that sum. Every resumption that passes the readiness test of core/worker.cc:20 keeps every
task accounted for (`RunKeepsAccounted`). So does any interleaving of such resumptions
(`Schedule`, `ScheduleKeepsAccounted`). A completed caller therefore returns what its awaits
returned, however its runs and its callees' runs interleave (`CallerCountsCallees`).

**Classes proved against functions.** Each stateful object is a class that updates its fields in
place. Each transition is also a function on a value:
- `SchedState`, for `Scheduler`;
- `WorkerState`, for `Worker` and `Engine`;
- `seq<Task>`, for `Arena`.

Each method's `ensures` ties the new state to that function, for example
`Transition(State(), o) == WorkerIteration(old(State()), w)`. The lemmas about the functions
state what the source promises.

**Invariants.**
- Scheduler (`Scheduling.Inv`): a well-formed arena whose live tasks link only to live tasks,
  and a live task behind every queued handle.
- Worker (`Workers.WInv`): additionally, every queued task is unfinished and appears at most
  once, and a queued task that some body awaits carries the enqueued flag. Roots that `enqueue`
  or the dispatcher queued need not. That is what makes every `run` the loop performs legal.

**Routing.** `push_task` sends a task to the worker's local queue only when that queue already
holds more than `kMaxLocalTasks` (256) entries; otherwise it goes to the global queue
(core/scheduler.cc:14). The model keeps this rule as written (`PushRoute`) and proves what
follows from it:
- local queues that start empty never receive anything (`PushesNeverLocal`, and the
  `LocalsEmpty` clauses of the scheduler's methods);
- the rule agrees with the load-balancing direction (`BalancedRoute`: local while below the
  threshold) only at exactly 256 (`RoutingInverted`).

**Behaviour kept exactly as the code has it, though a reader might expect otherwise:**
- Routing is inverted, as above.
- `spawn_task` always pushes onto the global queue (core/scheduler.hh:29). It does not route.
- After a run that reports `kAwaiting`, the scheduler always records the callback
  (core/scheduler.cc:71). It never sets the awaited task's enqueued flag (core/scheduler.cc:73-75).
- After `kComplete` the scheduler pushes the callback, or else the task itself, without setting
  a flag (core/scheduler.cc:80). So a finished task with no continuation is handed back to the
  queue on every iteration (`FinishedRootCirculates`); it is never discarded.
- No code path clears the enqueued flag.

## Model

| member | source | states |
|---|---|---|
| TaskQueue.Queue.constructor | core/queue.hh:12 | a new queue is empty |
| TaskQueue.Queue.TryGet | core/queue.hh:14-22 | none exactly when the queue is empty, and then nothing changes; otherwise the oldest element, which alone is removed |
| TaskQueue.Queue.Push | core/queue.hh:24-27 | the item is appended at the back; the other elements keep their order |
| TaskQueue.Queue.Size | core/queue.hh:29-32 | the element count, without changing the queue |
| TaskQueue.PushThenDrain | tests/unit/queue/queue_test.cc:8-25 | pushing N values and then taking N values returns them in the same order, so N distinct inputs give N distinct outputs |
| Tasks.Run | core/task.hh:33-36 | `run`: a `Task<void>` reports `kComplete` and changes nothing; a coroutine resumes from its frame and reports the state it then holds (proved in `RunFacts` and `RunIsSettle`) |
| Tasks.Continue | core/task.hh:71-83 | the body runs on through every await whose operand has completed, adding that result, up to the first one that has not or the end (closed form in `ContinueClosedForm`) |
| Tasks.Settle | core/task.hh:55-58 | where a resumption stops: at the end, `return_value` stores `bias` plus the sum and sets `kComplete`; otherwise `await_suspend` links the two tasks (proved in `SettleFacts`) |
| Tasks.ReturnValue | core/task.hh:55-58 | `return_value` stores the result and sets `kComplete` in one step |
| Tasks.AwaitResume | core/task.hh:81-83 | `await_resume` yields the awaited task's stored result |
| Tasks.AwaitReady | core/task.hh:71-73 | `await_ready`: holds exactly when the awaited task's state is `kComplete` |
| Tasks.Ready | core/worker.cc:20 | the worker's readiness test: the task awaits nothing, or the task it awaits is `kComplete`; a task failing it is put back on the queue |
| Tasks.AwaitSuspend | core/task.hh:75-79 | the suspending task awaits the awaited one, whose callback becomes the suspending task; no other field of any task changes |
| Tasks.FirstPending | core/task.hh:71-73 | the first await at or after a position whose operand is not complete (`await_ready` false); every await before it is ready |
| Tasks.ContinueClosedForm | core/task.hh:71-83 | one resumption passes every ready await, adding the operand's stored result, and stops at the first pending await or at the end |
| Tasks.RunFacts | core/task.hh:33-36 | `run` reports the state the task holds afterwards. No completed task becomes `kAwaiting` again. `kAwaiting` is reported only when the task has suspended on an unfinished task, whose callback is now the task that ran. The only other record changed is that callback. A well-formed, closed arena stays so. `Task<void>::run` reports `kComplete` and changes nothing |
| Tasks.RunIsSettle | core/task.hh:33-36 | a resumption picks the body up just past the await it is parked in, having taken that operand's result, or where it stopped; it stops at the first await from there whose operand has not completed (every await passed on the way had completed), or at the end; the running sum is then the starting sum plus exactly the results passed |
| Tasks.SettleFacts | core/task.hh:55-58 | a resumption ends in `kComplete` exactly when the body reached its end, and then `return_value` has stored `bias` plus the running sum as the result in the same step; parked in an await, the result is untouched and the frame records the await and the sum |
| Tasks.SettleKeepsClosed | core/task.hh:75-79 | a resumption links only live tasks, so a closed arena stays closed |
| Tasks.RunCompletesWhenAllReady | core/task.hh:81-83 | resuming a task whose remaining awaits have all completed, including the one it is parked in, finishes it with `bias` plus its running sum plus every remaining awaited result |
| Tasks.SumResultsConst | core/task.hh:81-83 | awaits whose operands all returned v add up to v times their number |
| Tasks.CallerCountsCallees | tests/core/task/unit.cc:67-103 | a caller that awaits n callees, each returning 1, finishes with n under any interleaving of its resumptions with the callees' runs |
| Tasks.SumResultsSplit | core/task.hh:81-83 | the results awaited over two adjacent stretches of the body add up to those over both |
| Tasks.SumResultsFrame | core/task.hh:81-83 | the awaited sum depends only on the awaited tasks' results |
| Tasks.AppendKeepsAccounted | core/task.hh:49-51 | a task fresh from its coroutine call has accounted for nothing, and the tasks already there are unaffected |
| Tasks.AccountedIgnoresLinks | core/task.hh:75-79 | what a body has accounted for does not depend on the callbacks, flags and counts that the scheduler and the handles change |
| Tasks.OthersStayAccounted | core/task.hh:33-36 | resuming one task leaves what every other task has accounted for intact, because it only changes an unfinished task's result |
| Tasks.ResumePassesCompleted | core/task.hh:71-83 | where a resumption of a ready task stops, every await before it has completed and the running sum is exactly their results |
| Tasks.SettleStaysAccounted | core/task.hh:55-58 | a resumption that passed only completed awaits, with a sum of exactly their results, ends accounted for, so a completed task returned `bias` plus every awaited result |
| Tasks.ResumedStaysAccounted | core/task.hh:33-36 | resuming a task whose awaited task has completed keeps its own running sum equal to the results of the awaits it has passed |
| Tasks.RunKeepsAccounted | core/worker.cc:20-25 | every resumption that passes the readiness test keeps every task's running sum accounted for |
| Tasks.Schedule | tests/core/task/unit.cc:87-99 | any interleaving of resumptions, each of a live unfinished task whose awaited task has completed, keeps the arena well-formed and every body as it was |
| Tasks.ScheduleKeepsAccounted | tests/core/task/unit.cc:87-99 | whatever the interleaving, every task's running sum holds exactly the results it has taken, and a completed task returned `bias` plus all of them |
| Tasks.CopyHandle | core/task.hh:87-89 | copying a handle takes one more reference to the same frame (intended counter; see the findings) |
| Tasks.DropHandle | core/task.hh:99-104 | destroying a handle gives up one reference, and the last one destroys the frame (proved in `DestroyedExactlyOnce`) |
| Tasks.DestroyedExactlyOnce | core/task.hh:85-104 | the count starts at the number of handles, copies add one, destructions take one away; the frame is destroyed exactly when the count reaches zero and at most once, and nothing else about the task changes |
| Tasks.AssignHandle | core/task.hh:91-97 | assignment takes a reference to the new task and gives up the old one; self-assignment changes nothing; no other task changes |
| Tasks.FrameNeverDestroyedAsWritten | core/task.hh:87-104 | with the pointer arithmetic as written, no destruction ever passes the `counter_ == 0` test, while the intended counter destroys a single-handle task when its handle goes |
| Tasks.CopyAsWritten | core/task.hh:87-89 | the copy constructor as written: `counter_++` moves the copied counter pointer one `std::atomic<int>` element on, instead of incrementing the count |
| Tasks.DestructorDestroysAsWritten | core/task.hh:100-104 | the destructor as written: the frame is destroyed when the decremented counter pointer (not the count) equals null |
| Tasks.AssignAsWritten | core/task.hh:91-97 | `operator=` as written: the assigned-from task gains a reference and the task the handle held before keeps its count (the as-written half of the second finding) |
| Tasks.CopiedAsWritten | core/task.hh:87-89 | as written, n copies move the counter pointer exactly n elements from where it started |
| Tasks.AssignLeaksAsWritten | core/task.hh:91-97 | as written, the task a handle referred to before assignment keeps a count with no handle left, so it is never destroyed; the corrected assignment destroys it |
| Tasks.SetEnqueued | core/scheduler.hh:28 | `set_enqueued_true` / `set_enqueued_false`: only the enqueued flag of the one task changes, to the value given |
| Tasks.SetCallback | core/scheduler.cc:71 | `set_callback`: the awaited task's continuation becomes the given task; nothing else changes |
| Tasks.SetCallbackFacts | core/scheduler.cc:70-71 | recording a continuation changes only that callback; between live tasks it keeps the arena well-formed and closed |
| Tasks.SimpleContinuation | tests/core/task/unit.cc:5-24 | `top` awaiting `bottom`: running `top` reports `kAwaiting`, running the awaited task reports `kComplete`, running `top` again reports `kComplete`, and both bodies have finished; `bottom` and `top` both end with the result 1 |
| Tasks.ChainedResult | tests/fiber/fiber_test.cc:9-16 | awaiting a task that returns 42 and adding 8 yields 50 |
| TaskArena.Arena.Create | core/task.hh:85 | a new task: one handle, `kAwaiting`, nothing awaited, no callback, not enqueued |
| TaskArena.Arena.Run | core/task.hh:33-36 | the in-place `run` agrees with `Tasks.Run`; on `kAwaiting` the awaited task was unfinished and its callback is the task that ran |
| TaskArena.Arena.SetCallback | core/scheduler.cc:70-71 | only the given task's callback changes |
| TaskArena.Arena.SetEnqueued | core/scheduler.hh:28 | only the given task's flag changes, to exactly the given value |
| TaskArena.Arena.Clone | core/task.hh:87-89 | a second handle to the same task, one more reference |
| TaskArena.Arena.Release | core/task.hh:99-104 | one reference fewer; the frame is destroyed exactly when no reference is left |
| TaskArena.Arena.Assign | core/task.hh:91-97 | the arena afterwards is `AssignHandle` of the arena before |
| TaskArena.EnqueuedBehavior | tests/core/task/unit.cc:105-122 | the flag of a new task is false, and each setter leaves it at exactly the value it names |
| Scheduling.Initial | core/scheduler.cc:9-11 | `Scheduler::Scheduler`: one empty local queue per worker, an empty global queue, not running, over the given tasks |
| Scheduling.PushRoute | core/scheduler.cc:13-19 | the routing test of `push_task` as written: local only when the local queue holds more than 256 |
| Scheduling.PushState | core/scheduler.cc:13-19 | `push_task` appends the handle to the queue `PushRoute` picks (proved in `PushFacts`) |
| Scheduling.Spawn | core/scheduler.hh:26-31 | `spawn_task`: set the flag, clone the handle and push the clone onto the global queue (proved in `SpawnFacts`) |
| Scheduling.Take | core/scheduler.cc:46-55 | the local queue's front if any, else the global queue's front, else nothing (proved in `TakeFacts`) |
| Scheduling.AfterTake | core/scheduler.cc:59-82 | what the loop does with a taken task: push back a completed one's continuation (or itself), else run it and push by the reported state (proved in `AfterTakeFacts`) |
| Scheduling.WorkerIteration | core/scheduler.cc:42-84 | one iteration of `run_worker`: stop, idle, or take and handle a task (proved in `StepKeepsInv` and `StepTakesLocalFirst`) |
| Scheduling.RoutingInverted | core/scheduler.cc:14 | the routing test as written agrees with the load-balancing direction only at exactly `kMaxLocalTasks`; below it, it sends to the global queue where balancing would keep the task local |
| Scheduling.PushFacts | core/scheduler.cc:13-19 | `push_task` adds exactly one handle to exactly one queue: the worker's local queue when it holds more than 256, otherwise the back of the global queue; the invariant and empty local queues are preserved |
| Scheduling.PushAddsOne | core/scheduler.cc:13-19 | the multiset of all queued handles grows by exactly the pushed task |
| Scheduling.PushesNeverLocal | core/scheduler.cc:9-19 | from local queues of at most 256 entries, in particular the constructor's empty ones, no sequence of pushes changes any local queue; all pushed tasks reach the global queue in order |
| Scheduling.TakeFacts | core/scheduler.cc:46-55 | a worker takes its local queue's front when there is one, otherwise the global queue's front, otherwise nothing; exactly that handle leaves the queues |
| Scheduling.TakeLocal | core/scheduler.cc:46-48 | popping the local queue's front removes exactly that handle and keeps the invariant |
| Scheduling.AfterTakeSkip | core/scheduler.cc:61-64 | a task that has completed is not run; its callback, or else the task itself, is pushed, and the tasks do not change |
| Scheduling.RunKeepsInv | core/scheduler.cc:66 | `run` keeps the scheduler's invariant: every queued handle still refers to a live task |
| Scheduling.AfterTakeAwaiting | core/scheduler.cc:66-76 | after `kAwaiting`, the awaited task (unfinished) has the task that ran as its callback; it is pushed only if its flag was clear, and the task that ran is not pushed |
| Scheduling.AwaitingLinks | core/scheduler.cc:69-71 | after `kAwaiting` the awaited task had not completed; recording the task that ran as its callback keeps the invariant |
| Scheduling.AfterTakeComplete | core/scheduler.cc:78-81 | after `kComplete`, exactly one handle is pushed: the callback if there is one, otherwise the task itself |
| Scheduling.AfterTakeFacts | core/scheduler.cc:59-82 | handling a taken task keeps the invariant, the number of workers, the running flag and empty local queues |
| Scheduling.SpawnFacts | core/scheduler.hh:26-31 | `spawn_task` flags the task, takes one more reference and appends exactly one handle to the global queue; local queues and other tasks are untouched |
| Scheduling.StepTakesLocalFirst | core/scheduler.cc:45-66 | an iteration serves the local queue's front first, then the global queue's front; with both empty nothing changes; `run` is only called on unfinished tasks, and completed ones are skipped |
| Scheduling.StepKeepsInv | core/scheduler.cc:42-84 | every iteration keeps the invariant, the number of workers, the running flag and empty local queues |
| Scheduling.FinishedRootCirculates | core/scheduler.cc:61-64 | a completed task with no callback, alone in the queues, is passed on to itself: the iteration changes nothing, and the worker never becomes idle |
| Scheduling.ChainSpawn | core/scheduler.hh:26-31 | spawning `top` in a fresh one-worker scheduler gives the written-out state |
| Scheduling.ChainFirstIteration | core/scheduler.cc:66-76 | the first iteration suspends `top` on `simple` and pushes `simple` |
| Scheduling.ChainSecondIteration | core/scheduler.cc:78-81 | the second iteration completes `simple` with 42 and pushes its callback `top` |
| Scheduling.ChainThirdIteration | core/scheduler.cc:78-81 | the third iteration completes `top` with 50 and pushes `top` again |
| Scheduling.SchedulerRunsChain | tests/fiber/fiber_test.cc:9-16 | through the scheduler, `top` awaiting a task that returns 42 and adding 8 finishes with 50 after three iterations; later iterations only pass `top` on to itself |
| Scheduling.Scheduler.constructor | core/scheduler.cc:9-11 | exactly `num_workers` local queues, all empty; an empty global queue; `running_` false |
| Scheduling.Scheduler.PushTask | core/scheduler.cc:13-19 | the new state is `PushState` of the old one; empty local queues stay empty |
| Scheduling.Scheduler.SpawnTask | core/scheduler.hh:26-31 | the new state is `Spawn` of the old one, and the same task is returned |
| Scheduling.Scheduler.FireAndForget | core/scheduler.hh:21-24 | the same effect as `spawn_task` |
| Scheduling.Scheduler.Start | core/scheduler.cc:22 | `running_` becomes true; nothing else changes |
| Scheduling.Scheduler.Stop | core/scheduler.cc:38-40 | `running_` becomes false; nothing else changes, so a second call has no effect |
| Scheduling.Scheduler.WorkerStep | core/scheduler.cc:45-83 | one iteration of `run_worker` in place agrees with `WorkerIteration`, keeps the invariant and empty local queues |
| Scheduling.Scheduler.Handle | core/scheduler.cc:59-82 | the handling of a taken task in place agrees with `AfterTake` |
| Scheduling.Scheduler.RunAndPush | core/scheduler.cc:66-82 | running an unfinished taken task and pushing what its state calls for, in place, agrees with `AfterTake` |
| Scheduling.Scheduler.LinkAwaited | core/scheduler.cc:69-76 | after `kAwaiting`, recording the callback and pushing the awaited task unless flagged agrees with `AfterTake` |
| Scheduling.Scheduler.PushContinuation | core/scheduler.cc:78-81 | after `kComplete`, pushing the callback or else the task itself agrees with `AfterTake` |
| Workers.Iteration | core/worker.cc:15-42 | one iteration of `Worker::start`: stop, block, requeue an unready task, or run it and queue by the reported state (proved in `IterationKeepsInv` and `NoPrematureResume`) |
| Workers.SetEnqueuedKeepsValid | core/worker.cc:32 | setting the flag changes only that flag and keeps the arena well-formed and closed |
| Workers.RestFacts | core/worker.cc:18 | removing the front keeps the queue's invariant, and the front is not left in the queue |
| Workers.DistinctAppend | core/worker.cc:30-35 | appending a task that is not yet queued keeps the queue free of duplicates |
| Workers.RequeueFacts | core/worker.cc:20-23 | a task whose awaited task has not completed goes to the back of the queue without being run, and the tasks do not change |
| Workers.AwaitingFacts | core/worker.cc:28-36 | after `kAwaiting` the awaited task (unfinished) is queued and flagged only if its flag was clear; the task that ran is queued behind it; no task is queued twice |
| Workers.CompleteFacts | core/worker.cc:37-39 | after `kComplete` nothing is queued, the queue is one shorter and the task that ran is no longer in it |
| Workers.IterationKeepsInv | core/worker.cc:15-42 | every iteration keeps the worker invariant and the running flag |
| Workers.NoPrematureResume | core/worker.cc:20-25 | a task is run exactly when it awaits nothing or its awaited task has completed, so a suspended body always resumes on a finished result; otherwise it is put back and nothing else changes |
| Workers.StopAndBlock | core/worker.cc:16-18 | the loop exits exactly when `running_` is false, changing nothing; on an empty queue `get` blocks and nothing changes |
| Workers.Worker.constructor | core/worker.cc:7 | `running_` starts true, over the given queue |
| Workers.Worker.Step | core/worker.cc:16-41 | one iteration in place agrees with `Iteration` and keeps the invariant |
| Workers.Worker.RunTaken | core/worker.cc:25-40 | running a ready task and reacting to its state, in place, agrees with `Iteration` |
| Workers.Worker.Stop | core/worker.cc:44-46 | `running_` becomes false; nothing else changes |
| Workers.Worker.Enqueue | core/worker.cc:48-50 | exactly one handle is appended; no flag is set |
| Workers.EnqueueKeepsInv | core/worker.cc:48-50 | enqueuing an unfinished task that is not yet queued keeps the worker invariant when the task is flagged or awaited by no body, such as a root queued without the flag |
| Workers.EnqueuedRootRuns | core/worker.cc:48-50 | a root queued by `enqueue` without the flag satisfies the worker invariant and runs to completion in one iteration |
| Workers.RequeueAfterAwait | core/worker.cc:30-35 | after `kAwaiting` an unflagged awaited task is not yet queued, so queueing it (flagged) and then the task that ran leaves no duplicate |
| Workers.AwaitedSame | core/worker.cc:30 | whether a task is awaited depends only on the bodies, which no iteration changes |
| Workers.WorkerRunsContinuation | core/worker.cc:15-42 | from a queue holding `top`, the loop suspends `top` and queues `simple` ahead of it, completes `simple`, then completes `top` with 42 + 8 = 50, leaving the queue empty |
| Workers.TopRunParks | core/worker.cc:25 | the first run of `top` parks it on `simple`, which now has `top` as its continuation |
| Workers.TopParkedInv | core/worker.cc:30-35 | the queue after the first iteration keeps the worker invariant |
| Workers.TopSuspends | core/worker.cc:15-35 | the first iteration suspends `top` and queues `simple`, flagged, ahead of it |
| Workers.BottomCompletes | core/worker.cc:15-39 | the second iteration completes `simple` with 42 and queues nothing |
| Workers.TopCompletes | core/worker.cc:15-39 | the third iteration resumes `top`, which completes with 42 + 8 = 50, and leaves the queue empty |
| Engines.ToInt32 | core/engine.hh:15 | `static_cast<int>` of an `unsigned int` stays in the `int` range and agrees with the value modulo 2^32 |
| Engines.DefaultWorkerCount | core/engine.hh:15 | the default worker count is at least 2: the hardware count minus 2 when that count is between 4 and 2^31 - 1, and 2 otherwise |
| Engines.Fire | core/engine.hh:44-48 | `fire_and_forget`: clone the handle, push the clone, set the flag (proved in `FireFacts`) |
| Engines.FireFacts | core/engine.hh:44-48 | `fire_and_forget` appends exactly one handle to the queue, takes one more reference and flags the task; other tasks are untouched |
| Engines.FireKeepsInv | core/engine.hh:44-48 | handing over an unfinished task that is not yet queued keeps the worker invariant |
| Engines.FireTwiceQueuesTwice | core/engine.hh:44-48 | `fire_and_forget` checks no flag: firing one task twice queues it twice |
| Engines.Engine.constructor | core/engine.hh:41 | an empty queue, the given counts, and `running_` true |
| Engines.Engine.Default | core/engine.hh:14-17 | the default arguments: `DefaultWorkerCount` workers (at least 2) and one dispatcher |
| Engines.Engine.FireAndForget | core/engine.hh:44-48 | the new state is `Fire` of the old one |
| Engines.Engine.SpawnTask | core/engine.hh:50-54 | the same effect as `fire_and_forget`, returning the same task |

## Left out

- Tasks.RunKeepsAccounted: stated for resumptions that pass the readiness test of core/worker.cc:20. The scheduler makes no such test; it relies on pushing a continuation only after its awaited task completes, and the model does not prove that over the scheduler's queues.
- Task bodies: a modelled body always adds up the results of the tasks it awaited to its own constant, so a C++ body that discards an awaited result (as `top` in tests/core/task/unit.cc:12-16 does) is modelled with a constant chosen to give the same return value for the inputs at hand, not as a body that ignores the awaited result.
- Threads: `Scheduler::start`'s thread creation and joining, `Engine::start` with its dispatcher loop, `std::this_thread::yield`, the engine's destructor, and `get_running`. Each loop is modelled one iteration at a time, on a state that nothing else changes meanwhile.
- The mutex inside `Queue` and the atomicity of `running_` and `enqueued`. A sequential model cannot state anything about races between workers.
- Scheduling.Scheduler.WorkerStep: the inner `while` that retries `try_get` until another thread pushes is one attempt, ending the iteration as `Idle`. The second `running_` check (core/scheduler.cc:57) cannot fail without another thread, so it is not modelled.
- Workers.Worker.Step: the blocking `get` is one attempt that reports `Blocked` on an empty queue. `get` and `enqueue` are not in core/queue.hh; they are taken to be a blocking front-removal and `push`.
- Workers.Worker.Step: requires the worker invariant. Without it a queued task could have completed, and the loop would resume a finished coroutine, which C++ leaves undefined; or an awaited task could be queued without its flag and be queued a second time. A queue of roots without the flag, as `enqueue` and the dispatcher fill it, meets the invariant (`EnqueuedRootRuns`).
- The C++ coroutine machinery: frame allocation, `resume`, `initial_suspend`/`final_suspend`, and the no-op `unhandled_exception`. A body is a fixed list of awaits. Bodies whose awaits depend on earlier results are not expressible, such as the recursive tester in tests/core/task/unit.cc.
- Tasks a body awaits exist in the arena before the body runs. C++ creates them when the await is reached.
- `await_suspend` stores the continuation as a newly allocated handle with a counter of its own (core/task.hh:78). The model records the callback as the task's index and does not count that handle.
- `state_`, `result_`, `awaiting_` and `callback_` are uninitialised in the source (core/task.hh:63-66). The model starts them at `kAwaiting`, 0, no awaited task and no continuation. The source reads `awaiting_` of tasks that never suspended (core/worker.cc:20) and `callback_` of tasks that were never awaited (core/scheduler.cc:62, 80); the model gives those reads the null pointer's meaning, where C++ leaves them undefined.
- The task interface's accessors (`get_state`, `get_awaiting`, `set_callback`, `get_callback`, `is_enqueued`, `set_enqueued_true/false`, `clone`, `destroy`) are not in core/task.hh. They are modelled on the record, as the scheduler and the tests use them.
- The by-value `Task<T>` parameters of `spawn_task` and `fire_and_forget`. Each is a copy that is destroyed on return, so they do not change the count. Only the handle that is pushed is counted.
- The default argument `hardware_concurrency()` of the `Scheduler` constructor is left out. Its worker count is a parameter.
- Engines.DefaultWorkerCount: for hardware counts 2^31 and 2^31 + 1, subtracting 2 overflows `int`. C++ leaves that undefined; the model subtracts exactly and yields 2.
- Constructors whose declarations and definitions disagree (core/engine.cc:7 against core/engine.hh:14-17, core/worker.hh against core/worker.cc:7) follow the header for the engine and the definition for the worker.
- The Fiber bridge and the singleton scheduler used by tests/fiber/fiber_test.cc are not part of this model. Neither are core/async_main.hh and core/dispatcher.hh, the examples and the benchmarks.

## Findings

| source | as written | input that shows it | evidently intended | confidence | as-written member | corrected member |
|---|---|---|---|---|---|---|
| core/task.hh:87-104 | `counter_++`, `counter_--` and `counter_ == 0` act on the `std::atomic<int>*` pointer, not on the count it points to | a task with one handle whose handle is destroyed: the pointer moves from its (non-null) allocation and is compared with null, so the frame is never destroyed | copies increment and destructions decrement the shared count, and the frame is destroyed when it reaches zero | not executed | Tasks.FrameNeverDestroyedAsWritten | Tasks.DestroyedExactlyOnce |
| core/task.hh:91-97 | `operator=` takes the other handle's counter and increments it, but never releases the counter it held before | two tasks with one handle each; the handle of task 1 is assigned from the handle of task 0: task 1 keeps a count of 1 with no handle left | release the old reference, after taking the new one | not executed | Tasks.AssignLeaksAsWritten | Tasks.AssignHandle |
