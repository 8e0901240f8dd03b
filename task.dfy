/** The task record of core/task.hh and its lifecycle, as values.

    A C++ coroutine is replaced by an explicit script: a body awaits the listed tasks in
    order, adding up their results, and then returns `bias` plus that sum (so
    `co_return 1 + co_await child()` is `Coroutine([child], 1)`). A frame records how far
    the body has got. Tasks live in an arena (`seq<Task>`) and refer to each other by index. */
module Tasks {
  import opened Wrappers

  type Id = nat

  /** TaskState: `kAwaiting` until `return_value` runs, then `kComplete` for good. */
  datatype TaskState = Awaiting | Complete

  /** What the coroutine body does, or `Task<void>`, whose `run` does nothing. */
  datatype Body =
    | Coroutine(awaits: seq<Id>, bias: int)
    | VoidBody

  /** Where the body resumes: `pc` is the index of the next await, `acc` the sum of the results
      awaited so far, `suspended` whether the body is parked inside the await at `pc`. */
  datatype Frame = Frame(pc: nat, acc: int, suspended: bool)

  /** One task: the promise fields (`state_`, `result_`, `awaiting_`, `callback_`), the enqueued
      flag, the shared reference count and how often `handle_.destroy()` has run on the frame. */
  datatype Task = Task(
    body: Body,
    frame: Frame,
    state: TaskState,
    result: int,
    awaiting: Option<Id>,
    callback: Option<Id>,
    enqueued: bool,
    refs: nat,
    destroys: nat)

  /** A task as a coroutine call creates it: one handle, nothing awaited, no continuation, not
      queued. `state_`, `result_`, `awaiting_` and `callback_` are uninitialised in the source;
      they start at `Awaiting`, 0 and none. */
  function NewTask(body: Body): (r: Task) {
    Task(body, Frame(0, 0, false), Awaiting, 0, None, None, false, 1, 0)
  }

  predicate InRange(tasks: seq<Task>, o: Option<Id>) {
    o.Some? ==> o.value < |tasks|
  }

  /** Every task the script awaits exists. */
  predicate ScriptInRange(tasks: seq<Task>, aw: seq<Id>) {
    forall k :: 0 <= k < |aw| ==> aw[k] < |tasks|
  }

  /** The invariant of one record inside an arena. */
  predicate WellFormed(tasks: seq<Task>, i: nat)
    requires i < |tasks|
  {
    var r := tasks[i];
    InRange(tasks, r.awaiting) && InRange(tasks, r.callback) &&
    r.destroys <= 1 && (r.destroys == 1 <==> r.refs == 0) &&
    match r.body
    case VoidBody => true
    case Coroutine(aw, _) =>
      ScriptInRange(tasks, aw) &&
      r.frame.pc <= |aw| &&
      (r.frame.suspended ==> r.frame.pc < |aw| && r.awaiting == Some(aw[r.frame.pc]))
  }

  predicate Valid(tasks: seq<Task>) {
    forall i :: 0 <= i < |tasks| ==> WellFormed(tasks, i)
  }

  /** Task `i` still has a handle, and its frame still exists. */
  predicate Live(tasks: seq<Task>, i: Id) {
    i < |tasks| && tasks[i].refs > 0 && tasks[i].destroys == 0
  }

  predicate LiveLink(tasks: seq<Task>, o: Option<Id>) {
    o.Some? ==> Live(tasks, o.value)
  }

  /** Every task a live task links to (its script, its `awaiting`, its `callback`) is live too. */
  predicate Closed(tasks: seq<Task>) {
    forall i :: 0 <= i < |tasks| && tasks[i].destroys == 0 ==>
      LiveLink(tasks, tasks[i].awaiting) && LiveLink(tasks, tasks[i].callback) &&
      (tasks[i].body.Coroutine? ==>
        forall k :: 0 <= k < |tasks[i].body.awaits| ==> Live(tasks, tasks[i].body.awaits[k]))
  }

  // ---------------------------------------------------------------------------------------
  // The awaiter protocol

  /** `return_value`: stores the result and marks the task complete, in one step. */
  function ReturnValue(r: Task, v: int): (done: Task) {
    r.(result := v, state := Complete)
  }

  /** `await_ready`: the awaited task has already completed. */
  predicate AwaitReady(tasks: seq<Task>, awaited: Id)
    requires awaited < |tasks|
  {
    tasks[awaited].state == Complete
  }

  /** `await_resume`: the awaited task's stored result. */
  function AwaitResume(tasks: seq<Task>, awaited: Id): (v: int)
    requires awaited < |tasks|
  {
    tasks[awaited].result
  }

  /** The readiness test of core/worker.cc:20: no awaited task, or one that has completed. */
  predicate Ready(tasks: seq<Task>, t: Id)
    requires t < |tasks| && InRange(tasks, tasks[t].awaiting)
  {
    tasks[t].awaiting.None? || tasks[tasks[t].awaiting.value].state == Complete
  }

  /** `await_suspend`: the suspending task now awaits `awaited`, whose continuation becomes the
      suspending task. Nothing else changes. */
  function AwaitSuspend(tasks: seq<Task>, awaiter: Id, awaited: Id): (r: seq<Task>)
    requires awaiter < |tasks| && awaited < |tasks|
    ensures |r| == |tasks|
    ensures r[awaiter].awaiting == Some(awaited) && r[awaited].callback == Some(awaiter)
    ensures forall i :: 0 <= i < |tasks| ==>
              r[i] == tasks[i].(awaiting := r[i].awaiting, callback := r[i].callback)
    ensures forall i :: 0 <= i < |tasks| && i != awaiter ==> r[i].awaiting == tasks[i].awaiting
    ensures forall i :: 0 <= i < |tasks| && i != awaited ==> r[i].callback == tasks[i].callback
  {
    var linked := tasks[awaiter := tasks[awaiter].(awaiting := Some(awaited))];
    linked[awaited := linked[awaited].(callback := Some(awaiter))]
  }

  // ---------------------------------------------------------------------------------------
  // One resumption of a coroutine

  predicate CanContinue(tasks: seq<Task>, t: Id, pc: nat) {
    t < |tasks| && tasks[t].body.Coroutine? && pc <= |tasks[t].body.awaits| &&
    ScriptInRange(tasks, tasks[t].body.awaits)
  }

  /** The point where a resumption stops: at the end of the body (`co_return`), or parked in
      the await at `pc`. */
  function Settle(tasks: seq<Task>, t: Id, pc: nat, acc: int): (r: seq<Task>)
    requires CanContinue(tasks, t, pc)
    ensures |r| == |tasks|
  {
    var aw := tasks[t].body.awaits;
    if pc == |aw| then
      tasks[t := ReturnValue(tasks[t].(frame := Frame(pc, acc, false)), tasks[t].body.bias + acc)]
    else
      AwaitSuspend(tasks[t := tasks[t].(frame := Frame(pc, acc, true))], t, aw[pc])
  }

  /** The body runs on from the await at `pc`: an await whose operand is ready does not suspend
      and adds the operand's result; the first one that is not ready suspends the body. */
  function Continue(tasks: seq<Task>, t: Id, pc: nat, acc: int): (r: seq<Task>)
    requires CanContinue(tasks, t, pc)
    ensures |r| == |tasks|
    decreases |tasks[t].body.awaits| - pc
  {
    var aw := tasks[t].body.awaits;
    if pc < |aw| && AwaitReady(tasks, aw[pc]) then
      Continue(tasks, t, pc + 1, acc + AwaitResume(tasks, aw[pc]))
    else
      Settle(tasks, t, pc, acc)
  }

  /** The outcome of `run`: the arena afterwards and the state `run` reports. */
  datatype Step = Step(tasks: seq<Task>, state: TaskState)

  /** `run` may be called on an existing frame that has not completed. */
  predicate CanRun(tasks: seq<Task>, t: Id) {
    Live(tasks, t) && tasks[t].state == Awaiting && WellFormed(tasks, t)
  }

  /** `Task<T>::run` resumes the coroutine once and reports the promise's state;
      `Task<void>::run` does nothing and reports `kComplete`. A body parked in an await
      first takes the operand's result (`await_resume`), whether or not it has completed. */
  function Run(tasks: seq<Task>, t: Id): (s: Step)
    requires Valid(tasks) && CanRun(tasks, t)
  {
    match tasks[t].body
    case VoidBody => Step(tasks, Complete)
    case Coroutine(aw, _) =>
      assert WellFormed(tasks, t);
      var f := tasks[t].frame;
      var after :=
        if f.suspended then Continue(tasks, t, f.pc + 1, f.acc + AwaitResume(tasks, aw[f.pc]))
        else Continue(tasks, t, f.pc, f.acc);
      Step(after, after[t].state)
  }

  // ---------------------------------------------------------------------------------------
  // A closed form of a resumption, independent of the step-by-step definition

  /** The first await at or after `from` whose operand has not completed (or the end). */
  function FirstPending(tasks: seq<Task>, aw: seq<Id>, from: nat): (j: nat)
    requires from <= |aw| && ScriptInRange(tasks, aw)
    ensures from <= j <= |aw|
    ensures forall k :: from <= k < j ==> tasks[aw[k]].state == Complete
    ensures j < |aw| ==> tasks[aw[j]].state == Awaiting
    decreases |aw| - from
  {
    if from == |aw| || tasks[aw[from]].state == Awaiting then from
    else
      assert tasks[aw[from]].state == Complete;
      FirstPending(tasks, aw, from + 1)
  }

  /** The sum of the results of the awaits `from` up to (not including) `to`. */
  function SumResults(tasks: seq<Task>, aw: seq<Id>, from: nat, to: nat): (sum: int)
    requires from <= to <= |aw| && ScriptInRange(tasks, aw)
    decreases |aw| - from
  {
    if from == to then 0 else tasks[aw[from]].result + SumResults(tasks, aw, from + 1, to)
  }

  /** A resumption skips every ready await, summing their results, and stops at the first
      pending one, or returns if there is none. */
  lemma {:induction false} ContinueClosedForm(tasks: seq<Task>, t: Id, pc: nat, acc: int)
    requires CanContinue(tasks, t, pc)
    ensures var aw := tasks[t].body.awaits;
            var k := FirstPending(tasks, aw, pc);
            Continue(tasks, t, pc, acc) == Settle(tasks, t, k, acc + SumResults(tasks, aw, pc, k))
    decreases |tasks[t].body.awaits| - pc
  {
    var aw := tasks[t].body.awaits;
    if pc < |aw| && AwaitReady(tasks, aw[pc]) {
      ContinueClosedForm(tasks, t, pc + 1, acc + AwaitResume(tasks, aw[pc]));
    }
  }

  /** What every resumption preserves: the arena's shape and invariant, every body, flag,
      count and frame lifetime, and every other task's state, result, frame and `awaiting`.
      The only other record it touches is the callback of the task it suspends on. */
  predicate RunFrame(tasks: seq<Task>, after: seq<Task>, t: Id)
    requires t < |tasks|
  {
    |after| == |tasks| &&
    forall i :: 0 <= i < |tasks| ==>
      after[i].body == tasks[i].body && after[i].enqueued == tasks[i].enqueued &&
      after[i].refs == tasks[i].refs && after[i].destroys == tasks[i].destroys &&
      (i != t ==> after[i].state == tasks[i].state && after[i].result == tasks[i].result &&
                  after[i].frame == tasks[i].frame && after[i].awaiting == tasks[i].awaiting)
  }

  /** The effect of `run`. It reports the state the task holds afterwards; it reports
      `Awaiting` only when the task has just suspended on a task that has not completed, and
      then that task's continuation is the task that ran. No task becomes `Awaiting` again. */
  lemma RunFacts(tasks: seq<Task>, t: Id)
    requires Valid(tasks) && CanRun(tasks, t)
    ensures var s := Run(tasks, t);
      RunFrame(tasks, s.tasks, t) && Valid(s.tasks) &&
      (Closed(tasks) ==> Closed(s.tasks)) &&
      (tasks[t].body.Coroutine? ==> s.state == s.tasks[t].state) &&
      (tasks[t].body.VoidBody? ==> s.state == Complete && s.tasks == tasks) &&
      (forall i :: 0 <= i < |tasks| && tasks[i].state == Complete ==> s.tasks[i].state == Complete) &&
      (forall i :: 0 <= i < |tasks| && s.tasks[i].callback != tasks[i].callback ==>
         s.state == Awaiting && s.tasks[t].awaiting == Some(i) && s.tasks[i].callback == Some(t)) &&
      (s.state == Awaiting ==>
         s.tasks[t].awaiting.Some? && s.tasks[t].awaiting.value < |tasks| &&
         tasks[s.tasks[t].awaiting.value].state == Awaiting &&
         s.tasks[s.tasks[t].awaiting.value].callback == Some(t) &&
         s.tasks[t].frame.suspended)
  {
    if tasks[t].body.Coroutine? {
      var k, acc := RunIsSettle(tasks, t);
      SettleFacts(tasks, t, k, acc);
    }
  }

  /** A resumption of a coroutine stops where `Settle` puts it. It picks the body up just past
      the await it is parked in (having taken that operand's result) or where it stopped, and
      stops at the first await from there whose operand has not completed, or at the end; the
      running sum then holds every result taken on the way. */
  lemma RunIsSettle(tasks: seq<Task>, t: Id) returns (k: nat, acc: int)
    requires Valid(tasks) && CanRun(tasks, t) && tasks[t].body.Coroutine?
    ensures k <= |tasks[t].body.awaits| && ScriptInRange(tasks, tasks[t].body.awaits)
    ensures k < |tasks[t].body.awaits| ==> tasks[tasks[t].body.awaits[k]].state == Awaiting
    ensures var f := tasks[t].frame;
            var aw := tasks[t].body.awaits;
            var from := if f.suspended then f.pc + 1 else f.pc;
            from <= |aw| && k == FirstPending(tasks, aw, from) &&
            acc == (if f.suspended then f.acc + AwaitResume(tasks, aw[f.pc]) else f.acc) +
                   SumResults(tasks, aw, from, k)
    ensures Run(tasks, t).tasks == Settle(tasks, t, k, acc)
    ensures Run(tasks, t).state == Run(tasks, t).tasks[t].state
  {
    assert WellFormed(tasks, t);
    var aw := tasks[t].body.awaits;
    var f := tasks[t].frame;
    var pc := if f.suspended then f.pc + 1 else f.pc;
    var acc0 := if f.suspended then f.acc + AwaitResume(tasks, aw[f.pc]) else f.acc;
    ContinueClosedForm(tasks, t, pc, acc0);
    k := FirstPending(tasks, aw, pc);
    acc := acc0 + SumResults(tasks, aw, pc, k);
  }

  /** RunFacts for the two ways a resumption can stop. */
  lemma SettleFacts(tasks: seq<Task>, t: Id, k: nat, acc: int)
    requires Valid(tasks) && CanRun(tasks, t) && tasks[t].body.Coroutine?
    requires k <= |tasks[t].body.awaits|
    requires k < |tasks[t].body.awaits| ==> tasks[tasks[t].body.awaits[k]].state == Awaiting
    ensures var after := Settle(tasks, t, k, acc);
      RunFrame(tasks, after, t) && Valid(after) &&
      (Closed(tasks) ==> Closed(after)) &&
      (after[t].state == Complete <==> k == |tasks[t].body.awaits|) &&
      after[t].frame == Frame(k, acc, k < |tasks[t].body.awaits|) &&
      after[t].result == (if k == |tasks[t].body.awaits| then tasks[t].body.bias + acc else tasks[t].result) &&
      (forall i :: 0 <= i < |tasks| && tasks[i].state == Complete ==> after[i].state == Complete) &&
      (forall i :: 0 <= i < |tasks| && after[i].callback != tasks[i].callback ==>
         after[t].state == Awaiting && after[t].awaiting == Some(i) && after[i].callback == Some(t)) &&
      (after[t].state == Awaiting ==>
         after[t].awaiting.Some? && after[t].awaiting.value < |tasks| &&
         tasks[after[t].awaiting.value].state == Awaiting &&
         after[after[t].awaiting.value].callback == Some(t) &&
         after[t].frame.suspended)
  {
    assert WellFormed(tasks, t);
    var aw := tasks[t].body.awaits;
    var after := Settle(tasks, t, k, acc);
    forall i | 0 <= i < |after|
      ensures WellFormed(after, i)
    {
      assert WellFormed(tasks, i);
    }
    SettleKeepsClosed(tasks, t, k, acc);
  }

  /** A resumption links only live tasks, so a closed arena stays closed. */
  lemma SettleKeepsClosed(tasks: seq<Task>, t: Id, k: nat, acc: int)
    requires Valid(tasks) && CanRun(tasks, t) && tasks[t].body.Coroutine?
    requires k <= |tasks[t].body.awaits|
    ensures Closed(tasks) ==> Closed(Settle(tasks, t, k, acc))
  {
    var after := Settle(tasks, t, k, acc);
    if Closed(tasks) {
      forall i | 0 <= i < |after| && after[i].destroys == 0
        ensures LiveLink(after, after[i].awaiting) && LiveLink(after, after[i].callback)
      {
        assert tasks[i].destroys == 0;
      }
    }
  }

  /** Resuming a task whose remaining awaits have all completed, including the one it is parked
      in, finishes it: the result is `bias` plus everything awaited, which is what
      `co_return bias + co_await ...` computes. */
  lemma RunCompletesWhenAllReady(tasks: seq<Task>, t: Id)
    requires Valid(tasks) && CanRun(tasks, t) && tasks[t].body.Coroutine?
    requires forall k :: tasks[t].frame.pc <= k < |tasks[t].body.awaits| ==>
               tasks[tasks[t].body.awaits[k]].state == Complete
    ensures var s := Run(tasks, t);
            var aw := tasks[t].body.awaits;
            s.state == Complete &&
            s.tasks[t].result ==
              tasks[t].body.bias + tasks[t].frame.acc + SumResults(tasks, aw, tasks[t].frame.pc, |aw|)
  {
    var aw := tasks[t].body.awaits;
    var f := tasks[t].frame;
    assert WellFormed(tasks, t);
    var k, acc := RunIsSettle(tasks, t);
    SettleFacts(tasks, t, k, acc);
    assert k == |aw|;
  }

  /** Awaits whose operands all returned `v` add up to `v` times their number. */
  lemma {:induction false} SumResultsConst(tasks: seq<Task>, aw: seq<Id>, from: nat, to: nat, v: int)
    requires from <= to <= |aw| && ScriptInRange(tasks, aw)
    requires forall k :: from <= k < to ==> tasks[aw[k]].result == v
    ensures SumResults(tasks, aw, from, to) == v * (to - from)
    decreases |aw| - from
  {
    if from < to {
      SumResultsConst(tasks, aw, from + 1, to, v);
    }
  }

  // ---------------------------------------------------------------------------------------
  // What a body has accounted for, over any interleaving of resumptions

  /** The results awaited from `a` up to `b` and from `b` up to `c` make up those from `a` to `c`. */
  lemma {:induction false} SumResultsSplit(tasks: seq<Task>, aw: seq<Id>, a: nat, b: nat, c: nat)
    requires a <= b <= c <= |aw| && ScriptInRange(tasks, aw)
    ensures SumResults(tasks, aw, a, b) + SumResults(tasks, aw, b, c) == SumResults(tasks, aw, a, c)
    decreases |aw| - a
  {
    if a < b {
      SumResultsSplit(tasks, aw, a + 1, b, c);
    }
  }

  /** The sum reads nothing but the results of the awaited tasks. */
  lemma {:induction false} SumResultsFrame(tasks: seq<Task>, other: seq<Task>, aw: seq<Id>, from: nat, to: nat)
    requires from <= to <= |aw| && ScriptInRange(tasks, aw) && ScriptInRange(other, aw)
    requires forall j :: from <= j < to ==> other[aw[j]].result == tasks[aw[j]].result
    ensures SumResults(other, aw, from, to) == SumResults(tasks, aw, from, to)
    decreases |aw| - from
  {
    if from < to {
      SumResultsFrame(tasks, other, aw, from + 1, to);
    }
  }

  /** The running sum of task `i` holds exactly the results of the awaits its body has passed,
      all of which have completed (a body parked in an await has not yet taken that result),
      and a completed task returned `bias` plus that sum from the end of its body. */
  predicate Accounted(tasks: seq<Task>, i: Id)
    requires i < |tasks|
  {
    match tasks[i].body
    case VoidBody => true
    case Coroutine(aw, bias) =>
      var f := tasks[i].frame;
      ScriptInRange(tasks, aw) && f.pc <= |aw| &&
      (forall j :: 0 <= j < f.pc ==> tasks[aw[j]].state == Complete) &&
      f.acc == SumResults(tasks, aw, 0, f.pc) &&
      (tasks[i].state == Complete ==> f.pc == |aw| && !f.suspended && tasks[i].result == bias + f.acc)
  }

  predicate AllAccounted(tasks: seq<Task>) {
    forall i :: 0 <= i < |tasks| ==> Accounted(tasks, i)
  }

  /** A task fresh from its coroutine call has accounted for nothing, correctly; the tasks
      already there are unaffected. */
  lemma AppendKeepsAccounted(tasks: seq<Task>, body: Body)
    requires AllAccounted(tasks)
    requires body.Coroutine? ==> ScriptInRange(tasks, body.awaits)
    ensures AllAccounted(tasks + [NewTask(body)])
  {
    var next := tasks + [NewTask(body)];
    forall i | 0 <= i < |next|
      ensures Accounted(next, i)
    {
      if i < |tasks| && tasks[i].body.Coroutine? {
        assert Accounted(tasks, i);
        var aw := tasks[i].body.awaits;
        SumResultsFrame(tasks, next, aw, 0, tasks[i].frame.pc);
      }
    }
  }

  /** What a task has accounted for depends only on bodies, frames, states and results: the
      links, flags and counts that `set_callback`, `set_enqueued_*` and the handles change do not
      disturb it. */
  lemma AccountedIgnoresLinks(tasks: seq<Task>, other: seq<Task>)
    requires AllAccounted(tasks) && |other| == |tasks|
    requires forall i :: 0 <= i < |tasks| ==>
               other[i].body == tasks[i].body && other[i].frame == tasks[i].frame &&
               other[i].state == tasks[i].state && other[i].result == tasks[i].result
    ensures AllAccounted(other)
  {
    forall i | 0 <= i < |other|
      ensures Accounted(other, i)
    {
      if tasks[i].body.Coroutine? {
        assert Accounted(tasks, i);
        SumResultsFrame(tasks, other, tasks[i].body.awaits, 0, tasks[i].frame.pc);
      }
    }
  }

  /** A resumption of `u` leaves what every other task has accounted for intact: the results
      another task has taken belong to completed tasks, and `u` had not completed. */
  lemma OthersStayAccounted(tasks: seq<Task>, after: seq<Task>, u: Id, i: Id)
    requires u < |tasks| && tasks[u].state == Awaiting && RunFrame(tasks, after, u)
    requires i < |tasks| && i != u && Accounted(tasks, i)
    ensures Accounted(after, i)
  {
    if tasks[i].body.Coroutine? {
      var aw := tasks[i].body.awaits;
      forall j | 0 <= j < tasks[i].frame.pc
        ensures after[aw[j]].state == Complete && after[aw[j]].result == tasks[aw[j]].result
      {
        assert tasks[aw[j]].state == Complete;
      }
      SumResultsFrame(tasks, after, aw, 0, tasks[i].frame.pc);
    }
  }

  /** A resumption of a task whose awaited task has completed keeps its own running sum
      accounted for: it adds exactly the results of the awaits it passes. */
  lemma ResumedStaysAccounted(tasks: seq<Task>, u: Id)
    requires Valid(tasks) && CanRun(tasks, u) && Ready(tasks, u) && Accounted(tasks, u)
    requires tasks[u].body.Coroutine?
    ensures Accounted(Run(tasks, u).tasks, u)
  {
    var k, acc := RunIsSettle(tasks, u);
    ResumePassesCompleted(tasks, u, k, acc);
    SettleStaysAccounted(tasks, u, k, acc);
  }

  /** Where a resumption of a ready, accounted task stops, every await before it has completed
      and the running sum holds exactly their results. */
  lemma ResumePassesCompleted(tasks: seq<Task>, u: Id, k: nat, acc: int)
    requires Valid(tasks) && CanRun(tasks, u) && Ready(tasks, u) && Accounted(tasks, u)
    requires tasks[u].body.Coroutine?
    requires var f := tasks[u].frame;
             var aw := tasks[u].body.awaits;
             var from := if f.suspended then f.pc + 1 else f.pc;
             from <= |aw| && k == FirstPending(tasks, aw, from) &&
             acc == (if f.suspended then f.acc + AwaitResume(tasks, aw[f.pc]) else f.acc) +
                    SumResults(tasks, aw, from, k)
    ensures k <= |tasks[u].body.awaits| && ScriptInRange(tasks, tasks[u].body.awaits)
    ensures forall j :: 0 <= j < k ==> tasks[tasks[u].body.awaits[j]].state == Complete
    ensures acc == SumResults(tasks, tasks[u].body.awaits, 0, k)
  {
    assert WellFormed(tasks, u);
    var aw := tasks[u].body.awaits;
    var f := tasks[u].frame;
    var from := if f.suspended then f.pc + 1 else f.pc;
    forall j | 0 <= j < k
      ensures tasks[aw[j]].state == Complete
    {
      if j >= from {
        assert j < FirstPending(tasks, aw, from);
      }
    }
    SumResultsSplit(tasks, aw, 0, f.pc, k);
  }

  /** A resumption that passed only completed awaits, and whose sum holds exactly their
      results, stops accounted for. */
  lemma SettleStaysAccounted(tasks: seq<Task>, u: Id, k: nat, acc: int)
    requires Valid(tasks) && CanRun(tasks, u) && tasks[u].body.Coroutine?
    requires k <= |tasks[u].body.awaits| && ScriptInRange(tasks, tasks[u].body.awaits)
    requires k < |tasks[u].body.awaits| ==> tasks[tasks[u].body.awaits[k]].state == Awaiting
    requires forall j :: 0 <= j < k ==> tasks[tasks[u].body.awaits[j]].state == Complete
    requires acc == SumResults(tasks, tasks[u].body.awaits, 0, k)
    ensures Accounted(Settle(tasks, u, k, acc), u)
  {
    var aw := tasks[u].body.awaits;
    SettleFacts(tasks, u, k, acc);
    var after := Settle(tasks, u, k, acc);
    forall j | 0 <= j < k
      ensures after[aw[j]].state == Complete && after[aw[j]].result == tasks[aw[j]].result
    {
      assert tasks[aw[j]].state == Complete;
    }
    SumResultsFrame(tasks, after, aw, 0, k);
  }

  /** Every resumption of a task whose awaited task has completed (the test of
      core/worker.cc:20) keeps every task accounted for. */
  lemma RunKeepsAccounted(tasks: seq<Task>, u: Id)
    requires Valid(tasks) && CanRun(tasks, u) && Ready(tasks, u) && AllAccounted(tasks)
    ensures AllAccounted(Run(tasks, u).tasks)
  {
    RunFacts(tasks, u);
    var after := Run(tasks, u).tasks;
    forall i | 0 <= i < |after|
      ensures Accounted(after, i)
    {
      if i != u {
        OthersStayAccounted(tasks, after, u, i);
      } else if tasks[u].body.Coroutine? {
        ResumedStaysAccounted(tasks, u);
      }
    }
  }

  /** Resumes the listed tasks one after another, in any interleaving a driver might choose;
      `None` when a listed task cannot be resumed at that point (it has completed, it is gone,
      or the task it awaits has not completed). */
  function Schedule(tasks: seq<Task>, order: seq<Id>): (r: Option<seq<Task>>)
    requires Valid(tasks)
    ensures r.Some? ==> Valid(r.value) && |r.value| == |tasks|
    ensures r.Some? ==> forall i :: 0 <= i < |tasks| ==> r.value[i].body == tasks[i].body
    decreases |order|
  {
    if order == [] then Some(tasks)
    else if CanRun(tasks, order[0]) && Ready(tasks, order[0]) then
      RunFacts(tasks, order[0]);
      Schedule(Run(tasks, order[0]).tasks, order[1..])
    else None
  }

  /** Whatever the interleaving, every task stays accounted for. */
  lemma {:induction false} ScheduleKeepsAccounted(tasks: seq<Task>, order: seq<Id>)
    requires Valid(tasks) && AllAccounted(tasks)
    ensures Schedule(tasks, order).Some? ==> AllAccounted(Schedule(tasks, order).value)
    decreases |order|
  {
    if order != [] && CanRun(tasks, order[0]) && Ready(tasks, order[0]) {
      RunFacts(tasks, order[0]);
      RunKeepsAccounted(tasks, order[0]);
      ScheduleKeepsAccounted(Run(tasks, order[0]).tasks, order[1..]);
    }
  }

  /** A caller that awaits n callees, each returning 1, and returns the sum, finishes with n,
      however its resumptions interleave with the callees' runs. */
  lemma CallerCountsCallees(tasks: seq<Task>, order: seq<Id>, t: Id)
    requires Valid(tasks) && AllAccounted(tasks) && t < |tasks|
    requires tasks[t].body.Coroutine? && tasks[t].body.bias == 0 && ScriptInRange(tasks, tasks[t].body.awaits)
    requires Schedule(tasks, order).Some? && Schedule(tasks, order).value[t].state == Complete
    requires forall k :: 0 <= k < |tasks[t].body.awaits| ==>
               Schedule(tasks, order).value[tasks[t].body.awaits[k]].result == 1
    ensures Schedule(tasks, order).value[t].result == |tasks[t].body.awaits|
  {
    ScheduleKeepsAccounted(tasks, order);
    var end := Schedule(tasks, order).value;
    var aw := tasks[t].body.awaits;
    assert Accounted(end, t);
    SumResultsConst(end, aw, 0, |aw|, 1);
  }

  // ---------------------------------------------------------------------------------------
  // Handles and the shared reference count

  /** Copying a handle (the copy constructor, `clone`): one more reference to the same frame. */
  function CopyHandle(r: Task): (copy: Task)
    requires r.refs > 0
  {
    r.(refs := r.refs + 1)
  }

  /** Destroying a handle: one reference fewer; the last one destroys the frame. */
  function DropHandle(r: Task): (dropped: Task)
    requires r.refs > 0
  {
    if r.refs == 1 then r.(refs := 0, destroys := r.destroys + 1) else r.(refs := r.refs - 1)
  }

  datatype HandleOp = Copy | Drop

  /** Every operation goes through a handle, so each needs at least one reference left. */
  predicate HandlesExist(refs: nat, ops: seq<HandleOp>)
    decreases |ops|
  {
    ops == [] ||
    (refs > 0 && HandlesExist(if ops[0] == Copy then refs + 1 else refs - 1, ops[1..]))
  }

  function ApplyHandles(r: Task, ops: seq<HandleOp>): (after: Task)
    requires HandlesExist(r.refs, ops)
    decreases |ops|
  {
    if ops == [] then r
    else ApplyHandles(if ops[0] == Copy then CopyHandle(r) else DropHandle(r), ops[1..])
  }

  function Count(ops: seq<HandleOp>, op: HandleOp): (n: nat) {
    if ops == [] then 0 else (if ops[0] == op then 1 else 0) + Count(ops[1..], op)
  }

  /** The count starts at the number of handles, each copy adds one and each destruction takes
      one away; the frame is destroyed exactly when the count reaches zero, and at most once.
      Nothing else about the task changes. */
  lemma {:induction false} DestroyedExactlyOnce(r: Task, ops: seq<HandleOp>)
    requires r.refs > 0 && r.destroys == 0 && HandlesExist(r.refs, ops)
    ensures var e := ApplyHandles(r, ops);
      e.refs == r.refs + Count(ops, Copy) - Count(ops, Drop) &&
      e.destroys == (if e.refs == 0 then 1 else 0) &&
      e == r.(refs := e.refs, destroys := e.destroys)
    decreases |ops|
  {
    if ops != [] {
      var next := if ops[0] == Copy then CopyHandle(r) else DropHandle(r);
      if next.refs == 0 {
        assert ops[1..] == [];
      } else {
        DestroyedExactlyOnce(next, ops[1..]);
      }
    }
  }

  /** `operator=` meant as: take a reference to the assigned-from task, then give up the one
      the handle held before (in that order, so that self-assignment is harmless). */
  function AssignHandle(tasks: seq<Task>, target: Id, source: Id): (r: seq<Task>)
    requires target < |tasks| && source < |tasks| && tasks[source].refs > 0 && tasks[target].refs > 0
    ensures |r| == |tasks|
    ensures target != source ==> r[target] == DropHandle(tasks[target]) && r[source] == CopyHandle(tasks[source])
    ensures target == source ==> r == tasks
    ensures forall i :: 0 <= i < |tasks| && i != target && i != source ==> r[i] == tasks[i]
  {
    var copied := tasks[source := CopyHandle(tasks[source])];
    copied[target := DropHandle(copied[target])]
  }

  // The reference count as the source writes it. `counter_` is a `std::atomic<int>*`, and
  // `counter_++`, `counter_--` and `counter_ == 0` act on that pointer, not on the count.
  // Below, a pointer is an address counted in `std::atomic<int>` elements; null is 0.

  /** The copy constructor as written: the new handle's pointer is one element past the old. */
  function CopyAsWritten(counterPtr: int): (moved: int) {
    counterPtr + 1
  }

  /** The destructor as written destroys the frame when the decremented pointer is null. */
  predicate DestructorDestroysAsWritten(counterPtr: int) {
    counterPtr - 1 == 0
  }

  /** The pointer held by a handle made from the original by `n` successive copies: each copy
      moves it one element further. */
  function CopiedAsWritten(alloc: int, n: nat): (ptr: int)
    ensures ptr == alloc + n
  {
    if n == 0 then alloc else CopyAsWritten(CopiedAsWritten(alloc, n - 1))
  }

  /** As written, no handle of a task ever destroys its frame: the pointers only move away from
      null. With the intended counter, destroying the only handle of a new task destroys it. */
  lemma FrameNeverDestroyedAsWritten(alloc: int, n: nat, body: Body)
    requires alloc > 1
    ensures !DestructorDestroysAsWritten(CopiedAsWritten(alloc, n))
    ensures DropHandle(NewTask(body)).destroys == 1
  {
  }

  /** `operator=` as written, read with the counter it was meant to change: the assigned-from
      task gains a reference and the task the handle referred to before keeps its count. */
  function AssignAsWritten(tasks: seq<Task>, target: Id, source: Id): (r: seq<Task>)
    requires target < |tasks| && source < |tasks| && tasks[source].refs > 0
  {
    tasks[source := CopyHandle(tasks[source])]
  }

  /** Two new tasks, one handle each; the handle of task 1 is assigned from the handle of task 0.
      As written, task 1 keeps a count of one although no handle to it is left, so its frame can
      never be destroyed; with AssignHandle it is destroyed by the assignment. */
  lemma AssignLeaksAsWritten()
    ensures var tasks := [NewTask(VoidBody), NewTask(VoidBody)];
      AssignAsWritten(tasks, 1, 0)[1].refs == 1 && AssignAsWritten(tasks, 1, 0)[1].destroys == 0 &&
      AssignHandle(tasks, 1, 0)[1].refs == 0 && AssignHandle(tasks, 1, 0)[1].destroys == 1 &&
      AssignHandle(tasks, 1, 0)[0].refs == 2
  {
  }

  // ---------------------------------------------------------------------------------------
  // The enqueued flag

  /** `set_enqueued_true` / `set_enqueued_false`. */
  function SetEnqueued(tasks: seq<Task>, t: Id, value: bool): (r: seq<Task>)
    requires t < |tasks|
  {
    tasks[t := tasks[t].(enqueued := value)]
  }

  /** `set_callback`. */
  function SetCallback(tasks: seq<Task>, t: Id, c: Id): (r: seq<Task>)
    requires t < |tasks|
  {
    tasks[t := tasks[t].(callback := Some(c))]
  }

  /** Recording a continuation changes only that callback; between live tasks it keeps the
      arena well-formed and closed. */
  lemma SetCallbackFacts(tasks: seq<Task>, t: Id, c: Id)
    requires Valid(tasks) && t < |tasks| && c < |tasks|
    ensures var r := SetCallback(tasks, t, c);
      Valid(r) && |r| == |tasks| && r[t].callback == Some(c) &&
      (forall i :: 0 <= i < |tasks| ==> r[i] == tasks[i].(callback := r[i].callback)) &&
      (forall i :: 0 <= i < |tasks| && i != t ==> r[i] == tasks[i]) &&
      (Live(tasks, t) && Live(tasks, c) && Closed(tasks) ==> Closed(r))
  {
    var r := SetCallback(tasks, t, c);
    forall i | 0 <= i < |r|
      ensures WellFormed(r, i)
    {
      assert WellFormed(tasks, i);
    }
  }

  // ---------------------------------------------------------------------------------------
  // The task tests, replayed on the model

  /** `top` awaits `bottom`: the first run of `top` suspends on `bottom`, running `bottom`
      completes it, and running `top` again completes `top`; both bodies have run to the end.
      A modelled body adds up the results it awaited; `top` discards `bottom`'s 1 and returns 1,
      so it is given a bias of 0 and both tasks end with the result 1. */
  lemma SimpleContinuation()
    ensures var t0 := [NewTask(Coroutine([], 1)), NewTask(Coroutine([0], 0))];
      Valid(t0) && CanRun(t0, 1) &&
      var s1 := Run(t0, 1);
      s1.state == Awaiting && s1.tasks[1].awaiting == Some(0) && s1.tasks[0].callback == Some(1) &&
      Valid(s1.tasks) && CanRun(s1.tasks, 0) &&
      var s2 := Run(s1.tasks, 0);
      s2.state == Complete &&
      Valid(s2.tasks) && CanRun(s2.tasks, 1) &&
      var s3 := Run(s2.tasks, 1);
      s3.state == Complete && s3.tasks[0].state == Complete && s3.tasks[1].state == Complete &&
      s2.tasks[0].result == 1 && s3.tasks[1].result == 1
  {
    var t0 := [NewTask(Coroutine([], 1)), NewTask(Coroutine([0], 0))];
    assert WellFormed(t0, 0) && WellFormed(t0, 1);
    RunFacts(t0, 1);
    var s1 := Run(t0, 1);
    RunFacts(s1.tasks, 0);
    var s2 := Run(s1.tasks, 0);
    RunFacts(s2.tasks, 1);
  }

  /** A task returning 42 and a task that awaits it and adds 8: the second yields 50. */
  lemma ChainedResult()
    ensures var t0 := [NewTask(Coroutine([], 42)), NewTask(Coroutine([0], 8))];
      Valid(t0) && CanRun(t0, 1) &&
      var s1 := Run(t0, 1);
      Valid(s1.tasks) && CanRun(s1.tasks, 0) &&
      var s2 := Run(s1.tasks, 0);
      Valid(s2.tasks) && CanRun(s2.tasks, 1) &&
      var s3 := Run(s2.tasks, 1);
      s3.state == Complete && s3.tasks[1].result == 50
  {
    var t0 := [NewTask(Coroutine([], 42)), NewTask(Coroutine([0], 8))];
    assert WellFormed(t0, 0) && WellFormed(t0, 1);
    RunFacts(t0, 1);
    var s1 := Run(t0, 1);
    RunFacts(s1.tasks, 0);
    var s2 := Run(s1.tasks, 0);
    RunFacts(s2.tasks, 1);
  }
}
