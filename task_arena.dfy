/** The task objects of core/task.hh as the scheduler and the tests see them: one arena holding
    every task record, and the methods of the task interface (`run`, `get_state`,
    `get_awaiting`, `set_callback`, `get_callback`, `is_enqueued`, `set_enqueued_true/false`,
    `clone`, copy, `operator=`, destruction) that read or update a record in place. */
module TaskArena {
  import opened Wrappers
  import opened Tasks

  class Arena {
    var tasks: seq<Task>

    ghost predicate Valid()
      reads this
    {
      Tasks.Valid(tasks)
    }

    constructor ()
      ensures Valid() && tasks == []
    {
      tasks := [];
    }

    /** Calling a coroutine function: a new task, `Awaiting`, not queued, with one handle. The
        tasks its body awaits are created first (C++ creates them when the await is reached). */
    method Create(body: Body) returns (id: Id)
      requires Valid()
      requires body.Coroutine? ==> forall k :: 0 <= k < |body.awaits| ==> Live(tasks, body.awaits[k])
      modifies this
      ensures Valid()
      ensures id == |old(tasks)| && tasks == old(tasks) + [NewTask(body)]
      ensures Closed(old(tasks)) ==> Closed(tasks)
      ensures tasks[id].state == Awaiting && tasks[id].awaiting == None &&
              tasks[id].callback == None && !tasks[id].enqueued && tasks[id].refs == 1
    {
      id := |tasks|;
      tasks := tasks + [NewTask(body)];
      forall i | 0 <= i < |tasks|
        ensures WellFormed(tasks, i)
      {
        if i < id {
          assert WellFormed(old(tasks), i);
        }
      }
    }

    /** `run`: resumes the task once and reports its state afterwards. */
    method Run(t: Id) returns (state: TaskState)
      requires Valid() && CanRun(tasks, t)
      modifies this
      ensures Valid()
      ensures Step(tasks, state) == Tasks.Run(old(tasks), t)
      ensures RunFrame(old(tasks), tasks, t)
      ensures Closed(old(tasks)) ==> Closed(tasks)
      ensures state == Awaiting ==>
                tasks[t].awaiting.Some? && tasks[t].awaiting.value < |tasks| &&
                old(tasks)[tasks[t].awaiting.value].state == Awaiting &&
                tasks[tasks[t].awaiting.value].callback == Some(t)
    {
      RunFacts(tasks, t);
      var s := Tasks.Run(tasks, t);
      tasks, state := s.tasks, s.state;
    }

    /** `set_callback`: records the continuation; nothing else changes. */
    method SetCallback(t: Id, c: Id)
      requires Valid() && t < |tasks| && c < |tasks|
      modifies this
      ensures Valid()
      ensures tasks == old(tasks)[t := old(tasks)[t].(callback := Some(c))]
      ensures Live(old(tasks), t) && Live(old(tasks), c) && Closed(old(tasks)) ==> Closed(tasks)
    {
      SetCallbackFacts(tasks, t, c);
      tasks := Tasks.SetCallback(tasks, t, c);
    }

    /** `set_enqueued_true` (value true) and `set_enqueued_false` (value false). */
    method SetEnqueued(t: Id, value: bool)
      requires Valid() && t < |tasks|
      modifies this
      ensures Valid()
      ensures tasks == old(tasks)[t := old(tasks)[t].(enqueued := value)]
      ensures Closed(old(tasks)) ==> Closed(tasks)
    {
      tasks := Tasks.SetEnqueued(tasks, t, value);
      forall i | 0 <= i < |tasks|
        ensures WellFormed(tasks, i)
      {
        assert WellFormed(old(tasks), i);
      }
    }

    /** `clone` and the copy constructor: a second handle to the same frame. */
    method Clone(t: Id) returns (h: Id)
      requires Valid() && Live(tasks, t)
      modifies this
      ensures Valid()
      ensures h == t && tasks == old(tasks)[t := CopyHandle(old(tasks)[t])]
      ensures Closed(old(tasks)) ==> Closed(tasks)
    {
      assert WellFormed(tasks, t);
      tasks := tasks[t := CopyHandle(tasks[t])];
      h := t;
      forall i | 0 <= i < |tasks|
        ensures WellFormed(tasks, i)
      {
        assert WellFormed(old(tasks), i);
      }
    }

    /** The destructor of a handle (and `destroy`): the last handle destroys the frame. */
    method Release(t: Id)
      requires Valid() && Live(tasks, t)
      modifies this
      ensures Valid()
      ensures tasks == old(tasks)[t := DropHandle(old(tasks)[t])]
      ensures tasks[t].destroys == (if tasks[t].refs == 0 then 1 else 0)
    {
      assert WellFormed(tasks, t);
      tasks := tasks[t := DropHandle(tasks[t])];
      forall i | 0 <= i < |tasks|
        ensures WellFormed(tasks, i)
      {
        assert WellFormed(old(tasks), i);
      }
    }

    /** `operator=`: the handle that referred to `target` now refers to `source`. */
    method Assign(target: Id, source: Id)
      requires Valid() && Live(tasks, target) && Live(tasks, source)
      modifies this
      ensures Valid()
      ensures tasks == AssignHandle(old(tasks), target, source)
    {
      assert WellFormed(tasks, target) && WellFormed(tasks, source);
      tasks := AssignHandle(tasks, target, source);
      forall i | 0 <= i < |tasks|
        ensures WellFormed(tasks, i)
      {
        assert WellFormed(old(tasks), i);
      }
    }
  }

  /** The enqueued-flag test: a new task is not enqueued, and each setter leaves the flag at
      exactly the value it names. */
  method EnqueuedBehavior() returns (flags: seq<bool>)
    ensures flags == [false, true, false, true]
  {
    var arena := new Arena();
    var foo := arena.Create(Coroutine([], 1));
    flags := [arena.tasks[foo].enqueued];
    arena.SetEnqueued(foo, true);
    flags := flags + [arena.tasks[foo].enqueued];
    arena.SetEnqueued(foo, false);
    flags := flags + [arena.tasks[foo].enqueued];
    arena.SetEnqueued(foo, true);
    flags := flags + [arena.tasks[foo].enqueued];
  }
}
