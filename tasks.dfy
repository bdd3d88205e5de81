/**
  Task admission: a task starts only while fewer than `maxTasks` are
  running; its cancel handle is kept under its id until it is cancelled or
  completes, and the running count drops only when a task's function
  returns (`completeTask`), not when it is cancelled.

  The goroutine that runs a task is represented by the ghost multiset
  `running` of ids whose task function has not yet returned;
  `CompleteTask` is the step that goroutine takes when it returns.
*/
module Tasks {
  import opened Wrappers

  /** A `context.CancelFunc`: the number of the context it cancels. */
  datatype Cancel = Cancel(context: nat)

  datatype TaskError = LimitReached(maxTasks: int) | UnknownTask(id: string)

  /** `StartTask`'s admission test. */
  function Admits(activeTasks: int, maxTasks: int): (ok: bool)
    ensures ok ==> activeTasks + 1 <= maxTasks
  {
    !(activeTasks >= maxTasks)
  }

  /** Starting only under `Admits` never takes the count above `maxTasks`
      (or above 0 when `maxTasks` is not positive). */
  lemma AdmissionKeepsBound(activeTasks: int, maxTasks: int)
    requires 0 <= activeTasks <= if maxTasks < 0 then 0 else maxTasks
    ensures Admits(activeTasks, maxTasks) ==> activeTasks + 1 <= if maxTasks < 0 then 0 else maxTasks
    ensures !Admits(activeTasks, maxTasks) <==> activeTasks == if maxTasks < 0 then 0 else maxTasks
  {
  }

  class TaskManager {
    const maxTasks: int
    var tasks: map<string, Cancel>
    var activeTasks: int
    /** Contexts created so far; names the next cancel handle. */
    var contexts: nat
    ghost var running: multiset<string>

    /** Every task counted as active has a running function; every kept
        cancel handle belongs to such a task; the count never exceeds the
        limit. */
    ghost predicate Valid()
      reads this
    {
      && activeTasks == |running|
      && (forall id :: id in tasks ==> id in running)
      && activeTasks <= (if maxTasks < 0 then 0 else maxTasks)
    }

    /** `NewTaskManager`. */
    constructor (maxTasks: int)
      ensures Valid()
      ensures this.maxTasks == maxTasks && tasks == map[] && activeTasks == 0 && running == multiset{}
    {
      this.maxTasks := maxTasks;
      tasks := map[];
      activeTasks := 0;
      contexts := 0;
      running := multiset{};
    }

    /** `StartTask`: refuse at the limit; otherwise keep a new cancel handle
        under `id` (replacing one still running under the same id), count one
        more active task and launch it. */
    method StartTask(id: string) returns (err: Option<TaskError>)
      requires Valid()
      modifies this
      ensures Valid()
      ensures !Admits(old(activeTasks), maxTasks) ==>
                err == Some(LimitReached(maxTasks)) && tasks == old(tasks) && activeTasks == old(activeTasks)
                && running == old(running)
      ensures Admits(old(activeTasks), maxTasks) ==>
                && err.None?
                && tasks == old(tasks)[id := Cancel(old(contexts))]
                && activeTasks == old(activeTasks) + 1
                && running == old(running) + multiset{id}
    {
      if activeTasks >= maxTasks {
        return Some(LimitReached(maxTasks));
      }
      tasks := tasks[id := Cancel(contexts)];
      contexts := contexts + 1;
      activeTasks := activeTasks + 1;
      running := running + multiset{id};
      return None;
    }

    /** `CancelTask`: an unknown id is an error; a known one is cancelled and
        forgotten, but stays counted until its function returns. */
    method CancelTask(id: string) returns (err: Option<TaskError>)
      requires Valid()
      modifies this`tasks
      ensures Valid()
      ensures id !in old(tasks) ==> err == Some(UnknownTask(id)) && tasks == old(tasks)
      ensures id in old(tasks) ==> err.None? && tasks == old(tasks) - {id}
      ensures activeTasks == old(activeTasks)
    {
      if id !in tasks {
        return Some(UnknownTask(id));
      }
      RemoveTask(id);
      return None;
    }

    /** `completeTask`: the task function under `id` returned; forget its
        handle (if still kept) and count one task fewer. */
    method CompleteTask(id: string)
      requires Valid() && id in running
      modifies this`tasks, this`activeTasks, this`running
      ensures Valid()
      ensures tasks == old(tasks) - {id}
      ensures activeTasks == old(activeTasks) - 1
      ensures running == old(running) - multiset{id}
    {
      tasks := tasks - {id};
      activeTasks := activeTasks - 1;
      running := running - multiset{id};
    }

    /** `removeTask`: forget the handle under `id`. */
    method RemoveTask(id: string)
      requires Valid()
      modifies this`tasks
      ensures Valid()
      ensures tasks == old(tasks) - {id}
    {
      tasks := tasks - {id};
    }
  }
}
