/**
 The start of the scheduler (internal/core/scheduler/application/runner.go,
 internal/core/scheduler/domain/task.go) and the election within one process
 (internal/core/scheduler/drivers/inproc/inproc.go).
 */
module Runner {
  import opened Wrappers

  type TaskName = string

  datatype Task = Task(name: TaskName, every: int, timeout: int) {
    /** The bound of one execution. */
    function Deadline(): int {
      if timeout > 0 then timeout else every
    }
  }

  datatype Scheduled = Scheduled(task: Task, hasJob: bool)

  datatype Refusal = NameMissing | BadPeriod | BadTimeout | NoJob | DeclaredTwice

  function TaskProblem(t: Task): Option<Refusal> {
    if t.name == "" then Some(NameMissing)
    else if t.every <= 0 then Some(BadPeriod)
    else if t.timeout < 0 then Some(BadTimeout)
    else None
  }

  /** What is wrong with entry i, the entries before it being known. */
  ghost function Problem(batch: seq<Scheduled>, i: nat): Option<Refusal>
    requires i < |batch|
  {
    if TaskProblem(batch[i].task).Some? then TaskProblem(batch[i].task)
    else if !batch[i].hasJob then Some(NoJob)
    else if exists j :: 0 <= j < i && batch[j].task.name == batch[i].task.name then Some(DeclaredTwice)
    else None
  }

  /** What each refusal means, the checks before it having passed. */
  ghost predicate Means(r: Refusal, batch: seq<Scheduled>, i: nat)
    requires i < |batch|
  {
    var t := batch[i].task;
    match r
    case NameMissing => t.name == ""
    case BadPeriod => t.name != "" && t.every <= 0
    case BadTimeout => t.name != "" && t.every > 0 && t.timeout < 0
    case NoJob => t.name != "" && t.every > 0 && t.timeout >= 0 && !batch[i].hasJob
    case DeclaredTwice =>
      && t.name != "" && t.every > 0 && t.timeout >= 0 && batch[i].hasJob
      && exists j :: 0 <= j < i && batch[j].task.name == t.name
  }

  /** Refuses the batch for its first problem, and accepts it when there is none. */
  method Validate(batch: seq<Scheduled>) returns (r: Option<Refusal>)
    ensures r.None? ==> forall i :: 0 <= i < |batch| ==> Problem(batch, i).None?
    ensures r.Some? ==>
              exists i :: 0 <= i < |batch| && Problem(batch, i) == r && Means(r.value, batch, i)
                && forall j :: 0 <= j < i ==> Problem(batch, j).None?
  {
    var seen: set<TaskName> := {};
    for i := 0 to |batch|
      invariant forall j :: 0 <= j < i ==> Problem(batch, j).None?
      invariant forall name :: name in seen <==> exists j :: 0 <= j < i && batch[j].task.name == name
    {
      var entry := batch[i];
      var problem := TaskProblem(entry.task);
      if problem.Some? {
        assert Problem(batch, i) == problem;
        return problem;
      }
      if !entry.hasJob {
        assert Problem(batch, i) == Some(NoJob);
        return Some(NoJob);
      }
      if entry.task.name in seen {
        assert Problem(batch, i) == Some(DeclaredTwice);
        return Some(DeclaredTwice);
      }
      seen := seen + {entry.task.name};
    }
    return None;
  }

  /**
   An accepted batch: every period can drive a ticker, every execution has a
   positive bound, every task has a job, and no two tasks share an election key.
   */
  lemma AcceptedBatchIsUsable(batch: seq<Scheduled>)
    ensures (forall i :: 0 <= i < |batch| ==> Problem(batch, i).None?) <==>
            && (forall i :: 0 <= i < |batch| ==>
                  && batch[i].task.name != "" && batch[i].task.every > 0 && batch[i].task.timeout >= 0
                  && batch[i].task.Deadline() > 0 && batch[i].hasJob
                  && batch[i].task.Deadline() in {batch[i].task.timeout, batch[i].task.every}
                  && (batch[i].task.Deadline() == batch[i].task.every <==>
                        batch[i].task.timeout in {0, batch[i].task.every}))
            && (forall i, j :: 0 <= i < j < |batch| ==> batch[i].task.name != batch[j].task.name)
  {
    if forall i :: 0 <= i < |batch| ==> Problem(batch, i).None? {
      forall i, j | 0 <= i < j < |batch| ensures batch[i].task.name != batch[j].task.name {
        assert Problem(batch, j).None?;
      }
      forall i | 0 <= i < |batch| ensures TaskProblem(batch[i].task).None? && batch[i].hasJob {
        assert Problem(batch, i).None?;
      }
    }
  }

  // ---- The in-process election ----

  datatype Call = Acquire(task: TaskName) | Release(task: TaskName)

  /** The tasks taken after the first calls of a history; the calls hold the mutex, so they are in some order. */
  function Taken(calls: seq<Call>): set<TaskName> {
    if calls == [] then {}
    else
      var before := Taken(calls[..|calls| - 1]);
      match calls[|calls| - 1]
      case Acquire(task) => before + {task}
      case Release(task) => before - {task}
  }

  /** Call i took its task. */
  predicate Elected(calls: seq<Call>, i: nat)
    requires i < |calls|
  {
    calls[i].Acquire? && calls[i].task !in Taken(calls[..i])
  }

  lemma {:induction false} TakenUntilReleased(calls: seq<Call>, i: nat, task: TaskName)
    requires i < |calls| && calls[i] == Acquire(task)
    requires forall k :: i < k < |calls| ==> calls[k] != Release(task)
    ensures task in Taken(calls)
  {
    if i < |calls| - 1 {
      TakenUntilReleased(calls[..|calls| - 1], i, task);
    }
  }

  /** Call i acquires the task and no later call of the history releases it. */
  ghost predicate Keeps(calls: seq<Call>, i: nat, task: TaskName) {
    i < |calls| && calls[i] == Acquire(task) && forall k :: i < k < |calls| ==> calls[k] != Release(task)
  }

  lemma {:induction false} TakenIff(calls: seq<Call>, task: TaskName)
    ensures task in Taken(calls) <==> exists i: nat :: Keeps(calls, i, task)
  {
    if calls != [] {
      var front, last := calls[..|calls| - 1], calls[|calls| - 1];
      TakenIff(front, task);
      if last == Acquire(task) {
        assert Keeps(calls, |calls| - 1, task);
      } else if last != Release(task) {
        if i: nat :| Keeps(front, i, task) {
          assert Keeps(calls, i, task);
        }
        if i: nat :| Keeps(calls, i, task) {
          assert Keeps(front, i, task);
        }
      }
    }
  }

  /** An Acquire elects exactly when every earlier Acquire of its task was followed by a Release. */
  lemma ElectedIff(calls: seq<Call>, j: nat)
    requires j < |calls| && calls[j].Acquire?
    ensures Elected(calls, j) <==> forall i: nat :: !Keeps(calls[..j], i, calls[j].task)
  {
    TakenIff(calls[..j], calls[j].task);
  }

  /** No overlap within the process: between two elections of one task there is a release of it. */
  lemma ElectionsAreSeparated(calls: seq<Call>, i: nat, j: nat)
    requires i < j < |calls| && calls[i].Acquire? && Elected(calls, j) && calls[j].task == calls[i].task
    ensures exists k :: i < k < j && calls[k] == Release(calls[i].task)
  {
    if forall k :: i < k < j ==> calls[k] != Release(calls[i].task) {
      TakenUntilReleased(calls[..j], i, calls[i].task);
    }
  }

  class Elector {
    var running: set<TaskName>

    constructor ()
      ensures running == Taken([])
    {
      running := {};
    }

    method Acquire(task: TaskName, ghost calls: seq<Call>) returns (elected: bool)
      requires running == Taken(calls)
      modifies this
      ensures running == Taken(calls + [Call.Acquire(task)])
      ensures elected <==> Elected(calls + [Call.Acquire(task)], |calls|)
      ensures elected <==> task !in old(running)
      ensures running == old(running) + {task}
    {
      assert (calls + [Call.Acquire(task)])[..|calls|] == calls;
      if task in running {
        return false;
      }
      running := running + {task};
      return true;
    }

    method Release(task: TaskName, ghost calls: seq<Call>)
      requires running == Taken(calls)
      modifies this
      ensures running == Taken(calls + [Call.Release(task)])
      ensures running == old(running) - {task}
    {
      assert (calls + [Call.Release(task)])[..|calls|] == calls;
      running := running - {task};
    }
  }
}
