/** The task rows and the guarded updates on them (internal/jobs/store.go, run.go, service.go). */
module TaskStore {
  import opened Wrappers

  type TaskID = nat
  type Time = nat

  datatype Status = Queued | Running | Retrying | Completed | Failed | Cancelling | Cancelled

  predicate Final(s: Status) {
    s.Completed? || s.Failed? || s.Cancelled?
  }

  predicate Cancellable(s: Status) {
    s.Queued? || s.Running? || s.Retrying?
  }

  /** A row; each task has one River job, which goes by the task's id. */
  datatype Task = Task(
    status: Status, attempt: nat, maxAttempts: nat, error: string, result: Option<string>,
    createdAt: Time, updatedAt: Time, startedAt: Option<Time>, finishedAt: Option<Time>)

  type Tasks = map<TaskID, Task>

  // ---- What each statement does to the table ----

  function NewTask(maxAttempts: int, now: Time): Task {
    Task(Queued, 0, if maxAttempts < 1 then 1 else maxAttempts, "", None, now, now, None, None)
  }

  function RunningTask(t: Task, attempt: nat, now: Time): Task {
    Task(Running, attempt, t.maxAttempts, t.error, t.result, t.createdAt, now,
         if t.startedAt.Some? then t.startedAt else Some(now), t.finishedAt)
  }

  function EndedTask(t: Task, status: Status, error: string, result: Option<string>, now: Time): Task {
    Task(status, t.attempt, t.maxAttempts, error, if result.Some? then result else t.result, t.createdAt, now,
         t.startedAt, if Final(status) then Some(now) else t.finishedAt)
  }

  function CancellingTask(t: Task, now: Time): Task {
    Task(Cancelling, t.attempt, t.maxAttempts, t.error, t.result, t.createdAt, now, t.startedAt, t.finishedAt)
  }

  function AfterRunning(ts: Tasks, id: TaskID, attempt: nat, now: Time): Tasks {
    if id in ts then ts[id := RunningTask(ts[id], attempt, now)] else ts
  }

  function AfterTerminal(ts: Tasks, id: TaskID, status: Status, error: string, result: Option<string>,
                         now: Time): Tasks {
    if id in ts then ts[id := EndedTask(ts[id], status, error, result, now)] else ts
  }

  function AfterCancel(ts: Tasks, id: TaskID, now: Time): Tasks {
    if id in ts && Cancellable(ts[id].status) then ts[id := CancellingTask(ts[id], now)] else ts
  }

  function Cleared(ts: Tasks, before: Time): Tasks {
    map id | id in ts && !(Final(ts[id].status) && ts[id].createdAt < before) :: ts[id]
  }

  predicate IsCancelling(ts: Tasks, id: TaskID) {
    id in ts && (ts[id].status.Cancelling? || ts[id].status.Cancelled?)
  }

  /** Unfinished and not touched since the cutoff. */
  predicate Stuck(ts: Tasks, id: TaskID, cutoff: Time) {
    id in ts && !Final(ts[id].status) && ts[id].updatedAt < cutoff
  }

  function StuckOnes(ts: Tasks, cutoff: Time): set<TaskID> {
    set id | id in ts && Stuck(ts, id, cutoff)
  }

  /** Fail every row of a list whose job is not live. */
  function Swept(ts: Tasks, stuck: set<TaskID>, live: TaskID -> bool, now: Time): Tasks {
    map id | id in ts ::
      if id in stuck && !live(id) then EndedTask(ts[id], Failed, "worker lost (reconciled)", None, now) else ts[id]
  }

  lemma SweptOneMore(ts: Tasks, done: set<TaskID>, id: TaskID, live: TaskID -> bool, now: Time)
    requires id in ts && id !in done
    ensures Swept(ts, done + {id}, live, now)
         == if live(id) then Swept(ts, done, live, now)
            else AfterTerminal(Swept(ts, done, live, now), id, Failed, "worker lost (reconciled)", None, now)
  {
    var a, b := Swept(ts, done + {id}, live, now), Swept(ts, done, live, now);
    if live(id) {
      assert a == b;
    } else {
      assert b[id] == ts[id];
      assert a == AfterTerminal(b, id, Failed, "worker lost (reconciled)", None, now);
    }
  }

  datatype CancelReply = Flagged | NotCancellable | NotFound

  /** How a worker body ends: without an error, or with one. */
  datatype BodyEnd = Succeeded(result: Option<string>) | Errored(message: string, result: Option<string>)

  /** The status a finished attempt is recorded with. */
  function Verdict(ts: Tasks, id: TaskID, attempt: nat, maxAttempts: nat, failed: bool): Status {
    if !failed then Completed
    else if IsCancelling(ts, id) then Cancelled
    else if attempt < maxAttempts then Retrying
    else Failed
  }

  function VerdictError(status: Status, message: string): string {
    if status.Completed? then "" else if status.Cancelled? then "cancelled by request" else message
  }

  // ---- The store and the harness, updating the table in place ----

  /** No row comes or goes, and all but one stay as they are. */
  predicate ButFor(before: Tasks, after: Tasks, id: TaskID) {
    after.Keys == before.Keys && forall other :: other in before && other != id ==> after[other] == before[other]
  }

  class Store {
    var tasks: Tasks

    constructor ()
      ensures tasks == map[]
    {
      tasks := map[];
    }

    /** A task id must be new. */
    method CreateTask(id: TaskID, maxAttempts: int, now: Time) returns (ok: bool)
      modifies this
      ensures ok <==> id !in old(tasks)
      ensures tasks == if ok then old(tasks)[id := NewTask(maxAttempts, now)] else old(tasks)
      ensures ok ==>
                var t := tasks[id];
                && t.status.Queued? && t.attempt == 0 && t.maxAttempts == (if maxAttempts < 1 then 1 else maxAttempts)
                && t.error == "" && t.result.None? && t.startedAt.None? && t.finishedAt.None?
                && t.createdAt == t.updatedAt == now
    {
      ok := id !in tasks;
      if ok {
        var ma := maxAttempts;
        if ma < 1 {
          ma := 1;
        }
        tasks := tasks[id := Task(Queued, 0, ma, "", None, now, now, None, None)];
      }
    }

    method MarkRunning(id: TaskID, attempt: nat, now: Time)
      modifies this
      ensures tasks == AfterRunning(old(tasks), id, attempt, now)
      ensures ButFor(old(tasks), tasks, id)
      ensures id in tasks ==>
                var t, was := tasks[id], old(tasks)[id];
                && t.status.Running? && t.attempt == attempt && t.updatedAt == now
                && t.startedAt == (if was.startedAt.Some? then was.startedAt else Some(now))
                && t.maxAttempts == was.maxAttempts && t.error == was.error && t.result == was.result
                && t.createdAt == was.createdAt && t.finishedAt == was.finishedAt
    {
      if id in tasks {
        var t := tasks[id];
        var started := if t.startedAt.Some? then t.startedAt else Some(now);
        tasks := tasks[id := t.(status := Running, attempt := attempt, startedAt := started, updatedAt := now)];
      }
    }

    method MarkTerminal(id: TaskID, status: Status, error: string, result: Option<string>, now: Time)
      modifies this
      ensures tasks == AfterTerminal(old(tasks), id, status, error, result, now)
      ensures ButFor(old(tasks), tasks, id)
      ensures id in tasks ==>
                var t, was := tasks[id], old(tasks)[id];
                && t.status == status && t.error == error && t.updatedAt == now
                && t.result == (if result.Some? then result else was.result)
                && t.finishedAt == (if status.Completed? || status.Failed? || status.Cancelled? then Some(now)
                                    else was.finishedAt)
                && t.attempt == was.attempt && t.maxAttempts == was.maxAttempts
                && t.createdAt == was.createdAt && t.startedAt == was.startedAt
    {
      if id in tasks {
        var t := tasks[id];
        t := t.(status := status, error := error, updatedAt := now);
        if result.Some? {
          t := t.(result := result);
        }
        if status.Completed? || status.Failed? || status.Cancelled? {
          t := t.(finishedAt := Some(now));
        }
        tasks := tasks[id := t];
      }
    }

    method RequestCancel(id: TaskID, now: Time) returns (r: CancelReply)
      modifies this
      ensures tasks == AfterCancel(old(tasks), id, now)
      ensures ButFor(old(tasks), tasks, id)
      ensures id in tasks ==>
                var t, was := tasks[id], old(tasks)[id];
                if was.status.Queued? || was.status.Running? || was.status.Retrying? then
                  && t.status.Cancelling? && t.updatedAt == now
                  && t.attempt == was.attempt && t.maxAttempts == was.maxAttempts && t.error == was.error
                  && t.result == was.result && t.createdAt == was.createdAt && t.startedAt == was.startedAt
                  && t.finishedAt == was.finishedAt
                else t == was
      ensures r == if id !in old(tasks) then NotFound
                   else if Cancellable(old(tasks)[id].status) then Flagged
                   else NotCancellable
    {
      if id in tasks && (tasks[id].status.Queued? || tasks[id].status.Running? || tasks[id].status.Retrying?) {
        tasks := tasks[id := tasks[id].(status := Cancelling, updatedAt := now)];
        return Flagged;
      }
      if id !in tasks {
        return NotFound;
      }
      return NotCancellable;
    }

    method ClearFinished(before: Time) returns (n: nat)
      modifies this
      ensures tasks == Cleared(old(tasks), before)
      ensures forall id :: id in tasks ==> id in old(tasks) && tasks[id] == old(tasks)[id]
      ensures forall id :: id in old(tasks) ==>
                var was := old(tasks)[id];
                id !in tasks <==>
                  (was.status.Completed? || was.status.Failed? || was.status.Cancelled?) && was.createdAt < before
      ensures n == |old(tasks)| - |tasks|
    {
      var doomed := set id | id in tasks && Final(tasks[id].status) && tasks[id].createdAt < before;
      n := |doomed|;
      var kept := tasks - doomed;
      assert kept == Cleared(tasks, before);
      assert kept.Keys == tasks.Keys - doomed && doomed <= tasks.Keys;
      assert |kept.Keys| == |tasks.Keys| - |doomed|;
      tasks := kept;
    }

    /** Asks for the four statuses by name; what the sweep needs is that no unfinished status escapes them. */
    method FindStuck(cutoff: Time) returns (stuck: set<TaskID>)
      ensures stuck == StuckOnes(tasks, cutoff)
    {
      stuck := set id |
        && id in tasks
        && (tasks[id].status.Queued? || tasks[id].status.Running? || tasks[id].status.Retrying?
            || tasks[id].status.Cancelling?)
        && tasks[id].updatedAt < cutoff;
    }
  }

  /** What a sweep makes of a row: failed if it is unfinished, not touched since the cutoff, and its job is not live. */
  predicate SweptRow(was: Task, t: Task, cutoff: Time, live: bool, now: Time) {
    if (was.status.Queued? || was.status.Running? || was.status.Retrying? || was.status.Cancelling?)
       && was.updatedAt < cutoff && !live
    then
      && t.status.Failed? && t.error == "worker lost (reconciled)" && t.finishedAt == Some(now) && t.updatedAt == now
      && t.result == was.result && t.attempt == was.attempt && t.maxAttempts == was.maxAttempts
      && t.createdAt == was.createdAt && t.startedAt == was.startedAt
    else t == was
  }

  /** The reconciler's sweep: one check and one write for each stuck task, in whatever order they come. */
  method ReconcileOnce(store: Store, live: TaskID -> bool, cutoff: Time, now: Time)
    modifies store
    ensures store.tasks == Swept(old(store.tasks), StuckOnes(old(store.tasks), cutoff), live, now)
    ensures store.tasks.Keys == old(store.tasks).Keys
    ensures forall id :: id in old(store.tasks) ==>
              SweptRow(old(store.tasks)[id], store.tasks[id], cutoff, live(id), now)
  {
    var stuck := store.FindStuck(cutoff);
    ghost var before := store.tasks;
    var todo := stuck;
    assert stuck - todo == {} && before == Swept(before, {}, live, now);
    while todo != {}
      invariant todo <= stuck <= before.Keys
      invariant store.tasks == Swept(before, stuck - todo, live, now)
      decreases |todo|
    {
      var id :| id in todo;
      SweptOneMore(before, stuck - todo, id, live, now);
      assert stuck - (todo - {id}) == stuck - todo + {id};
      todo := todo - {id};
      if !live(id) {
        store.MarkTerminal(id, Failed, "worker lost (reconciled)", None, now);
      }
    }
    assert stuck - todo == stuck == StuckOnes(before, cutoff);
    forall id | id in before
      ensures SweptRow(before[id], store.tasks[id], cutoff, live(id), now)
    {
    }
  }

  /** The run harness around a worker body, and the registry a cancel request reaches it through. */
  class Deps {
    const store: Store
    var cancels: set<TaskID>

    constructor (s: Store)
      ensures store == s && cancels == {}
    {
      store, cancels := s, {};
    }

    /** What `Run` does before the body. */
    method Begin(id: TaskID, attempt: nat, now: Time)
      modifies this, store
      ensures store.tasks == AfterRunning(old(store.tasks), id, attempt, now)
      ensures cancels == old(cancels) + {id}
    {
      store.MarkRunning(id, attempt, now);
      cancels := cancels + {id};
    }

    /** What `Run` does after the body: one terminal write, from the outcome and from what a canceller left behind. */
    method Conclude(id: TaskID, attempt: nat, maxAttempts: nat, end: BodyEnd, now: Time) returns (status: Status)
      modifies this, store
      ensures status == Verdict(old(store.tasks), id, attempt, maxAttempts, end.Errored?)
      ensures store.tasks == AfterTerminal(old(store.tasks), id, status,
                                           VerdictError(status, if end.Errored? then end.message else ""),
                                           end.result, now)
      ensures cancels == old(cancels) - {id}
      ensures ButFor(old(store.tasks), store.tasks, id)
      ensures id in store.tasks ==>
                var t, was := store.tasks[id], old(store.tasks)[id];
                && t.status == status && t.updatedAt == now
                && t.result == (if end.result.Some? then end.result else was.result)
                && t.attempt == was.attempt && t.maxAttempts == was.maxAttempts
                && t.createdAt == was.createdAt && t.startedAt == was.startedAt
                && match end
                   case Succeeded(_) => t.status.Completed? && t.error == "" && t.finishedAt == Some(now)
                   case Errored(message, _) =>
                     if was.status.Cancelling? || was.status.Cancelled? then
                       t.status.Cancelled? && t.error == "cancelled by request" && t.finishedAt == Some(now)
                     else if attempt < maxAttempts then
                       t.status.Retrying? && t.error == message && t.finishedAt == was.finishedAt
                     else t.status.Failed? && t.error == message && t.finishedAt == Some(now)
    {
      match end {
        case Succeeded(result) =>
          status := Completed;
          store.MarkTerminal(id, Completed, "", result, now);
        case Errored(message, result) =>
          if IsCancelling(store.tasks, id) {
            status := Cancelled;
            store.MarkTerminal(id, Cancelled, "cancelled by request", result, now);
          } else if attempt < maxAttempts {
            status := Retrying;
            store.MarkTerminal(id, Retrying, message, result, now);
          } else {
            status := Failed;
            store.MarkTerminal(id, Failed, message, result, now);
          }
      }
      cancels := cancels - {id};
    }
  }
}
