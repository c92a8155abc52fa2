/** What a task's row holds after any run, field by field, told from the run alone (internal/jobs/store.go, run.go). */
module TaskRows {
  import opened Wrappers
  import opened TaskStore
  import opened TaskProtocol

  // ---- What a run says of a task ----

  /** The result of the last terminal write that carried one. */
  function LastResult(acts: seq<Action>, id: TaskID): Option<string> {
    if acts == [] then None
    else
      var rest := LastResult(acts[1..], id);
      if rest.Some? then rest
      else if acts[0].Write? && acts[0].id == id then acts[0].result
      else None
  }

  /** When a worker first marked the task running. */
  function FirstBegin(acts: seq<Action>, id: TaskID): Option<Time> {
    if acts == [] then None
    else if acts[0].Begin? && acts[0].id == id then Some(acts[0].now)
    else FirstBegin(acts[1..], id)
  }

  /** How and when the task was enqueued. */
  function Enqueued(acts: seq<Action>, id: TaskID): Option<(int, Time)> {
    if acts == [] then None
    else if acts[0].Enqueue? && acts[0].id == id then Some((acts[0].maxAttempts, acts[0].now))
    else Enqueued(acts[1..], id)
  }

  /** What the last terminal write, a worker's or a sweep's, has to say of a failure. */
  function LastMessage(acts: seq<Action>, id: TaskID): Option<string> {
    if acts == [] then None
    else
      var rest := LastMessage(acts[1..], id);
      if rest.Some? then rest
      else if acts[0].Write? && acts[0].id == id then Some(acts[0].message)
      else if acts[0].Reconcile? && acts[0].id == id then Some("worker lost (reconciled)")
      else None
  }

  // ---- One step ----

  /** What one step makes of a row that is there before and after. */
  lemma StepOnRow(s: System, a: Action, id: TaskID)
    requires Enabled(s, a) && id in s.tasks && id in Step(s, a).tasks
    ensures var t, was := Step(s, a).tasks[id], s.tasks[id];
            && t.createdAt == was.createdAt && t.maxAttempts == was.maxAttempts
            && t.result == (if a.Write? && a.id == id && a.result.Some? then a.result else was.result)
            && t.startedAt == (if a.Begin? && a.id == id && was.startedAt.None? then Some(a.now) else was.startedAt)
  {
    if !Global(a) && a.id != id {
      OthersUnchanged(s, a, id);
    }
  }

  /** A row comes into being by being enqueued, empty. */
  lemma StepMakesRow(s: System, a: Action, id: TaskID)
    requires Enabled(s, a) && id !in s.tasks && id in Step(s, a).tasks
    ensures a.Enqueue? && a.id == id
    ensures var t := Step(s, a).tasks[id];
            && t.createdAt == a.now && t.maxAttempts == (if a.maxAttempts < 1 then 1 else a.maxAttempts)
            && t.result.None? && t.startedAt.None? && t.error == "" && t.status.Queued?
  {
    if !Global(a) && a.id != id {
      OthersUnchanged(s, a, id);
    }
  }

  // ---- Any run ----

  lemma {:induction false} RowFrom(s: System, acts: seq<Action>, id: TaskID)
    requires Sound(s) && Runs(s, acts) && id in s.tasks && id in After(s, acts).tasks
    ensures var t, was := After(s, acts).tasks[id], s.tasks[id];
            && t.createdAt == was.createdAt && t.maxAttempts == was.maxAttempts
            && t.result == (if LastResult(acts, id).Some? then LastResult(acts, id) else was.result)
            && t.startedAt == (if was.startedAt.Some? then was.startedAt else FirstBegin(acts, id))
    decreases |acts|
  {
    if acts != [] {
      RowWasThere(s, acts, id);
      StepOnRow(s, acts[0], id);
      StepKeepsSound(s, acts[0]);
      RowFrom(Step(s, acts[0]), acts[1..], id);
    }
  }

  lemma {:induction false} RowFromNothing(s: System, acts: seq<Action>, id: TaskID)
    requires Sound(s) && Runs(s, acts) && id !in s.tasks && id !in s.jobs && id in After(s, acts).tasks
    ensures Enqueued(acts, id).Some?
    ensures var t, made := After(s, acts).tasks[id], Enqueued(acts, id).value;
            && t.createdAt == made.1 && t.maxAttempts == (if made.0 < 1 then 1 else made.0)
            && t.result == LastResult(acts, id) && t.startedAt == FirstBegin(acts, id)
    decreases |acts|
  {
    var s' := Step(s, acts[0]);
    StepKeepsSound(s, acts[0]);
    NotYet(s, acts[0], id);
    if id in s'.tasks {
      StepMakesRow(s, acts[0], id);
      RowFrom(s', acts[1..], id);
    } else {
      assert acts[0].Enqueue? ==> acts[0].id != id;
      RowFromNothing(s', acts[1..], id);
    }
  }

  /** Before it is enqueued a task has no row, no job, and nothing that is done for it. */
  lemma NotYet(s: System, a: Action, id: TaskID)
    requires Enabled(s, a) && id !in s.tasks && id !in s.jobs
    ensures (a.Enqueue? && a.id == id) <==> id in Step(s, a).tasks
    ensures (a.Enqueue? && a.id == id) <==> id in Step(s, a).jobs
    ensures !((a.Write? || a.Begin?) && a.id == id)
  {
    if !Global(a) && a.id != id {
      OthersUnchanged(s, a, id);
    }
  }

  /**
    In every state any run reaches: a row was created when the task was enqueued, with at least one attempt; its result
    is that of its last terminal write that carried one; it started when a worker first marked it running.
   */
  lemma RowTellsTheRun(acts: seq<Action>, id: TaskID)
    requires Runs(EMPTY, acts) && id in After(EMPTY, acts).tasks
    ensures Enqueued(acts, id).Some?
    ensures var t, made := After(EMPTY, acts).tasks[id], Enqueued(acts, id).value;
            && t.createdAt == made.1 && t.maxAttempts == (if made.0 < 1 then 1 else made.0)
            && t.result == LastResult(acts, id) && t.startedAt == FirstBegin(acts, id)
  {
    RowFromNothing(EMPTY, acts, id);
  }

  // ---- Errors ----

  /** A completed row has no error and a cancelled one the fixed text. */
  ghost predicate ErrorFits(t: Task) {
    && (t.status.Completed? ==> t.error == "")
    && (t.status.Cancelled? ==> t.error == "cancelled by request")
  }

  lemma StepKeepsErrorFits(s: System, a: Action, id: TaskID)
    requires Enabled(s, a) && (id in s.tasks ==> ErrorFits(s.tasks[id])) && id in Step(s, a).tasks
    ensures ErrorFits(Step(s, a).tasks[id])
  {
    if !Global(a) && a.id != id {
      OthersUnchanged(s, a, id);
    }
  }

  lemma {:induction false} ErrorFitsFrom(s: System, acts: seq<Action>, id: TaskID)
    requires Runs(s, acts) && (id in s.tasks ==> ErrorFits(s.tasks[id])) && id in After(s, acts).tasks
    ensures ErrorFits(After(s, acts).tasks[id])
    decreases |acts|
  {
    if acts != [] {
      if id in Step(s, acts[0]).tasks {
        StepKeepsErrorFits(s, acts[0], id);
      }
      ErrorFitsFrom(Step(s, acts[0]), acts[1..], id);
    }
  }

  predicate Failing(s: Status) {
    s.Failed? || s.Retrying?
  }

  /** A step that leaves a row failed or retrying either wrote its message or found it so and left the error. */
  lemma StepOnError(s: System, a: Action, id: TaskID)
    requires Enabled(s, a) && id in Step(s, a).tasks && Failing(Step(s, a).tasks[id].status)
    ensures var t := Step(s, a).tasks[id];
            if a.Write? && a.id == id then t.error == a.message
            else if a.Reconcile? && a.id == id then t.error == "worker lost (reconciled)"
            else id in s.tasks && Failing(s.tasks[id].status) && t.error == s.tasks[id].error
  {
    if !Global(a) && a.id != id {
      OthersUnchanged(s, a, id);
    }
  }

  lemma {:induction false} MessageFrom(s: System, acts: seq<Action>, id: TaskID)
    requires Runs(s, acts) && id in After(s, acts).tasks && Failing(After(s, acts).tasks[id].status)
    ensures var t := After(s, acts).tasks[id];
            match LastMessage(acts, id)
            case Some(message) => t.error == message
            case None => id in s.tasks && Failing(s.tasks[id].status) && t.error == s.tasks[id].error
    decreases |acts|
  {
    if acts != [] {
      var s' := Step(s, acts[0]);
      MessageFrom(s', acts[1..], id);
      if LastMessage(acts[1..], id).None? {
        StepOnError(s, acts[0], id);
      }
    }
  }

  /**
    In every state any run reaches: a completed row has no error, a cancelled one says so, and a failed or retrying one
    has the message of the last terminal write, a worker's or a sweep's.
   */
  lemma ErrorTellsTheRun(acts: seq<Action>, id: TaskID)
    requires Runs(EMPTY, acts) && id in After(EMPTY, acts).tasks
    ensures var t := After(EMPTY, acts).tasks[id];
            && (t.status.Completed? ==> t.error == "")
            && (t.status.Cancelled? ==> t.error == "cancelled by request")
            && (t.status.Failed? || t.status.Retrying? ==> Some(t.error) == LastMessage(acts, id))
  {
    ErrorFitsFrom(EMPTY, acts, id);
    if Failing(After(EMPTY, acts).tasks[id].status) {
      MessageFrom(EMPTY, acts, id);
    }
  }
}
