/**
  The life of tasks under every interleaving of workers, cancel requests, reconciler sweeps and prunes
  (internal/jobs/run.go, store.go, service.go), with River as the environment.

  Assumed of River: it runs one attempt of a job at a time and starts only jobs that are live and have attempts left.
  A worker may die at any point of an attempt, also after its terminal write. A sweep lists the stuck rows first and
  comes to each of them later; then its look at the job and its write are one step, and the write checks no status.
 */
module TaskProtocol {
  import opened Wrappers
  import opened TaskStore

  // ---- State ----

  datatype JobState = Available | Retryable | Executing | JobCompleted | JobCancelled | Discarded

  predicate Live(s: JobState) {
    s.Available? || s.Retryable? || s.Executing?
  }

  /** How far the current attempt has come. */
  datatype Phase = Idle | Starting | Working | Concluding(status: Status) | Written(status: Status)

  datatype Job = Job(state: JobState, attempt: nat, maxAttempts: nat, cancelRequested: bool, phase: Phase)

  /** Rows, River's jobs, and the rows the current sweep has listed and not come to yet. */
  datatype System = System(tasks: Tasks, jobs: map<TaskID, Job>, listed: set<TaskID>)

  const EMPTY := System(map[], map[], {})

  // ---- Steps ----

  datatype Action =
    | Enqueue(id: TaskID, maxAttempts: int, now: Time)
    | Start(id: TaskID)                                             // River hands the job to a worker
    | Begin(id: TaskID, now: Time)                                  // MarkRunning
    | Finish(id: TaskID, failed: bool)                              // the body returns; the switch reads the row
    | Write(id: TaskID, message: string, result: Option<string>, now: Time)  // MarkTerminal
    | Settle(id: TaskID)                                            // River takes the worker's return
    | Crash(id: TaskID)                                             // the worker dies and River finds out
    | RequestCancel(id: TaskID, now: Time)
    | CancelJob(id: TaskID)                                         // River's own cancellation
    | ListStuck(cutoff: Time)                                       // a sweep begins
    | Reconcile(id: TaskID, now: Time)                              // it comes to a listed row
    | Prune(before: Time)

  /** Actions on the whole table. */
  predicate Global(a: Action) {
    a.ListStuck? || a.Prune?
  }

  function SetPhase(j: Job, phase: Phase): Job {
    Job(j.state, j.attempt, j.maxAttempts, j.cancelRequested, phase)
  }

  function SetState(j: Job, state: JobState): Job {
    Job(state, j.attempt, j.maxAttempts, j.cancelRequested, Idle)
  }

  /** River's bookkeeping after a failed or lost attempt. */
  function AfterError(j: Job): JobState {
    if j.cancelRequested then JobCancelled else if j.attempt < j.maxAttempts then Retryable else Discarded
  }

  function AfterReturn(j: Job, status: Status): JobState {
    if status.Completed? then JobCompleted else if status.Cancelled? then JobCancelled else AfterError(j)
  }

  predicate Enabled(s: System, a: Action) {
    match a
    case Enqueue(id, _, _) => id !in s.tasks && id !in s.jobs
    case Start(id) =>
      && id in s.jobs
      && (s.jobs[id].state.Available? || s.jobs[id].state.Retryable?)
      && s.jobs[id].attempt < s.jobs[id].maxAttempts
    case Begin(id, _) => id in s.jobs && s.jobs[id].phase.Starting?
    case Finish(id, _) => id in s.jobs && s.jobs[id].phase.Working?
    case Write(id, _, _, _) => id in s.jobs && s.jobs[id].phase.Concluding?
    case Settle(id) => id in s.jobs && s.jobs[id].phase.Written?
    case Crash(id) => id in s.jobs && !s.jobs[id].phase.Idle?
    case RequestCancel(_, _) => true
    case CancelJob(id) => id in s.jobs
    case ListStuck(_) => true
    case Reconcile(id, _) => id in s.listed && (id in s.jobs ==> !Live(s.jobs[id].state))
    case Prune(_) => true
  }

  function Step(s: System, a: Action): System
    requires Enabled(s, a)
  {
    match a
    case Enqueue(id, maxAttempts, now) =>
      var t := NewTask(maxAttempts, now);
      System(s.tasks[id := t], s.jobs[id := Job(Available, 0, t.maxAttempts, false, Idle)], s.listed)
    case Start(id) =>
      var j := s.jobs[id];
      System(s.tasks, s.jobs[id := Job(Executing, j.attempt + 1, j.maxAttempts, j.cancelRequested, Starting)], s.listed)
    case Begin(id, now) =>
      System(AfterRunning(s.tasks, id, s.jobs[id].attempt, now), s.jobs[id := SetPhase(s.jobs[id], Working)], s.listed)
    case Finish(id, failed) =>
      var j := s.jobs[id];
      var status := Verdict(s.tasks, id, j.attempt, j.maxAttempts, failed);
      System(s.tasks, s.jobs[id := SetPhase(j, Concluding(status))], s.listed)
    case Write(id, message, result, now) =>
      var status := s.jobs[id].phase.status;
      System(AfterTerminal(s.tasks, id, status, VerdictError(status, message), result, now),
             s.jobs[id := SetPhase(s.jobs[id], Written(status))], s.listed)
    case Settle(id) =>
      System(s.tasks, s.jobs[id := SetState(s.jobs[id], AfterReturn(s.jobs[id], s.jobs[id].phase.status))], s.listed)
    case Crash(id) =>
      System(s.tasks, s.jobs[id := SetState(s.jobs[id], AfterError(s.jobs[id]))], s.listed)
    case RequestCancel(id, now) =>
      System(AfterCancel(s.tasks, id, now), s.jobs, s.listed)
    case CancelJob(id) =>
      var j := s.jobs[id];
      System(s.tasks, s.jobs[id := if j.state.Available? || j.state.Retryable? then SetState(j, JobCancelled)
                                   else Job(j.state, j.attempt, j.maxAttempts, true, j.phase)], s.listed)
    case ListStuck(cutoff) =>
      System(s.tasks, s.jobs, StuckOnes(s.tasks, cutoff))
    case Reconcile(id, now) =>
      System(AfterTerminal(s.tasks, id, Failed, "worker lost (reconciled)", None, now), s.jobs, s.listed - {id})
    case Prune(before) =>
      System(Cleared(s.tasks, before), s.jobs, s.listed)
  }

  /** A run: each action enabled where it is taken. */
  predicate Runs(s: System, acts: seq<Action>)
    decreases |acts|
  {
    acts == [] || (Enabled(s, acts[0]) && Runs(Step(s, acts[0]), acts[1..]))
  }

  function After(s: System, acts: seq<Action>): System
    requires Runs(s, acts)
    decreases |acts|
  {
    if acts == [] then s else After(Step(s, acts[0]), acts[1..])
  }

  lemma {:induction false} RunOn(s: System, first: seq<Action>, more: seq<Action>)
    requires Runs(s, first) && Runs(After(s, first), more)
    ensures Runs(s, first + more) && After(s, first + more) == After(After(s, first), more)
    decreases |first|
  {
    if first == [] {
      assert first + more == more;
    } else {
      RunOn(Step(s, first[0]), first[1..], more);
      assert (first + more)[0] == first[0] && (first + more)[1..] == first[1..] + more;
    }
  }

  lemma RunOfOne(s: System, a: Action)
    requires Enabled(s, a)
    ensures Runs(s, [a]) && After(s, [a]) == Step(s, a)
  {
    assert [a][1..] == [];
  }

  lemma RunOfTwo(s: System, a: Action, b: Action)
    requires Enabled(s, a) && Enabled(Step(s, a), b)
    ensures Runs(s, [a, b]) && After(s, [a, b]) == Step(Step(s, a), b)
  {
    RunOfOne(s, a);
    RunOfOne(Step(s, a), b);
    RunOn(s, [a], [b]);
    assert [a] + [b] == [a, b];
  }

  // ---- The invariant ----

  ghost predicate JobSound(j: Job) {
    && (j.phase.Idle? <==> !j.state.Executing?)
    && j.attempt <= j.maxAttempts
    && (j.state.Available? || j.state.Retryable? ==> j.attempt < j.maxAttempts)
    && match j.phase
       case Concluding(status) => Outcome(j, status)
       case Written(status) => Outcome(j, status)
       case _ => true
  }

  /** What a worker can be about to write, or have written. */
  ghost predicate Outcome(j: Job, status: Status) {
    && (Final(status) || status.Retrying?)
    && (status.Retrying? ==> j.attempt < j.maxAttempts)
    && (status.Failed? ==> j.attempt == j.maxAttempts)
  }

  ghost predicate RowSound(t: Task, j: Job) {
    && t.maxAttempts == j.maxAttempts
    && t.attempt <= j.attempt
    && (Final(t.status) ==> t.finishedAt.Some?)
    && (t.status.Retrying? ==> t.attempt < t.maxAttempts)
    && (Final(t.status) ==> !j.state.Available? && !j.phase.Working? && !j.phase.Concluding?)
    && (j.phase.Working? || j.phase.Concluding? ==> t.attempt == j.attempt)
    && (j.phase.Written? ==> t.status == j.phase.status || (j.phase.status.Retrying? && t.status.Cancelling?))
  }

  ghost predicate Sound(s: System) {
    && (forall id :: id in s.jobs ==> JobSound(s.jobs[id]))
    && (forall id :: id in s.tasks ==> id in s.jobs && RowSound(s.tasks[id], s.jobs[id]))
  }

  /** Only the acting task's row and job change, except in a prune or a listing. */
  lemma OthersUnchanged(s: System, a: Action, id: TaskID)
    requires Enabled(s, a) && !Global(a) && a.id != id
    ensures var s' := Step(s, a);
            && (id in s'.tasks <==> id in s.tasks) && (id in s.tasks ==> s'.tasks[id] == s.tasks[id])
            && (id in s'.jobs <==> id in s.jobs) && (id in s.jobs ==> s'.jobs[id] == s.jobs[id])
            && (id in s'.listed <==> id in s.listed)
  {
  }

  /** Jobs are never forgotten, and a row comes back only for a task that never had a job. */
  lemma JobsStay(s: System, a: Action, id: TaskID)
    requires Enabled(s, a) && id in s.jobs
    ensures id in Step(s, a).jobs
    ensures id !in s.tasks ==> id !in Step(s, a).tasks
  {
  }

  lemma ActorStaysSound(s: System, a: Action)
    requires Sound(s) && Enabled(s, a) && !Global(a)
    ensures var s' := Step(s, a);
            && (a.id in s'.jobs ==> JobSound(s'.jobs[a.id]))
            && (a.id in s'.tasks ==> a.id in s'.jobs && RowSound(s'.tasks[a.id], s'.jobs[a.id]))
  {
    if a.id in s.jobs {
      assert JobSound(s.jobs[a.id]);
    }
    if a.id in s.tasks {
      assert RowSound(s.tasks[a.id], s.jobs[a.id]);
    }
  }

  lemma StepKeepsSound(s: System, a: Action)
    requires Sound(s) && Enabled(s, a)
    ensures Sound(Step(s, a))
  {
    var s' := Step(s, a);
    if !Global(a) {
      ActorStaysSound(s, a);
      forall id | id != a.id
        ensures id in s'.jobs ==> JobSound(s'.jobs[id])
        ensures id in s'.tasks ==> id in s'.jobs && RowSound(s'.tasks[id], s'.jobs[id])
      {
        OthersUnchanged(s, a, id);
      }
    }
  }

  lemma {:induction false} RunsKeepSound(s: System, acts: seq<Action>)
    requires Sound(s) && Runs(s, acts)
    ensures Sound(After(s, acts))
    decreases |acts|
  {
    if acts != [] {
      StepKeepsSound(s, acts[0]);
      RunsKeepSound(Step(s, acts[0]), acts[1..]);
    }
  }

  // ---- Finish times ----

  /** Somewhere along the run a worker takes up a task whose row is finished. */
  ghost predicate Reopened(s: System, acts: seq<Action>, id: TaskID)
    requires Runs(s, acts)
    decreases |acts|
  {
    && acts != []
    && ((acts[0].Begin? && acts[0].id == id && id in s.tasks && Final(s.tasks[id].status))
        || Reopened(Step(s, acts[0]), acts[1..], id))
  }

  ghost predicate Stamped(s: System, id: TaskID) {
    id in s.tasks && s.tasks[id].finishedAt.Some?
  }

  lemma StepKeepsStamp(s: System, a: Action, id: TaskID)
    requires Sound(s) && Enabled(s, a) && id in Step(s, a).tasks
    ensures Stamped(s, id) ==> Stamped(Step(s, a), id)
    ensures Stamped(Step(s, a), id) && !Final(Step(s, a).tasks[id].status) ==>
              Stamped(s, id) && (!Final(s.tasks[id].status) || (a.Begin? && a.id == id))
  {
    if id in s.tasks {
      assert RowSound(s.tasks[id], s.jobs[id]);
    }
    if !Global(a) && a.id != id {
      OthersUnchanged(s, a, id);
    }
  }

  lemma {:induction false} StampedFrom(s: System, acts: seq<Action>, id: TaskID)
    requires Sound(s) && Runs(s, acts) && id in After(s, acts).tasks
    ensures Stamped(s, id) || Reopened(s, acts, id) ==> Stamped(After(s, acts), id)
    ensures Stamped(After(s, acts), id) && !Final(After(s, acts).tasks[id].status) ==>
              Reopened(s, acts, id) || (Stamped(s, id) && !Final(s.tasks[id].status))
    decreases |acts|
  {
    if acts != [] {
      var s' := Step(s, acts[0]);
      StepKeepsSound(s, acts[0]);
      StampedFrom(s', acts[1..], id);
      if id in s.tasks {
        RowWasThere(s, acts, id);
      }
      if id in s'.tasks {
        StepKeepsStamp(s, acts[0], id);
      }
    }
  }

  lemma {:induction false} GoneForever(s: System, acts: seq<Action>, id: TaskID)
    requires Runs(s, acts) && id in s.jobs && id !in s.tasks
    ensures id !in After(s, acts).tasks
    decreases |acts|
  {
    if acts != [] {
      JobsStay(s, acts[0], id);
      GoneForever(Step(s, acts[0]), acts[1..], id);
    }
  }

  /** A row that is there at the end, of a task that has a job, was there all along. */
  lemma RowWasThere(s: System, acts: seq<Action>, id: TaskID)
    requires Sound(s) && Runs(s, acts) && acts != [] && id in After(s, acts).tasks && id in s.tasks
    ensures id in Step(s, acts[0]).tasks
  {
    JobsStay(s, acts[0], id);
    if id !in Step(s, acts[0]).tasks {
      GoneForever(Step(s, acts[0]), acts[1..], id);
    }
  }

  /**
    In every reachable state: a task has a finish time exactly when it is finished or was once taken up again after
    it had finished; it is retrying only with attempts left; attempts stay within the maximum.
   */
  lemma EveryRunIsSound(acts: seq<Action>, id: TaskID)
    requires Runs(EMPTY, acts) && id in After(EMPTY, acts).tasks
    ensures var t := After(EMPTY, acts).tasks[id];
            && (t.finishedAt.Some? <==> Final(t.status) || Reopened(EMPTY, acts, id))
            && (t.status.Retrying? ==> t.attempt < t.maxAttempts)
            && t.attempt <= t.maxAttempts
  {
    RunsKeepSound(EMPTY, acts);
    StampedFrom(EMPTY, acts, id);
  }

  // ---- When finished is for ever ----

  /** The worker dies after it wrote its outcome, and River would run the job again. */
  predicate LateCrash(s: System, a: Action, id: TaskID) {
    && a == Crash(id) && id in s.jobs && s.jobs[id].phase.Written?
    && s.jobs[id].attempt < s.jobs[id].maxAttempts && !s.jobs[id].cancelRequested
  }

  ghost predicate LosesReturn(s: System, acts: seq<Action>, id: TaskID)
    requires Runs(s, acts)
    decreases |acts|
  {
    acts != [] && (LateCrash(s, acts[0], id) || LosesReturn(Step(s, acts[0]), acts[1..], id))
  }

  /** A finished row is its worker's last word, or its job is over. */
  ghost predicate Tight(s: System, id: TaskID) {
    id in s.tasks && Final(s.tasks[id].status) ==>
      id in s.jobs && (!Live(s.jobs[id].state) || s.jobs[id].phase.Written?)
  }

  lemma StepKeepsTight(s: System, a: Action, id: TaskID)
    requires Sound(s) && Enabled(s, a) && Tight(s, id) && !LateCrash(s, a, id)
    ensures Tight(Step(s, a), id)
  {
    if id in s.tasks {
      assert RowSound(s.tasks[id], s.jobs[id]) && JobSound(s.jobs[id]);
    }
    if !Global(a) && a.id != id {
      OthersUnchanged(s, a, id);
    }
  }

  lemma {:induction false} ReopenedFrom(s: System, acts: seq<Action>, id: TaskID)
    requires Sound(s) && Runs(s, acts) && Tight(s, id) && Reopened(s, acts, id)
    ensures LosesReturn(s, acts, id)
    decreases |acts|
  {
    if id in s.tasks {
      assert JobSound(s.jobs[id]);
    }
    if !LateCrash(s, acts[0], id) {
      StepKeepsSound(s, acts[0]);
      StepKeepsTight(s, acts[0], id);
      ReopenedFrom(Step(s, acts[0]), acts[1..], id);
    }
  }

  /** No finished task is ever taken up again in a run that loses no worker after its terminal write. */
  lemma ReopeningNeedsALateCrash(acts: seq<Action>, id: TaskID)
    requires Runs(EMPTY, acts) && Reopened(EMPTY, acts, id)
    ensures LosesReturn(EMPTY, acts, id)
  {
    ReopenedFrom(EMPTY, acts, id);
  }

  /** Whatever comes, the row stays as it is until it is pruned. */
  ghost predicate Stays(s: System, id: TaskID)
    requires id in s.tasks
  {
    forall acts :: Runs(s, acts) && id in After(s, acts).tasks ==> After(s, acts).tasks[id] == s.tasks[id]
  }

  /** The job can come to run again although the row is finished. */
  predicate Exposed(j: Job) {
    Live(j.state) && (j.phase.Written? ==> j.attempt < j.maxAttempts && !j.cancelRequested)
  }

  ghost predicate Fixed(s: System, id: TaskID, t: Task) {
    && id in s.jobs
    && (id in s.tasks ==> s.tasks[id] == t && Final(t.status) && id !in s.listed && !Exposed(s.jobs[id]))
  }

  lemma StepKeepsFixed(s: System, a: Action, id: TaskID, t: Task)
    requires Sound(s) && Enabled(s, a) && Fixed(s, id, t)
    ensures Fixed(Step(s, a), id, t)
  {
    JobsStay(s, a, id);
    if id in s.tasks {
      assert RowSound(s.tasks[id], s.jobs[id]) && JobSound(s.jobs[id]);
    }
    if !Global(a) && a.id != id {
      OthersUnchanged(s, a, id);
    }
  }

  lemma {:induction false} FixedForever(s: System, acts: seq<Action>, id: TaskID, t: Task)
    requires Sound(s) && Runs(s, acts) && Fixed(s, id, t)
    ensures Fixed(After(s, acts), id, t)
    decreases |acts|
  {
    if acts != [] {
      StepKeepsSound(s, acts[0]);
      StepKeepsFixed(s, acts[0], id, t);
      FixedForever(Step(s, acts[0]), acts[1..], id, t);
    }
  }

  /** A job that can start has a run in which its worker marks the row running. */
  lemma TakenUp(s: System, id: TaskID) returns (acts: seq<Action>)
    requires Sound(s) && id in s.tasks && id in s.jobs
    requires s.jobs[id].state.Available? || s.jobs[id].state.Retryable? || s.jobs[id].phase.Starting?
    ensures Runs(s, acts) && id in After(s, acts).tasks && After(s, acts).tasks[id].status.Running?
  {
    assert JobSound(s.jobs[id]);
    if s.jobs[id].phase.Starting? {
      acts := [Begin(id, 0)];
      RunOfOne(s, Begin(id, 0));
    } else {
      acts := [Start(id), Begin(id, 0)];
      RunOfTwo(s, Start(id), Begin(id, 0));
    }
  }

  /** So has a job whose worker dies, if River would run it again. */
  lemma CrashedAndTakenUp(s: System, id: TaskID) returns (acts: seq<Action>)
    requires Sound(s) && id in s.tasks && id in s.jobs && !s.jobs[id].phase.Idle?
    requires s.jobs[id].attempt < s.jobs[id].maxAttempts && !s.jobs[id].cancelRequested
    ensures Runs(s, acts) && id in After(s, acts).tasks && After(s, acts).tasks[id].status.Running?
  {
    StepKeepsSound(s, Crash(id));
    var more := TakenUp(Step(s, Crash(id)), id);
    RunOfOne(s, Crash(id));
    RunOn(s, [Crash(id)], more);
    acts := [Crash(id)] + more;
  }

  /** A listed row whose worker has written is failed over once River has settled the job. */
  lemma FailedOver(s: System, id: TaskID, now: Time) returns (acts: seq<Action>)
    requires Sound(s) && id in s.tasks && id in s.listed && Final(s.tasks[id].status)
    requires !Live(s.jobs[id].state) || s.jobs[id].phase.Written?
    ensures Runs(s, acts) && id in After(s, acts).tasks
    ensures var t := After(s, acts).tasks[id]; t.status.Failed? && t.finishedAt == Some(now)
  {
    assert RowSound(s.tasks[id], s.jobs[id]) && JobSound(s.jobs[id]);
    if Live(s.jobs[id].state) {
      acts := [Settle(id), Reconcile(id, now)];
      RunOfTwo(s, Settle(id), Reconcile(id, now));
    } else {
      acts := [Reconcile(id, now)];
      RunOfOne(s, Reconcile(id, now));
    }
  }

  /**
    A finished row stays as it is in every continuation, until it is pruned, if and only if no sweep has it listed
    and its job cannot come to run again: what is written is settled, or has no attempts left, or is cancelled in River.
   */
  lemma FinishedForever(s: System, id: TaskID)
    requires Sound(s) && id in s.tasks && Final(s.tasks[id].status)
    ensures Stays(s, id) <==> id !in s.listed && !Exposed(s.jobs[id])
  {
    var t, j := s.tasks[id], s.jobs[id];
    assert RowSound(t, j) && JobSound(j);
    if Exposed(j) {
      var acts;
      if j.phase.Written? {
        acts := CrashedAndTakenUp(s, id);
      } else {
        acts := TakenUp(s, id);
      }
      assert Runs(s, acts);
    } else if id in s.listed {
      var acts := FailedOver(s, id, t.finishedAt.value + 1);
      assert Runs(s, acts);
    } else {
      forall acts | Runs(s, acts) && id in After(s, acts).tasks
        ensures After(s, acts).tasks[id] == t
      {
        FixedForever(s, acts, id, t);
      }
    }
  }

  /** A completed task runs again: the worker dies between its terminal write and River's settling of the job. */
  lemma RestartAfterWriteReopens(id: TaskID, now: Time) returns (first: seq<Action>, more: seq<Action>)
    ensures Runs(EMPTY, first) && id in After(EMPTY, first).tasks && After(EMPTY, first).tasks[id].status.Completed?
    ensures Runs(After(EMPTY, first), more) && id in After(After(EMPTY, first), more).tasks
    ensures var t := After(After(EMPTY, first), more).tasks[id]; t.status.Running? && t.finishedAt.Some?
  {
    var s1 := Step(EMPTY, Enqueue(id, 2, now));
    RunOfTwo(EMPTY, Enqueue(id, 2, now), Start(id));
    var s2 := Step(s1, Start(id));
    var three := RunToWrite(s2, id, now);
    first := [Enqueue(id, 2, now), Start(id)] + three;
    RunOn(EMPTY, [Enqueue(id, 2, now), Start(id)], three);
    RunsKeepSound(EMPTY, first);
    more := CrashedAndTakenUp(After(EMPTY, first), id);
    StampedFrom(After(EMPTY, first), more, id);
  }

  /** A worker that starts can complete. */
  lemma RunToWrite(s: System, id: TaskID, now: Time) returns (acts: seq<Action>)
    requires id in s.tasks && id in s.jobs && s.jobs[id].phase.Starting?
    ensures Runs(s, acts)
    ensures var e := After(s, acts);
            && id in e.tasks && e.tasks[id].status.Completed? && e.tasks[id].finishedAt.Some?
            && id in e.jobs && e.jobs[id] == SetPhase(s.jobs[id], Written(Completed))
            && e.listed == s.listed
  {
    RunOfOne(s, Begin(id, now));
    var more := WorkToWrite(Step(s, Begin(id, now)), id, now);
    acts := [Begin(id, now)] + more;
    RunOn(s, [Begin(id, now)], more);
  }

  lemma WorkToWrite(s: System, id: TaskID, now: Time) returns (acts: seq<Action>)
    requires id in s.tasks && id in s.jobs && s.jobs[id].phase.Working?
    ensures Runs(s, acts)
    ensures var e := After(s, acts);
            && id in e.tasks && e.tasks[id].status.Completed? && e.tasks[id].finishedAt.Some?
            && id in e.jobs && e.jobs[id] == SetPhase(s.jobs[id], Written(Completed))
            && e.listed == s.listed
  {
    acts := [Finish(id, false), Write(id, "", None, now)];
    RunOfTwo(s, Finish(id, false), Write(id, "", None, now));
  }

  /**
    From any state in which a worker is at a task: a sweep lists the row, the worker completes and is settled, and the
    sweep, which now finds the job over, fails the completed task.
   */
  lemma StaleSweepOverwrites(s: System, id: TaskID, now: Time) returns (first: seq<Action>, more: seq<Action>)
    requires Sound(s) && id in s.tasks && s.jobs[id].phase.Working?
    ensures Runs(s, first) && id in After(s, first).tasks && After(s, first).tasks[id].status.Completed?
    ensures Runs(After(s, first), more) && id in After(After(s, first), more).tasks
    ensures After(After(s, first), more).tasks[id].status.Failed?
  {
    assert RowSound(s.tasks[id], s.jobs[id]) && JobSound(s.jobs[id]);
    var list := ListStuck(s.tasks[id].updatedAt + 1);
    RunOfOne(s, list);
    var rest := WorkToWrite(Step(s, list), id, now);
    first := [list] + rest;
    RunOn(s, [list], rest);
    RunsKeepSound(s, first);
    more := FailedOver(After(s, first), id, now);
  }

  /** Somewhere along the run a prune finds the task finished and old enough. */
  ghost predicate PrunedOnTheWay(s: System, acts: seq<Action>, id: TaskID)
    requires Runs(s, acts)
    decreases |acts|
  {
    && acts != [] && id in s.tasks
    && if acts[0].Prune? && Final(s.tasks[id].status) && s.tasks[id].createdAt < acts[0].before then true
       else PrunedOnTheWay(Step(s, acts[0]), acts[1..], id)
  }

  lemma StepDeletes(s: System, a: Action, id: TaskID)
    requires Enabled(s, a) && id in s.tasks
    ensures id !in Step(s, a).tasks <==> a.Prune? && Final(s.tasks[id].status) && s.tasks[id].createdAt < a.before
  {
  }

  /** Over any run a task disappears if and only if a prune met it finished and old on the way. */
  lemma {:induction false} DeletedOnlyFinished(s: System, acts: seq<Action>, id: TaskID)
    requires Runs(s, acts) && id in s.tasks && id in s.jobs
    ensures id !in After(s, acts).tasks <==> PrunedOnTheWay(s, acts, id)
    decreases |acts|
  {
    if acts != [] {
      StepDeletes(s, acts[0], id);
      JobsStay(s, acts[0], id);
      if id in Step(s, acts[0]).tasks {
        DeletedOnlyFinished(Step(s, acts[0]), acts[1..], id);
      } else {
        GoneForever(Step(s, acts[0]), acts[1..], id);
      }
    }
  }

  // ---- Progress ----

  function Rank(p: Phase): nat {
    match p
    case Starting => 4
    case Working => 3
    case Concluding(_) => 2
    case Written(_) => 1
    case Idle => 0
  }

  /** The step that brings an unfinished task with a live job nearer to its end. */
  lemma Onward(s: System, id: TaskID) returns (a: Action)
    requires Sound(s) && id in s.tasks && !Final(s.tasks[id].status) && Live(s.jobs[id].state)
    ensures WorkerStep(a, id) && Enabled(s, a) && id in Step(s, a).tasks && id in Step(s, a).jobs
    ensures var j, j' := s.jobs[id], Step(s, a).jobs[id];
            && j'.maxAttempts == j.maxAttempts
            && (j.attempt < j'.attempt || (j.attempt == j'.attempt && Rank(j'.phase) < Rank(j.phase)))
  {
    assert JobSound(s.jobs[id]);
    match s.jobs[id].phase
    case Starting => a := Begin(id, 0);
    case Working => a := Finish(id, false);
    case Concluding(_) => a := Write(id, "", None, 0);
    case Written(_) => a := Settle(id);
    case Idle => a := Start(id);
  }

  /** From every sound state every task has a run that finishes it: none is ever stranded. */
  lemma {:induction false} NeverStranded(s: System, id: TaskID) returns (acts: seq<Action>)
    requires Sound(s) && id in s.tasks
    ensures Runs(s, acts) && id in After(s, acts).tasks && Final(After(s, acts).tasks[id].status)
    decreases s.jobs[id].maxAttempts - s.jobs[id].attempt, Rank(s.jobs[id].phase)
  {
    if Final(s.tasks[id].status) {
      acts := [];
    } else if !Live(s.jobs[id].state) {
      var list := ListStuck(s.tasks[id].updatedAt + 1);
      acts := [list, Reconcile(id, 0)];
      RunOfTwo(s, list, Reconcile(id, 0));
    } else {
      var a := Onward(s, id);
      StepKeepsSound(s, a);
      assert JobSound(Step(s, a).jobs[id]);
      var more := NeverStranded(Step(s, a), id);
      RunOfOne(s, a);
      RunOn(s, [a], more);
      acts := [a] + more;
    }
  }

  /** The steps of a worker at a task. */
  predicate WorkerStep(a: Action, id: TaskID) {
    (a.Start? || a.Begin? || a.Finish? || a.Write? || a.Settle? || a.Crash?) && a.id == id
  }

  function WorkerSteps(acts: seq<Action>, id: TaskID): nat {
    if acts == [] then 0 else (if WorkerStep(acts[0], id) then 1 else 0) + WorkerSteps(acts[1..], id)
  }

  /** The steps a job's workers have left: five for each attempt. */
  function StepsLeft(j: Job): int {
    5 * (j.maxAttempts - j.attempt) + Rank(j.phase)
  }

  lemma StepUsesUp(s: System, a: Action, id: TaskID)
    requires Sound(s) && Enabled(s, a) && id in s.jobs
    ensures id in Step(s, a).jobs
    ensures StepsLeft(Step(s, a).jobs[id]) + (if WorkerStep(a, id) then 1 else 0) <= StepsLeft(s.jobs[id])
  {
    assert JobSound(s.jobs[id]);
    JobsStay(s, a, id);
    if !Global(a) && a.id != id {
      OthersUnchanged(s, a, id);
    }
  }

  /** However steps interleave, a task's workers take no more steps than it has left. */
  lemma {:induction false} WorkIsBounded(s: System, acts: seq<Action>, id: TaskID)
    requires Sound(s) && Runs(s, acts) && id in s.jobs
    ensures WorkerSteps(acts, id) <= StepsLeft(s.jobs[id])
    ensures id in After(s, acts).jobs
    ensures StepsLeft(After(s, acts).jobs[id]) <= StepsLeft(s.jobs[id]) - WorkerSteps(acts, id)
    decreases |acts|
  {
    assert JobSound(s.jobs[id]);
    if acts != [] {
      StepUsesUp(s, acts[0], id);
      StepKeepsSound(s, acts[0]);
      WorkIsBounded(Step(s, acts[0]), acts[1..], id);
    }
  }

  /** The reconciler has swept a task: it listed the row and came to it. */
  ghost predicate Sweeps(s: System, id: TaskID)
    requires id in s.tasks
  {
    forall cutoff: Time, now: Time :: cutoff > s.tasks[id].updatedAt ==>
      var listed := Step(s, ListStuck(cutoff));
      Enabled(listed, Reconcile(id, now)) && Final(Step(listed, Reconcile(id, now)).tasks[id].status)
  }

  /**
    Progress if workers go on and the reconciler sweeps: any run holds at most five worker steps for each attempt left,
    and where a run has none to take at an unfinished task, any sweep late enough to list the row finishes it.
   */
  lemma EveryRunFinishes(s: System, acts: seq<Action>, id: TaskID)
    requires Sound(s) && Runs(s, acts) && id in s.jobs
    ensures WorkerSteps(acts, id) <= StepsLeft(s.jobs[id])
    ensures var last := After(s, acts);
            && id in last.tasks && !Final(last.tasks[id].status)
            && (forall a :: WorkerStep(a, id) ==> !Enabled(last, a))
            ==> Sweeps(last, id)
  {
    WorkIsBounded(s, acts, id);
    RunsKeepSound(s, acts);
    var last := After(s, acts);
    if id in last.tasks && !Final(last.tasks[id].status) && forall a :: WorkerStep(a, id) ==> !Enabled(last, a) {
      if Live(last.jobs[id].state) {
        var a := Onward(last, id);
        assert false;
      }
    }
  }

  // ---- What cancel requests do by themselves ----

  /** When the first request for a task comes. */
  function FirstRequest(acts: seq<Action>, id: TaskID): Option<Time> {
    if acts == [] then None
    else if acts[0].RequestCancel? && acts[0].id == id then Some(acts[0].now)
    else FirstRequest(acts[1..], id)
  }

  /**
    However many requests come for however many tasks, a row is moved by the first one for it alone, and only if it is
    queued, running or retrying: never a finished one.
   */
  lemma {:induction false} CancelMovesExactly(s: System, acts: seq<Action>, id: TaskID)
    requires Runs(s, acts) && id in s.tasks && forall a :: a in acts ==> a.RequestCancel?
    ensures id in After(s, acts).tasks
    ensures After(s, acts).tasks[id]
         == match FirstRequest(acts, id)
            case None => s.tasks[id]
            case Some(now) => if Cancellable(s.tasks[id].status) then CancellingTask(s.tasks[id], now) else s.tasks[id]
    decreases |acts|
  {
    if acts != [] {
      assert acts[0].RequestCancel?;
      CancelMovesExactly(Step(s, acts[0]), acts[1..], id);
    }
  }

  // ---- When a cancel request holds ----

  /** Whatever comes, the row is never queued, retrying or running again. */
  ghost predicate Holds(s: System, id: TaskID) {
    forall acts :: Runs(s, acts) && id in After(s, acts).tasks ==> !Cancellable(After(s, acts).tasks[id].status)
  }

  /** The job will not run again and its worker, if it has one, will not write that it retries. */
  predicate Secured(j: Job) {
    || !Live(j.state)
    || (&& j.state.Executing? && !j.phase.Starting? && j.phase != Concluding(Retrying)
        && (j.cancelRequested || j.attempt == j.maxAttempts))
  }

  ghost predicate Held(s: System, id: TaskID) {
    && id in s.jobs
    && (id in s.tasks ==> !Cancellable(s.tasks[id].status) && Secured(s.jobs[id]))
  }

  lemma StepKeepsHeld(s: System, a: Action, id: TaskID)
    requires Sound(s) && Enabled(s, a) && Held(s, id)
    ensures Held(Step(s, a), id)
  {
    JobsStay(s, a, id);
    if id in s.tasks {
      assert RowSound(s.tasks[id], s.jobs[id]) && JobSound(s.jobs[id]);
    }
    if !Global(a) && a.id != id {
      OthersUnchanged(s, a, id);
    }
  }

  lemma {:induction false} HeldForever(s: System, acts: seq<Action>, id: TaskID)
    requires Sound(s) && Runs(s, acts) && Held(s, id)
    ensures Held(After(s, acts), id)
    decreases |acts|
  {
    if acts != [] {
      StepKeepsSound(s, acts[0]);
      StepKeepsHeld(s, acts[0], id);
      HeldForever(Step(s, acts[0]), acts[1..], id);
    }
  }

  /** A run that takes the flag off a row whose job is not secured. */
  lemma FlagLost(s: System, id: TaskID) returns (acts: seq<Action>)
    requires Sound(s) && id in s.tasks && s.tasks[id].status.Cancelling? && !Secured(s.jobs[id])
    ensures Runs(s, acts) && id in After(s, acts).tasks && Cancellable(After(s, acts).tasks[id].status)
  {
    var j := s.jobs[id];
    assert RowSound(s.tasks[id], j) && JobSound(j);
    if j.phase == Concluding(Retrying) {
      acts := [Write(id, "", None, 0)];
      RunOfOne(s, Write(id, "", None, 0));
    } else if !j.state.Executing? || j.phase.Starting? {
      acts := TakenUp(s, id);
    } else {
      acts := CrashedAndTakenUp(s, id);
    }
  }

  /** From any state with the flag set, it holds in every continuation if and only if the job is secured. */
  lemma FlagHoldsExactly(s: System, id: TaskID)
    requires Sound(s) && id in s.tasks && s.tasks[id].status.Cancelling?
    ensures Holds(s, id) <==> Secured(s.jobs[id])
  {
    if Secured(s.jobs[id]) {
      forall acts | Runs(s, acts) && id in After(s, acts).tasks
        ensures !Cancellable(After(s, acts).tasks[id].status)
      {
        HeldForever(s, acts, id);
      }
    } else {
      var acts := FlagLost(s, id);
      assert Runs(s, acts);
    }
  }

  /** The request alone, with anything after it: it holds if and only if the job was secured when it came. */
  lemma RequestHoldsExactly(s: System, id: TaskID, now: Time)
    requires Sound(s) && id in s.tasks && Cancellable(s.tasks[id].status)
    ensures Holds(Step(s, RequestCancel(id, now)), id) <==> Secured(s.jobs[id])
  {
    StepKeepsSound(s, RequestCancel(id, now));
    FlagHoldsExactly(Step(s, RequestCancel(id, now)), id);
  }

  /**
    The request and River's cancellation together hold if and only if no worker is about to mark the row running and
    none has already decided to retry.
   */
  lemma CancelHoldsExactly(s: System, id: TaskID, now: Time)
    requires Sound(s) && id in s.tasks && Cancellable(s.tasks[id].status)
    ensures Holds(Step(Step(s, RequestCancel(id, now)), CancelJob(id)), id)
       <==> !s.jobs[id].phase.Starting? && s.jobs[id].phase != Concluding(Retrying)
  {
    var flagged := Step(s, RequestCancel(id, now));
    StepKeepsSound(s, RequestCancel(id, now));
    StepKeepsSound(flagged, CancelJob(id));
    assert JobSound(s.jobs[id]);
    FlagHoldsExactly(Step(flagged, CancelJob(id)), id);
  }

  /** The flag was set before the body returned, and the worker has not died since. */
  ghost predicate Honoured(s: System, id: TaskID, swept: bool) {
    && id in s.jobs
    && (id in s.tasks ==>
          var t, j := s.tasks[id], s.jobs[id];
          match j.phase
          case Working => j.state.Executing? && t.status.Cancelling?
          case Concluding(status) =>
            j.state.Executing? && t.status.Cancelling? && (status.Completed? || status.Cancelled?)
          case Written(status) => j.state.Executing? && t.status == status && (status.Completed? || status.Cancelled?)
          case Starting => false
          case Idle => !Live(j.state) && (t.status.Completed? || t.status.Cancelled? || (swept && t.status.Failed?)))
  }

  lemma StepKeepsHonoured(s: System, a: Action, id: TaskID, swept: bool)
    requires Enabled(s, a) && Honoured(s, id, swept) && a != Crash(id)
    requires a.Reconcile? && a.id == id ==> swept
    ensures Honoured(Step(s, a), id, swept)
  {
    if !Global(a) && a.id != id {
      OthersUnchanged(s, a, id);
    }
  }

  lemma {:induction false} HonouredForever(s: System, acts: seq<Action>, id: TaskID, swept: bool)
    requires Runs(s, acts) && Honoured(s, id, swept) && Crash(id) !in acts
    requires forall a :: a in acts && a.Reconcile? && a.id == id ==> swept
    ensures Honoured(After(s, acts), id, swept)
    decreases |acts|
  {
    if acts != [] {
      StepKeepsHonoured(s, acts[0], id, swept);
      HonouredForever(Step(s, acts[0]), acts[1..], id, swept);
    }
  }

  /**
    A request that comes before the body returns sticks, whenever River's own cancellation comes, if it comes at all:
    unless the worker dies, the task ends cancelled or completed, or failed by a sweep that had it listed.
   */
  lemma CancelIsHonoured(s: System, id: TaskID, now: Time, acts: seq<Action>)
    requires Sound(s) && id in s.tasks && s.jobs[id].phase.Working? && Cancellable(s.tasks[id].status)
    requires Runs(Step(s, RequestCancel(id, now)), acts) && Crash(id) !in acts
    ensures var last := After(Step(s, RequestCancel(id, now)), acts).tasks;
            id in last ==>
              && !Cancellable(last[id].status)
              && (last[id].status.Failed? ==> exists a :: a in acts && a.Reconcile? && a.id == id)
  {
    assert JobSound(s.jobs[id]);
    var swept := exists a :: a in acts && a.Reconcile? && a.id == id;
    HonouredForever(Step(s, RequestCancel(id, now)), acts, id, swept);
  }

  /** What the start of a worker makes of a flagged row. */
  lemma FlagWiped(s: System, id: TaskID, now: Time)
    requires id in s.tasks && id in s.jobs && Cancellable(s.tasks[id].status) && s.jobs[id].state.Available?
    requires s.jobs[id].attempt + 1 < s.jobs[id].maxAttempts
    ensures Enabled(s, RequestCancel(id, now)) && Enabled(Step(s, RequestCancel(id, now)), Start(id))
    ensures var s2 := Step(Step(s, RequestCancel(id, now)), Start(id));
            && Enabled(s2, Begin(id, now)) && Enabled(Step(s2, Begin(id, now)), CancelJob(id))
            && var s4 := Step(Step(s2, Begin(id, now)), CancelJob(id));
            && id in s4.tasks && id in s4.jobs && s4.tasks[id].status.Running?
            && s4.jobs[id] == Job(Executing, s.jobs[id].attempt + 1, s.jobs[id].maxAttempts, true, Working)
  {
  }

  /** What a failed body then records. */
  lemma RetryingRecorded(s: System, id: TaskID, message: string, now: Time)
    requires id in s.tasks && id in s.jobs && s.tasks[id].status.Running? && s.jobs[id].state.Executing?
    requires s.jobs[id].phase.Working? && s.jobs[id].cancelRequested && s.jobs[id].attempt < s.jobs[id].maxAttempts
    ensures Enabled(s, Finish(id, true))
    ensures var s1 := Step(s, Finish(id, true));
            && Enabled(s1, Write(id, message, None, now)) && Enabled(Step(s1, Write(id, message, None, now)),
                                          Settle(id))
            && var s3 := Step(Step(s1, Write(id, message, None, now)), Settle(id));
            && id in s3.tasks && id in s3.jobs && s3.tasks[id].status.Retrying? && s3.jobs[id].state.JobCancelled?
  {
  }

  /**
    Between the request and River's cancellation a worker can start and wipe the flag. The cancelled attempt is then
    recorded as retrying although its job is dead, and only the reconciler ends it.
   */
  lemma CancelCanBeLost(s: System, id: TaskID, message: string, now: Time)
    requires id in s.tasks && id in s.jobs && Cancellable(s.tasks[id].status) && s.jobs[id].state.Available?
    requires s.jobs[id].attempt + 1 < s.jobs[id].maxAttempts
    ensures var acts := [RequestCancel(id, now), Start(id)] + [Begin(id, now), CancelJob(id)]
                        + ([Finish(id, true), Write(id, message, None, now)] + [Settle(id)]);
            && Runs(s, acts)
            && var last := After(s, acts);
            && id in last.tasks && last.tasks[id].status.Retrying?
            && id in last.jobs && last.jobs[id].state.JobCancelled?
  {
    FlagWiped(s, id, now);
    var s2 := Step(Step(s, RequestCancel(id, now)), Start(id));
    var s4 := Step(Step(s2, Begin(id, now)), CancelJob(id));
    RetryingRecorded(s4, id, message, now);
    var s6 := Step(Step(s4, Finish(id, true)), Write(id, message, None, now));
    RunOfTwo(s, RequestCancel(id, now), Start(id));
    RunOfTwo(s2, Begin(id, now), CancelJob(id));
    RunOfTwo(s4, Finish(id, true), Write(id, message, None, now));
    RunOfOne(s6, Settle(id));
    RunOn(s4, [Finish(id, true), Write(id, message, None, now)], [Settle(id)]);
    RunOn(s, [RequestCancel(id, now), Start(id)], [Begin(id, now), CancelJob(id)]);
    RunOn(s, [RequestCancel(id, now), Start(id)] + [Begin(id, now), CancelJob(id)],
          [Finish(id, true), Write(id, message, None, now)] + [Settle(id)]);
  }

  // ---- What cancelling an unstarted task comes to ----

  /** Flagged, no worker at it, and failed only once its job is over. */
  ghost predicate Waiting(s: System, id: TaskID) {
    && id in s.jobs && s.jobs[id].phase.Idle? && !s.jobs[id].state.Executing?
    && (id in s.tasks ==> s.tasks[id].status.Cancelling? || (s.tasks[id].status.Failed? && !Live(s.jobs[id].state)))
  }

  lemma StepKeepsWaiting(s: System, a: Action, id: TaskID)
    requires Enabled(s, a) && Waiting(s, id) && a != Start(id)
    ensures Waiting(Step(s, a), id)
  {
    if !Global(a) && a.id != id {
      OthersUnchanged(s, a, id);
    }
  }

  lemma {:induction false} WaitingStays(s: System, acts: seq<Action>, id: TaskID)
    requires Runs(s, acts) && Waiting(s, id) && (Live(s.jobs[id].state) ==> Start(id) !in acts)
    ensures Waiting(After(s, acts), id)
    decreases |acts|
  {
    if acts != [] {
      StepKeepsWaiting(s, acts[0], id);
      if !Live(s.jobs[id].state) {
        DeadStays(s, acts[0], id);
      }
      WaitingStays(Step(s, acts[0]), acts[1..], id);
    }
  }

  lemma DeadStays(s: System, a: Action, id: TaskID)
    requires Enabled(s, a) && id in s.jobs && s.jobs[id].phase.Idle? && !Live(s.jobs[id].state)
    ensures id in Step(s, a).jobs && !Live(Step(s, a).jobs[id].state)
  {
    if !Global(a) && a.id != id {
      OthersUnchanged(s, a, id);
    }
  }

  /**
    A task cancelled while no worker has it never becomes cancelled if River cancels the job before a worker starts,
    however much comes in between: only a worker writes that status, so the reconciler records it as failed.
   */
  lemma CancelledInQueueEndsFailed(s: System, id: TaskID, now: Time, between: seq<Action>, acts: seq<Action>)
    requires Sound(s) && id in s.tasks && Cancellable(s.tasks[id].status)
    requires s.jobs[id].state.Available? || s.jobs[id].state.Retryable?
    requires Runs(Step(s, RequestCancel(id, now)), between) && Start(id) !in between
    requires var mid := After(Step(s, RequestCancel(id, now)), between);
             Enabled(mid, CancelJob(id)) && Runs(Step(mid, CancelJob(id)), acts)
    ensures var last := After(Step(After(Step(s, RequestCancel(id, now)), between), CancelJob(id)), acts).tasks;
            id in last ==> last[id].status.Cancelling? || last[id].status.Failed?
  {
    var flagged := Step(s, RequestCancel(id, now));
    assert JobSound(s.jobs[id]);
    WaitingStays(flagged, between, id);
    var mid := After(flagged, between);
    StepKeepsWaiting(mid, CancelJob(id), id);
    WaitingStays(Step(mid, CancelJob(id)), acts, id);
  }

  // ---- A sweep of the reconciler is a run of single steps ----

  function LiveIn(s: System): TaskID -> bool {
    (id: TaskID) => id in s.jobs && Live(s.jobs[id].state)
  }

  lemma ReconcileIsSweptOne(s: System, rest: set<TaskID>, id: TaskID, now: Time)
    requires id in s.tasks && id !in rest && Enabled(s, Reconcile(id, now))
    ensures Swept(Step(s, Reconcile(id, now)).tasks, rest, LiveIn(s), now)
        == Swept(s.tasks, rest + {id}, LiveIn(s), now)
  {
  }

  lemma {:induction false} ListedAreSwept(s: System, todo: set<TaskID>, now: Time) returns (acts: seq<Action>)
    requires todo <= s.listed && todo <= s.tasks.Keys
    ensures Runs(s, acts)
    ensures After(s, acts).tasks == Swept(s.tasks, todo, LiveIn(s), now) && After(s, acts).jobs == s.jobs
    decreases |todo|
  {
    if todo == {} {
      acts := [];
      assert s.tasks == Swept(s.tasks, todo, LiveIn(s), now);
    } else {
      var id :| id in todo;
      var rest := todo - {id};
      assert rest + {id} == todo;
      if LiveIn(s)(id) {
        SweptOneMore(s.tasks, rest, id, LiveIn(s), now);
        acts := ListedAreSwept(s, rest, now);
      } else {
        var s' := Step(s, Reconcile(id, now));
        var more := ListedAreSwept(s', rest, now);
        acts := [Reconcile(id, now)] + more;
        assert acts[1..] == more;
        assert LiveIn(s') == LiveIn(s) by {
          assert s'.jobs == s.jobs;
        }
        ReconcileIsSweptOne(s, rest, id, now);
      }
    }
  }

  /** What `ReconcileOnce` does to the table, nothing coming between, is a run: it lists, then comes to each row. */
  lemma SweepIsARun(s: System, cutoff: Time, now: Time) returns (acts: seq<Action>)
    ensures Runs(s, acts)
    ensures After(s, acts).tasks == Swept(s.tasks, StuckOnes(s.tasks, cutoff), LiveIn(s), now)
    ensures After(s, acts).jobs == s.jobs
  {
    var s' := Step(s, ListStuck(cutoff));
    assert LiveIn(s') == LiveIn(s) by {
      assert s'.jobs == s.jobs;
    }
    var more := ListedAreSwept(s', StuckOnes(s.tasks, cutoff), now);
    acts := [ListStuck(cutoff)] + more;
    assert acts[1..] == more;
  }
}
