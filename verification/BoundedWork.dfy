/** Work is bounded for every blueprint and every worker behaviour: a job has at most
    (maxTransitions + 1) * (maxRetries + 1) single tasks enqueued, and runs at most
    maxTransitions handlers beside those that chose no action outside the end states.
    Those save nothing, so nothing bounds them: a run with any number of them is given. */
module BoundedWork {
  import opened Basics
  import opened Lifecycle
  import opened Ids

  /** How many handler bodies ran for job j. */
  function Runs(log: seq<Effect>, j: JobId): nat {
    if log == [] then 0
    else Runs(log[..|log| - 1], j) + if log[|log| - 1] == HandlerRan(j) then 1 else 0
  }

  predicate IsSingle(e: Effect, j: JobId) { Single(e) && e.job == j }

  /** How many times a single (not a branch) task of job j was put in a worker's queue. */
  function Singles(log: seq<Effect>, j: JobId): nat {
    if log == [] then 0
    else Singles(log[..|log| - 1], j) + if IsSingle(log[|log| - 1], j) then 1 else 0
  }

  lemma Appended(log: seq<Effect>, e: Effect, j: JobId)
    ensures Runs(log + [e], j) == Runs(log, j) + if e == HandlerRan(j) then 1 else 0
    ensures Singles(log + [e], j) == Singles(log, j) + if IsSingle(e, j) then 1 else 0
  {
    assert (log + [e])[..|log|] == log;
  }

  /** How many messages of job j were handled without an action outside the end states. */
  function Idles(past: seq<Action>, j: JobId): nat {
    if |past| == 0 then 0
    else Idles(past[..|past| - 1], j) + if IsIdle(past[|past| - 1], j) then 1 else 0
  }

  predicate IsIdle(a: Action, j: JobId) { a.AProcess? && a.job == j && !Acts(a.run) }

  lemma OneMoreAction(past: seq<Action>, a: Action)
    ensures forall j {:trigger Idles(past + [a], j)} ::
      Idles(past + [a], j) == Idles(past, j) + if IsIdle(a, j) then 1 else 0
  {
    assert (past + [a])[..|past|] == past;
  }

  /** Each handler run is paid by a transition or was idle, each single task by a transition or a retry. */
  ghost predicate WithinBudget(c: Config, w: World, past: seq<Action>, j: JobId) {
    if j in w.jobs then
      var job := w.jobs[j];
      && job.transitionCount <= c.maxTransitions && job.retryCount <= c.maxRetries
      && Runs(w.log, j) <= job.transitionCount + Idles(past, j)
      && Singles(w.log, j) <= job.transitionCount * (c.maxRetries + 1) + job.retryCount
    else Runs(w.log, j) == 0 && Singles(w.log, j) == 0
  }

  /** The store after the actions `past`. */
  ghost predicate Budget(c: Config, w: World, past: seq<Action>) {
    && (forall j :: j in w.jobs ==> j < w.nextJob)
    && forall j {:trigger WithinBudget(c, w, past, j)} :: WithinBudget(c, w, past, j)
  }

  predicate SameCounts(a: Job, b: Job) {
    a.transitionCount == b.transitionCount && a.retryCount == b.retryCount
  }

  /** Other jobs keep their counters and did no work; a new job starts from zero. */
  ghost predicate Elsewhere(w: World, w': World, j: JobId) {
    && w.nextJob <= w'.nextJob
    && (forall k :: k in w'.jobs && k != j ==>
          if k in w.jobs then SameCounts(w.jobs[k], w'.jobs[k])
          else k < w'.nextJob && w'.jobs[k].transitionCount == 0 && w'.jobs[k].retryCount == 0)
    && (forall k :: k in w.jobs ==> k in w'.jobs)
    && (forall k :: k != j ==> Runs(w'.log, k) == Runs(w.log, k) && Singles(w'.log, k) == Singles(w.log, k))
  }

  lemma ElsewhereTrans(w: World, w1: World, w2: World, j: JobId)
    requires Elsewhere(w, w1, j) && Elsewhere(w1, w2, j)
    ensures Elsewhere(w, w2, j)
  {}

  /** What the storage calls of one step do to the books of job j. */
  ghost predicate Booked(w: World, w': World, j: JobId, runs: nat, singles: nat) {
    && Elsewhere(w, w', j) && j in w'.jobs
    && Runs(w'.log, j) == Runs(w.log, j) + runs
    && Singles(w.log, j) <= Singles(w'.log, j) <= Singles(w.log, j) + singles
  }

  lemma DispatchBooks(w: World, j: JobId, info: TaskInfo, worker: WorkerId)
    requires j in w.jobs
    ensures var w' := Dispatch(w, j, info, worker);
      Booked(w, w', j, 0, if info.taskId.None? then 1 else 0) && SameCounts(w.jobs[j], w'.jobs[j])
  {
    var e := TaskEnqueued(worker, j, PushedId(w, info.taskId), info.taskId.Some?);
    forall k ensures Runs(w.log + [e], k) == Runs(w.log, k) &&
      Singles(w.log + [e], k) == Singles(w.log, k) + if IsSingle(e, k) then 1 else 0
    {
      Appended(w.log, e, k);
    }
  }

  /** No work and no new jobs; at most job j's counters changed. */
  ghost predicate Quiet(w: World, w': World, j: JobId) {
    && w'.log == w.log && w'.nextJob == w.nextJob && w'.jobs.Keys == w.jobs.Keys
    && forall k :: k in w.jobs && k != j ==> SameCounts(w.jobs[k], w'.jobs[k])
  }

  lemma ResumeBooks(w: World, j: JobId, end: State)
    ensures var w' := ResumeParent(w, j, end);
      Quiet(w, w', j) && (j in w.jobs ==> SameCounts(w.jobs[j], w'.jobs[j]))
  {}

  /** Resumed, saved, resumed again. */
  lemma TwiceResumed(w: World, j: JobId, job: Job, ended: Job)
    requires j in w.jobs && SameCounts(job, ended)
    ensures var w' := ResumeParent(Save(ResumeParent(w, j, job.current), j, ended), j, job.current);
      Quiet(w, w', j) && j in w'.jobs && SameCounts(job, w'.jobs[j])
  {
    hide ResumeParent;
    ResumeBooks(w, j, job.current);
    ResumeBooks(Save(ResumeParent(w, j, job.current), j, ended), j, job.current);
  }

  lemma EndBooks(w: World, j: JobId, job: Job, status: Status, valid: bool)
    requires j in w.jobs
    ensures var w' := ReachEnd(w, j, job, status, valid);
      Quiet(w, w', j) && j in w'.jobs && SameCounts(job, w'.jobs[j])
  {
    hide ResumeParent, Quiet;
    TwiceResumed(w, j, job, job.(status := if status == Finished && !valid then Failed else status));
  }

  lemma FailHandlerBooks(c: Config, w: World, j: JobId, job: Job)
    requires j in w.jobs && job.retryCount <= c.maxRetries
    ensures var w' := FailHandler(c, w, j, job);
      && Quiet(w, w', j)
      && w'.jobs[j].transitionCount == job.transitionCount
      && job.retryCount <= w'.jobs[j].retryCount <= c.maxRetries
  {
    hide ReachEnd, ResumeParent;
    if job.retryCount >= c.maxRetries {
      EndBooks(w, j, job, Quarantined, true);
      ResumeBooks(Quarantine(ReachEnd(w, j, job, Quarantined, true), j), j, job.current);
    }
  }

  lemma {:induction false} BranchesBook(w: World, j: JobId, tasks: seq<TaskInfo>, ids: seq<TaskId>,
                                        workers: seq<WorkerId>, n: nat)
    requires j in w.jobs && n <= |tasks| == |ids| && n <= |workers|
    ensures var w' := DispatchBranches(w, j, tasks, ids, workers, n);
      Booked(w, w', j, 0, 0) && SameCounts(w.jobs[j], w'.jobs[j])
  {
    hide Dispatch;
    if n > 0 {
      BranchesBook(w, j, tasks, ids, workers, n - 1);
      var before := DispatchBranches(w, j, tasks, ids, workers, n - 1);
      DispatchBooks(before, j, BranchTask(tasks[n - 1], ids[n - 1]), workers[n - 1]);
      ElsewhereTrans(w, before, DispatchBranches(w, j, tasks, ids, workers, n), j);
    }
  }

  /** After the handler ran: at most one single task, and the counters are saved. */
  ghost predicate Saved(c: Config, w: World, w': World, j: JobId, job: Job) {
    && Booked(w, w', j, 0, 1)
    && w'.jobs[j].transitionCount == job.transitionCount && w'.jobs[j].retryCount <= c.maxRetries
  }

  lemma QuietSaved(c: Config, w: World, w': World, j: JobId, job: Job)
    requires j in w.jobs && Quiet(w, w', j)
    requires w'.jobs[j].transitionCount == job.transitionCount && w'.jobs[j].retryCount <= c.maxRetries
    ensures Saved(c, w, w', j, job)
  {}

  lemma SavedQuiet(c: Config, w: World, w1: World, w2: World, j: JobId, job: Job)
    requires Saved(c, w, w1, j, job) && Quiet(w1, w2, j)
    requires w2.jobs[j].transitionCount == job.transitionCount && w2.jobs[j].retryCount <= c.maxRetries
    ensures Saved(c, w, w2, j, job)
  {}

  lemma FanOutDispatched(c: Config, w: World, j: JobId, job: Job, tasks: seq<TaskInfo>, into: State,
                         workers: seq<WorkerId>, n: nat)
    requires j in w.jobs && job.retryCount <= c.maxRetries && n <= |tasks| && n <= |workers|
    ensures var ids := FreshIds(w.nextTask, |tasks|);
      var done := DispatchBranches(StartFanOut(w, j, job, into, |tasks|), j, tasks, ids, workers, n);
      Saved(c, w, done, j, job) && SameCounts(job, done.jobs[j])
  {
    hide DispatchBranches;
    var ids := FreshIds(w.nextTask, |tasks|);
    BranchesBook(StartFanOut(w, j, job, into, |tasks|), j, tasks, ids, workers, n);
  }

  lemma FanOutBooks(c: Config, w: World, j: JobId, job: Job, tasks: seq<TaskInfo>, into: State, workers: seq<WorkerId>)
    requires j in w.jobs && job.retryCount <= c.maxRetries
    ensures Saved(c, w, FanOutStep(c, w, j, job, tasks, into, workers), j, job)
  {
    hide FailHandler, DispatchBranches, Saved;
    var n := if |workers| < |tasks| then |workers| else |tasks|;
    FanOutDispatched(c, w, j, job, tasks, into, workers, n);
    if |workers| < |tasks| {
      var ids := FreshIds(w.nextTask, |tasks|);
      var done := DispatchBranches(StartFanOut(w, j, job, into, |tasks|), j, tasks, ids, workers, n);
      var held := done.jobs[j].(branchInfo := done.jobs[j].branchInfo[ids[n] := BranchTask(tasks[n], ids[n])]);
      FailHandlerBooks(c, done, j, held);
      SavedQuiet(c, w, done, FailHandler(c, done, j, held), j, job);
    }
  }

  lemma TaskBooks(c: Config, w: World, j: JobId, job: Job, info: TaskInfo, worker: Option<WorkerId>)
    requires j in w.jobs && job.retryCount <= c.maxRetries
    ensures Saved(c, w, Settle(c, w, j, job, DispatchTask(info, worker)), j, job)
  {
    hide FailHandler, Dispatch;
    var waiting := Watch(Save(w, j, TaskJob(job, info)), JobKey(j));
    if worker.Some? {
      DispatchBooks(waiting, j, info, worker.value);
    } else {
      FailHandlerBooks(c, waiting, j, TaskJob(job, info));
      QuietSaved(c, w, FailHandler(c, waiting, j, TaskJob(job, info)), j, job);
    }
  }

  lemma ChildBooks(c: Config, w: World, j: JobId, job: Job, outcome: Outcome)
    requires j in w.jobs && job.retryCount <= c.maxRetries && outcome.RunBlueprint?
    requires forall k :: k in w.jobs ==> k < w.nextJob
    ensures Saved(c, w, Settle(c, w, j, job, outcome), j, job)
  {
    if outcome.created {
      CreatedBooks(c, w, j, job, outcome);
    } else {
      hide FailHandler, Saved;
      FailHandlerBooks(c, w, j, job);
      QuietSaved(c, w, Settle(c, w, j, job, outcome), j, job);
    }
  }

  lemma CreatedBooks(c: Config, w: World, j: JobId, job: Job, outcome: Outcome)
    requires j in w.jobs && job.retryCount <= c.maxRetries && outcome.RunBlueprint? && outcome.created
    requires forall k :: k in w.jobs ==> k < w.nextJob
    ensures Saved(c, w, Settle(c, w, j, job, outcome), j, job)
  {
    var w', kid := Settle(c, w, j, job, outcome), w.nextJob;
    assert kid !in w.jobs && w'.log == w.log && w'.nextJob == kid + 1;
    assert w'.jobs == w.jobs[kid := NewJob(outcome.start)][j := w'.jobs[j]] && SameCounts(w'.jobs[j], job);
    hide Settle, Runs, Singles;
  }

  lemma SettleBooks(c: Config, w: World, j: JobId, job: Job, outcome: Outcome)
    requires j in w.jobs && job.retryCount <= c.maxRetries && Acts(Ran(map[], outcome))
    requires forall k :: k in w.jobs ==> k < w.nextJob
    ensures Saved(c, w, Settle(c, w, j, job, outcome), j, job)
  {
    hide FailHandler, FanOutStep, ReachEnd, Saved;
    var w' := Settle(c, w, j, job, outcome);
    match outcome
    case Raised =>
      FailHandlerBooks(c, w, j, job);
      QuietSaved(c, w, w', j, job);
    case DispatchTask(info, worker) => TaskBooks(c, w, j, job, info, worker);
    case FanOut(tasks, into, workers) => FanOutBooks(c, w, j, job, tasks, into, workers);
    case RunBlueprint(_, _, _, _) => ChildBooks(c, w, j, job, outcome);
    case NoAction(_, valid) =>
      EndBooks(w, j, job, if job.current == "finished" then Finished else Failed, valid);
      QuietSaved(c, w, w', j, job);
    case _ => QuietSaved(c, w, w', j, job);
  }

  // ------------------------------------------------ steps

  /** A handled message costs one transition: one handler run and at most one single task. */
  ghost predicate PaidByTransition(c: Config, w: World, w': World, j: JobId) {
    && j in w.jobs && w.jobs[j].transitionCount < c.maxTransitions
    && Elsewhere(w, w', j) && j in w'.jobs
    && w'.jobs[j].transitionCount == w.jobs[j].transitionCount + 1 && w'.jobs[j].retryCount <= c.maxRetries
    && Runs(w'.log, j) <= Runs(w.log, j) + 1 && Singles(w'.log, j) <= Singles(w.log, j) + 1
  }

  /** Anything else costs a retry for each single task. */
  ghost predicate PaidByRetry(c: Config, w: World, w': World, j: JobId) {
    && j in w.jobs && Elsewhere(w, w', j) && j in w'.jobs
    && w'.jobs[j].transitionCount == w.jobs[j].transitionCount
    && w.jobs[j].retryCount <= w'.jobs[j].retryCount
    && (w.jobs[j].retryCount <= c.maxRetries ==> w'.jobs[j].retryCount <= c.maxRetries)
    && Runs(w'.log, j) == Runs(w.log, j)
    && Singles(w'.log, j) - Singles(w.log, j) <= w'.jobs[j].retryCount - w.jobs[j].retryCount
  }

  /** Nothing paid for the handler run: the counters stay where they were. */
  ghost predicate Unpaid(w: World, w': World, j: JobId) {
    && j in w.jobs && Elsewhere(w, w', j) && j in w'.jobs && SameCounts(w.jobs[j], w'.jobs[j])
    && Runs(w'.log, j) == Runs(w.log, j) + 1 && Singles(w'.log, j) == Singles(w.log, j)
  }

  lemma PaidStaysWithin(c: Config, w: World, w': World, past: seq<Action>, j: JobId)
    requires Budget(c, w, past) && (PaidByTransition(c, w, w', j) || PaidByRetry(c, w, w', j))
    ensures Budget(c, w', past)
  {
    forall k ensures WithinBudget(c, w', past, k) {
      if k == j { PaidOwn(c, w, w', past, j); } else { PaidOther(c, w, w', past, j, k); }
    }
  }

  lemma PaidOwn(c: Config, w: World, w': World, past: seq<Action>, j: JobId)
    requires Budget(c, w, past) && (PaidByTransition(c, w, w', j) || PaidByRetry(c, w, w', j))
    ensures WithinBudget(c, w', past, j)
  {
    assert WithinBudget(c, w, past, j);
    var t, r := w.jobs[j].transitionCount, c.maxRetries + 1;
    OneTransition(t, r);
    if PaidByTransition(c, w, w', j) {
      assert w'.jobs[j].transitionCount * r == t * r + r;
    } else {
      assert w'.jobs[j].transitionCount * r == t * r;
    }
  }

  lemma OneTransition(t: nat, r: nat)
    ensures (t + 1) * r == t * r + r
  {}

  lemma PaidOther(c: Config, w: World, w': World, past: seq<Action>, j: JobId, k: JobId)
    requires Budget(c, w, past) && Elsewhere(w, w', j) && k != j
    ensures WithinBudget(c, w', past, k)
  {
    assert WithinBudget(c, w, past, k);
    if k in w'.jobs && k in w.jobs {
      assert w'.jobs[k].transitionCount * (c.maxRetries + 1) == w.jobs[k].transitionCount * (c.maxRetries + 1);
    }
  }

  /** One more action in the past spends nothing. */
  lemma LongerPast(c: Config, w: World, past: seq<Action>, a: Action)
    requires Budget(c, w, past)
    ensures Budget(c, w, past + [a])
  {
    OneMoreAction(past, a);
    forall k ensures WithinBudget(c, w, past + [a], k) {
      assert WithinBudget(c, w, past, k);
    }
  }

  lemma IdleStaysWithin(c: Config, w: World, w': World, past: seq<Action>, a: Action, j: JobId)
    requires Budget(c, w, past) && Unpaid(w, w', j) && IsIdle(a, j)
    ensures Budget(c, w', past + [a])
  {
    LongerPast(c, w, past, a);
    OneMoreAction(past, a);
    forall k ensures WithinBudget(c, w', past + [a], k) {
      if k == j {
        assert WithinBudget(c, w, past, j);
        assert w'.jobs[j].transitionCount * (c.maxRetries + 1) == w.jobs[j].transitionCount * (c.maxRetries + 1);
      } else {
        PaidOther(c, w, w', past + [a], j, k);
      }
    }
  }

  /** The message is for a job that can still run a handler. */
  predicate CanRun(c: Config, w: World, j: JobId) {
    j in w.jobs && !Terminal(w.jobs[j].status) && w.jobs[j].transitionCount < c.maxTransitions
  }

  lemma HandlerLogged(w: World, j: JobId)
    ensures forall k :: Runs(LogHandler(w, j).log, k) == Runs(w.log, k) + (if k == j then 1 else 0)
    ensures forall k :: Singles(LogHandler(w, j).log, k) == Singles(w.log, k)
  {
    forall k
      ensures Runs(LogHandler(w, j).log, k) == Runs(w.log, k) + (if k == j then 1 else 0)
      ensures Singles(LogHandler(w, j).log, k) == Singles(w.log, k)
    {
      Appended(w.log, HandlerRan(j), k);
    }
  }

  lemma ActingBooks(c: Config, w: World, past: seq<Action>, j: JobId, run: HandlerRun)
    requires Budget(c, w, past) && CanRun(c, w, j) && Acts(run)
    ensures PaidByTransition(c, w, Process(c, w, j, run), j)
  {
    hide FailHandler, Settle, WithinBudget;
    RetriesWithin(c, w, past, j);
    match run
    case NoHandler => FailHandlerBooks(c, w, j, Counted(w.jobs[j]));
    case Ran(updates, outcome) =>
      var job := if outcome.Raised? then Counted(w.jobs[j])
                 else Counted(w.jobs[j]).(history := w.jobs[j].history + updates);
      HandlerLogged(w, j);
      SettleBooks(c, LogHandler(w, j), j, job, outcome);
  }

  lemma IdleBooks(c: Config, w: World, j: JobId, run: HandlerRun)
    requires (forall k :: k in w.jobs ==> k < w.nextJob) && CanRun(c, w, j) && !Acts(run)
    ensures Unpaid(w, Process(c, w, j, run), j)
  {
    HandlerLogged(w, j);
    hide Runs, Singles;
  }

  /** A handled message costs a transition for its handler run and at most one single task, or
      runs no handler and costs nothing, or its handler did not act and nothing pays for it. */
  lemma ProcessBooks(c: Config, w: World, past: seq<Action>, j: JobId, run: HandlerRun)
    requires Budget(c, w, past) && j in w.jobs
    ensures var w' := Process(c, w, j, run);
      if !CanRun(c, w, j) then PaidByRetry(c, w, w', j)
      else if Acts(run) then PaidByTransition(c, w, w', j) else Unpaid(w, w', j)
  {
    hide WithinBudget;
    if CanRun(c, w, j) {
      hide Process;
      if Acts(run) { ActingBooks(c, w, past, j, run); } else { IdleBooks(c, w, j, run); }
    }
  }

  /** Exactly: the handler run of a job that can still run one is paid for if and only if the
      handler acted. */
  lemma PaidExactlyWhenActing(c: Config, w: World, past: seq<Action>, j: JobId, run: HandlerRun)
    requires Budget(c, w, past) && CanRun(c, w, j)
    ensures var w' := Process(c, w, j, run);
      Acts(run) <==> PaidByTransition(c, w, w', j) || PaidByRetry(c, w, w', j)
  {
    ProcessBooks(c, w, past, j, run);
    hide Process;
  }

  lemma RetriesWithin(c: Config, w: World, past: seq<Action>, j: JobId)
    requires Budget(c, w, past) && j in w.jobs
    ensures w.jobs[j].retryCount <= c.maxRetries
  {
    assert WithinBudget(c, w, past, j);
  }

  lemma RedispatchBooks(w: World, k: WatchKey, j: JobId, job: Job, info: TaskInfo, worker: Option<WorkerId>)
    requires j in w.jobs
    ensures var w' := Redispatch(w, k, j, job, info, worker);
      Booked(w, w', j, 0, if info.taskId.None? then 1 else 0) && SameCounts(job, w'.jobs[j])
  {
    hide Dispatch;
    if worker.Some? {
      DispatchBooks(Save(Watch(w, k), j, job), j, info, worker.value);
    }
  }

  lemma FailBranchBooks(c: Config, w: World, j: JobId, job: Job, t: TaskId, worker: Option<WorkerId>)
    requires j in w.jobs && SameCounts(w.jobs[j], job)
    requires t in job.branchInfo ==> job.branchInfo[t].taskId.Some?
    ensures PaidByRetry(c, w, FailBranch(c, w, j, job, t, worker), j)
  {
    hide Redispatch;
    if RetriesOf(job, t) < c.maxRetries && t in job.branchInfo {
      RedispatchBooks(w, BranchKey(j, t), j, RetriedBranch(job, t), job.branchInfo[t], worker);
    }
  }

  lemma FailSingleBooks(c: Config, w: World, j: JobId, job: Job, worker: Option<WorkerId>)
    requires j in w.jobs && SameCounts(w.jobs[j], job)
    ensures PaidByRetry(c, w, FailSingle(c, w, j, job, worker), j)
  {
    hide Redispatch;
    if job.retryCount < c.maxRetries && job.taskInfo.Some? {
      RedispatchBooks(w, JobKey(j), j, RetriedSingle(job), job.taskInfo.value, worker);
    }
  }

  lemma FailTaskBooks(c: Config, w: World, j: JobId, job: Job, t: TaskRef, worker: Option<WorkerId>)
    requires j in w.jobs && SameCounts(w.jobs[j], job)
    requires forall b :: b in job.branchInfo ==> job.branchInfo[b].taskId.Some?
    ensures PaidByRetry(c, w, FailTask(c, w, j, job, t, worker), j)
  {
    if !Terminal(job.status) {
      hide PaidByRetry;
      if IsBranch(job, t) {
        FailBranchBooks(c, w, j, job, t.id, worker);
      } else {
        FailSingleBooks(c, w, j, job, worker);
      }
    }
  }

  /** Saving job j with its counters costs nothing. */
  lemma SavePays(c: Config, w: World, w': World, j: JobId, job: Job)
    requires j in w.jobs && SameCounts(w.jobs[j], job)
    requires w'.jobs == w.jobs[j := job] && w'.log == w.log && w'.nextJob == w.nextJob
    ensures PaidByRetry(c, w, w', j)
  {}

  lemma SettleFailureBooks(c: Config, w: World, seen: Job, r: Report, code: ErrorCode, retry: Option<WorkerId>)
    requires r.job in w.jobs && SameCounts(w.jobs[r.job], seen)
    requires forall b :: b in seen.branchInfo ==> seen.branchInfo[b].taskId.Some?
    ensures PaidByRetry(c, w, SettleFailure(c, w, r.job, seen, r.task, code, retry), r.job)
  {
    hide FailTask, PaidByRetry;
    var w' := SettleFailure(c, w, r.job, seen, r.task, code, retry);
    match code
    case Transient => FailTaskBooks(c, w, r.job, seen, Task(r.task), retry);
    case InvalidInput => SavePays(c, w, w', r.job, seen.(status := Failed));
    case IntegrityMismatch => SavePays(c, w, w', r.job, seen.(status := Failed));
    case _ => SavePays(c, w, w', r.job, seen.(status := Quarantined));
  }

  lemma MoveOnBooks(c: Config, w: World, j: JobId, seen: Job, next: Option<State>, data: map<string, Data>,
                    otherwise: Status)
    requires j in w.jobs && SameCounts(w.jobs[j], seen)
    ensures PaidByRetry(c, w, MoveOn(w, j, seen, next, data, otherwise), j)
  {}

  lemma SettleResultBooks(c: Config, w: World, seen: Job, r: Report, retry: Option<WorkerId>)
    requires r.job in w.jobs && SameCounts(w.jobs[r.job], seen)
    requires forall b :: b in seen.branchInfo ==> seen.branchInfo[b].taskId.Some?
    ensures PaidByRetry(c, w, SettleResult(c, w, seen, r, retry), r.job)
  {
    hide SettleFailure, MoveOn, PaidByRetry;
    match Effective(r)
    case Failure(code) => SettleFailureBooks(c, w, seen, r, code, retry);
    case TaskCancelled => MoveOnBooks(c, w, r.job, seen, Truthy(seen.transitions, "cancelled"), map[], Cancelled);
    case Reported(name) => MoveOnBooks(c, w, r.job, seen, Truthy(seen.transitions, name), r.data, Failed);
  }

  lemma ResultBooks(c: Config, w: World, r: Report, retry: Option<WorkerId>)
    requires IdInv(w) && r.job in w.jobs
    ensures PaidByRetry(c, w, Result(c, w, r, retry), r.job)
  {
    hide SettleResult, RecordBranch, IdInv;
    DrawnJob(w, r.job);
    var job := w.jobs[r.job];
    var seen := if r.picked && r.task !in job.active then job.(pickedUp := true) else job;
    SettleResultBooks(c, Unwatch(w, JobKey(r.job)), seen, r, retry);
    SeenElsewhere(c, w, JobKey(r.job), SettleResult(c, Unwatch(w, JobKey(r.job)), seen, r, retry), r.job);
    assert SameCounts(job, RecordBranch(job, r.task, r.payload)) by { RecordCounts(job, r.task, r.payload); }
    hide PaidByRetry;
    if Accepts(job, r.task, r.worker) && job.status == WaitingForParallel {
      SavePays(c, w, Result(c, w, r, retry), r.job, RecordBranch(job, r.task, r.payload));
    } else if !Accepts(job, r.task, r.worker) {
      SavePays(c, w, w, r.job, job);
    }
  }

  lemma SeenElsewhere(c: Config, w: World, k: WatchKey, w': World, j: JobId)
    requires PaidByRetry(c, Unwatch(w, k), w', j)
    ensures PaidByRetry(c, w, w', j)
  {}

  lemma RecordCounts(job: Job, t: TaskId, payload: Data)
    ensures SameCounts(job, RecordBranch(job, t, payload))
  {}

  lemma FireBooks(c: Config, w: World, k: WatchKey, worker: Option<WorkerId>)
    requires IdInv(w) && k.job in w.jobs
    ensures PaidByRetry(c, w, Fire(c, w, k, worker), k.job)
  {
    hide FailTask, IdInv, PaidByRetry;
    DrawnJob(w, k.job);
    var job := w.jobs[k.job];
    var t := if k.JobKey? then job.currentTask else Task(k.task);
    FailTaskBooks(c, Unwatch(w, k), k.job, job, t, worker);
    SeenElsewhere(c, w, k, FailTask(c, Unwatch(w, k), k.job, job, t, worker), k.job);
    SavePays(c, w, Save(Unwatch(w, k), k.job, job.(status := Failed)), k.job, job.(status := Failed));
    SavePays(c, w, Unwatch(w, k), k.job, job);
  }

  lemma CreateBooks(c: Config, w: World, past: seq<Action>, start: State, watched: bool)
    requires Budget(c, w, past)
    ensures Budget(c, CreateJob(w, start, watched, None), past)
  {
    var w' := CreateJob(w, start, watched, None);
    forall k ensures WithinBudget(c, w', past, k) {
      assert WithinBudget(c, w, past, k);
    }
  }

  lemma UnknownBooks(c: Config, w: World, w': World, past: seq<Action>)
    requires Budget(c, w, past) && w'.jobs == w.jobs && w'.log == w.log && w'.nextJob == w.nextJob
    ensures Budget(c, w', past)
  {
    forall k ensures WithinBudget(c, w', past, k) {
      assert WithinBudget(c, w, past, k);
    }
  }

  /** A step that runs no idle handler. */
  lemma BusyStepBooks(c: Config, w: World, past: seq<Action>, a: Action)
    requires Budget(c, w, past) && IdInv(w) && Enabled(w, a)
    requires a.AProcess? ==> Acts(a.run) || !CanRun(c, w, a.job)
    ensures Budget(c, Step(c, w, a), past)
  {
    hide Budget, IdInv, Process, Result, Fire;
    var w' := Step(c, w, a);
    var j := Subject(w, a);
    match a
    case ACreate(start, watched) => CreateBooks(c, w, past, start, watched);
    case AProcess(j, run) =>
      if j in w.jobs {
        ProcessBooks(c, w, past, j, run);
        PaidStaysWithin(c, w, w', past, j);
      } else {
        AbsentBooks(c, w, past, j, run);
      }
    case AResult(r, retry) =>
      if r.job in w.jobs {
        ResultBooks(c, w, r, retry);
        PaidStaysWithin(c, w, w', past, j);
      } else {
        AbsentResult(c, w, past, r, retry);
      }
    case AFire(k, retry) =>
      if k.job in w.jobs {
        FireBooks(c, w, k, retry);
        PaidStaysWithin(c, w, w', past, j);
      } else {
        AbsentFire(c, w, past, k, retry);
      }
    case _ =>
      if j in w.jobs {
        assert PaidByRetry(c, w, w', j);
        PaidStaysWithin(c, w, w', past, j);
      } else {
        UnknownBooks(c, w, w', past);
      }
  }

  lemma AbsentBooks(c: Config, w: World, past: seq<Action>, j: JobId, run: HandlerRun)
    requires Budget(c, w, past) && j !in w.jobs
    ensures Budget(c, Process(c, w, j, run), past)
  {
    UnknownBooks(c, w, Process(c, w, j, run), past);
  }

  lemma AbsentResult(c: Config, w: World, past: seq<Action>, r: Report, retry: Option<WorkerId>)
    requires Budget(c, w, past) && r.job !in w.jobs
    ensures Budget(c, Result(c, w, r, retry), past)
  {
    UnknownBooks(c, w, Result(c, w, r, retry), past);
  }

  lemma AbsentFire(c: Config, w: World, past: seq<Action>, k: WatchKey, worker: Option<WorkerId>)
    requires Budget(c, w, past) && k.job !in w.jobs
    ensures Budget(c, Fire(c, w, k, worker), past)
  {
    UnknownBooks(c, w, Fire(c, w, k, worker), past);
  }

  lemma StepBooks(c: Config, w: World, past: seq<Action>, a: Action)
    requires Budget(c, w, past) && IdInv(w) && Enabled(w, a)
    ensures Budget(c, Step(c, w, a), past + [a])
  {
    hide Process, Result, Fire, Unpaid, WithinBudget, IdInv;
    if a.AProcess? && !Acts(a.run) && CanRun(c, w, a.job) {
      IdleBooks(c, w, a.job, a.run);
      IdleStaysWithin(c, w, Step(c, w, a), past, a, a.job);
    } else {
      hide Budget, Step;
      BusyStepBooks(c, w, past, a);
      LongerPast(c, Step(c, w, a), past, a);
    }
  }

  // ------------------------------------------------ the theorem

  lemma {:induction false} RunStaysWithinBudget(c: Config, run: seq<World>, acts: seq<Action>, n: nat)
    requires IsRun(c, run, acts) && run[0] == EMPTY && n < |run|
    ensures Budget(c, run[n], acts[..n])
  {
    if n > 0 {
      RunStaysWithinBudget(c, run, acts, n - 1);
      RunIds(c, run, acts, n - 1);
      hide Budget, IdInv, Step;
      assert acts[..n] == acts[..n - 1] + [acts[n - 1]];
      StepBooks(c, run[n - 1], acts[..n - 1], acts[n - 1]);
    }
  }

  /** For every blueprint, worker and interleaving of steps, with nothing asked of the handlers:
      single tasks are bounded, and so are the handler runs but for the idle ones. */
  lemma WorkIsBounded(c: Config, run: seq<World>, acts: seq<Action>, n: nat, j: JobId)
    requires IsRun(c, run, acts) && run[0] == EMPTY && n < |run|
    ensures Runs(run[n].log, j) <= c.maxTransitions + Idles(acts[..n], j)
    ensures Singles(run[n].log, j) <= (c.maxTransitions + 1) * (c.maxRetries + 1)
  {
    RunStaysWithinBudget(c, run, acts, n);
    assert WithinBudget(c, run[n], acts[..n], j);
    hide IsRun, Budget;
    WithinIsBounded(c, run[n], acts[..n], j);
  }

  lemma WithinIsBounded(c: Config, w: World, past: seq<Action>, j: JobId)
    requires WithinBudget(c, w, past, j)
    ensures Runs(w.log, j) <= c.maxTransitions + Idles(past, j)
    ensures Singles(w.log, j) <= (c.maxTransitions + 1) * (c.maxRetries + 1)
  {
    hide Runs, Singles, Idles;
    var r := c.maxRetries + 1;
    if j in w.jobs {
      var t := w.jobs[j].transitionCount;
      Spent(t, c.maxTransitions, r);
      Total(Singles(w.log, j), t * r, w.jobs[j].retryCount, c.maxTransitions * r, (c.maxTransitions + 1) * r, r);
    } else {
      Spent(0, c.maxTransitions, r);
    }
  }

  lemma Total(singles: nat, paid: nat, retries: nat, most: nat, bound: nat, r: nat)
    requires singles <= paid + retries && retries < r && paid <= most && bound == most + r
    ensures singles <= bound
  {}

  lemma Spent(t: nat, most: nat, r: nat)
    requires t <= most
    ensures 0 <= t * r <= most * r && (most + 1) * r == most * r + r
  {
    assert most * r == t * r + (most - t) * r;
    assert (most - t) * r >= 0;
  }

  lemma {:induction false} NoIdles(past: seq<Action>, j: JobId)
    requires forall a :: a in past ==> !IsIdle(a, j)
    ensures Idles(past, j) == 0
  {
    if |past| > 0 {
      NoIdles(past[..|past| - 1], j);
      assert past[|past| - 1] in past;
    }
  }

  /** When every handler of the job acts or stands in an end state, it runs at most
      maxTransitions of them. */
  lemma ActingWorkIsBounded(c: Config, run: seq<World>, acts: seq<Action>, n: nat, j: JobId)
    requires IsRun(c, run, acts) && run[0] == EMPTY && n < |run|
    requires forall a :: a in acts ==> !IsIdle(a, j)
    ensures Runs(run[n].log, j) <= c.maxTransitions
  {
    WorkIsBounded(c, run, acts, n, j);
    NoIdles(acts[..n], j);
  }

  // ------------------------------------------------ idle handlers are not bounded

  /** Job 0 ran one handler, whose task 0 succeeded; it is about to run in state "next". */
  ghost predicate Idling(w: World) {
    && 0 in w.jobs && 0 in w.messages
    && (var job := w.jobs[0];
        && job.status == Running && job.current == "next" && job.currentTask == Task(0) && job.active == []
        && job.assignee == Some(5) && job.transitionCount == 1 && job.transitions == map["success" := "next"])
  }

  const SUCCESS := Report(5, 0, 0, Reported("success"), map[], "", false, true)

  const SENT := TaskInfo("any", None, map["success" := "next"], map[])

  const IDLE := Ran(map[], NoAction(false, true))

  lemma IdlingBegins(c: Config)
    requires c.maxTransitions >= 1
    ensures var w1 := CreateJob(EMPTY, "start", false, None);
      && 0 in w1.messages
      && Idling(Result(c, Process(c, w1, 0, Ran(map[], DispatchTask(SENT, Some(5)))), SUCCESS, None))
  {
    var w2 := Process(c, CreateJob(EMPTY, "start", false, None), 0, Ran(map[], DispatchTask(SENT, Some(5))));
    SentFirst(c);
    hide Process, CreateJob;
    FirstSucceeds(c, w2);
  }

  ghost predicate AwaitsSuccess(w: World) {
    && 0 in w.jobs
    && (var job := w.jobs[0];
        && job.status == WaitingForWorker && job.currentTask == Task(0) && job.active == []
        && job.assignee == Some(5) && job.transitionCount == 1 && job.transitions == map["success" := "next"])
  }

  lemma SentFirst(c: Config)
    requires c.maxTransitions >= 1
    ensures var w1 := CreateJob(EMPTY, "start", false, None);
      0 in w1.messages && AwaitsSuccess(Process(c, w1, 0, Ran(map[], DispatchTask(SENT, Some(5)))))
  {}

  lemma FirstSucceeds(c: Config, w: World)
    requires AwaitsSuccess(w)
    ensures Idling(Result(c, w, SUCCESS, None))
  {}

  /** A handler that does nothing, and the same result once more: the job is as it was, and one
      more handler has run. */
  lemma IdlingGoesOn(c: Config, w: World)
    requires c.maxTransitions >= 2 && Idling(w)
    ensures var w' := Result(c, Process(c, w, 0, IDLE), SUCCESS, None);
      && Idling(w') && w'.jobs[0] == w.jobs[0] && Runs(w'.log, 0) == Runs(w.log, 0) + 1
  {
    Appended(w.log, HandlerRan(0), 0);
    assert w.jobs[0].history + map[] == w.jobs[0].history;
    var handled := Process(c, w, 0, IDLE);
    assert handled == Ack(LogHandler(w, 0), 0);
    hide Process, Runs, Singles;
    RepeatedSuccess(c, handled);
  }

  lemma RepeatedSuccess(c: Config, w: World)
    requires Idling(w.(messages := w.messages + multiset{0}))
    ensures var w' := Result(c, w, SUCCESS, None);
      && w'.jobs == w.jobs[0 := w.jobs[0].(history := w.jobs[0].history + map[])]
      && w'.messages == w.messages + multiset{0} && w'.log == w.log
  {
    assert w.jobs[0].history + map[] == w.jobs[0].history;
    assert w.jobs[0].(current := "next", status := Running) == w.jobs[0];
  }

  /** For every number there is a run with that many handler runs of one job, as soon as two
      transitions are allowed. */
  lemma {:induction false} IdleRunsAreUnbounded(c: Config, n: nat) returns (run: seq<World>, acts: seq<Action>)
    requires c.maxTransitions >= 2
    ensures IsRun(c, run, acts) && run[0] == EMPTY && Idling(run[|acts|]) && Runs(run[|acts|].log, 0) >= n
  {
    hide Process, Result, CreateJob, Idling, Runs;
    if n == 0 {
      IdlingBegins(c);
      var w1 := CreateJob(EMPTY, "start", false, None);
      var first := Ran(map[], DispatchTask(SENT, Some(5)));
      var w2 := Process(c, w1, 0, first);
      run := [EMPTY, w1, w2, Result(c, w2, SUCCESS, None)];
      acts := [ACreate("start", false), AProcess(0, first), AResult(SUCCESS, None)];
    } else {
      var before, done := IdleRunsAreUnbounded(c, n - 1);
      var w := before[|done|];
      IdlingGoesOn(c, w);
      IdlingHasMessage(w);
      var w1 := Process(c, w, 0, IDLE);
      run := before + [w1, Result(c, w1, SUCCESS, None)];
      acts := done + [AProcess(0, IDLE), AResult(SUCCESS, None)];
      Extended(c, before, done, run, acts);
    }
  }

  lemma IdlingHasMessage(w: World)
    requires Idling(w)
    ensures 0 in w.messages
  {}

  lemma Extended(c: Config, before: seq<World>, done: seq<Action>, run: seq<World>, acts: seq<Action>)
    requires IsRun(c, before, done) && 0 in before[|done|].messages
    requires var w1 := Process(c, before[|done|], 0, IDLE);
      && run == before + [w1, Result(c, w1, SUCCESS, None)]
      && acts == done + [AProcess(0, IDLE), AResult(SUCCESS, None)]
    ensures IsRun(c, run, acts)
  {
    hide Process, Result;
    forall i | 0 <= i < |acts| ensures Enabled(run[i], acts[i]) && run[i + 1] == Step(c, run[i], acts[i]) {
      if i < |done| {
        assert run[i] == before[i] && run[i + 1] == before[i + 1] && acts[i] == done[i];
      }
    }
  }
}
