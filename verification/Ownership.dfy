/** Whose result counts. A job that sent out a single task is always assigned to somebody, and
    what moves it is the latest single task's result from that worker. The assignee is the
    worker the task was sent to until somebody polls a single task of the job, an old one
    included; then it is the last who polled. */
module Ownership {
  import opened Basics
  import opened Lifecycle
  import opened Frames
  import opened Ids
  import opened Fencing

  /** The job of a queued single task is assigned, and the task is none of its branches. */
  ghost predicate Owned(w: World, e: Effect)
    requires e.TaskEnqueued?
  {
    e.job in w.jobs && w.jobs[e.job].assignee.Some? && e.task !in w.jobs[e.job].active
  }

  /** If f is the job's current task, no single task of the job is later than f. */
  ghost predicate Latest(w: World, e: Effect, f: Effect)
    requires e.TaskEnqueued? && f.TaskEnqueued?
  {
    e.job == f.job && f.job in w.jobs && w.jobs[f.job].currentTask == Task(f.task) ==> e.task <= f.task
  }

  ghost predicate Assigned(w: World) {
    && (forall e :: e in w.log && Single(e) ==> Owned(w, e))
    && (forall e, f :: e in w.log && f in w.log && Single(e) && Single(f) ==> Latest(w, e, f))
  }

  lemma LoggedTask(w: World, e: Effect)
    requires IdInv(w) && e in w.log && Single(e)
    ensures e.task < w.nextTask
  {}

  /** What one step does to the tasks of job k: the subject moves, others keep all of it. */
  ghost predicate KeepsTasks(w: World, w': World, k: JobId)
    requires k in w.jobs
  {
    && k in w'.jobs && w'.jobs[k].active == w.jobs[k].active && w'.jobs[k].currentTask == w.jobs[k].currentTask
    && w'.jobs[k].assignee == w.jobs[k].assignee
  }

  /** A poll may only change who holds the job. */
  ghost predicate PolledBy(w: World, w': World, j: JobId)
    requires j in w.jobs
  {
    && j in w'.jobs && SinglesKept(w, w') && (w.jobs[j].assignee.Some? ==> w'.jobs[j].assignee.Some?)
  }

  lemma AbsentLog(c: Config, w: World, a: Action)
    requires Enabled(w, a) && Subject(w, a) !in w.jobs
    ensures SinglesKept(w, Step(c, w, a))
  {}

  lemma StepEffects(c: Config, w: World, a: Action)
    requires IdInv(w) && Enabled(w, a)
    ensures var w', j := Step(c, w, a), Subject(w, a);
      && w.nextTask <= w'.nextTask
      && (forall k :: k in w.jobs && k != j ==> KeepsTasks(w, w', k))
      && (if j in w.jobs then IdMove(w, w', j, w.jobs[j]) && (OwnerMove(w, w', j, w.jobs[j]) || PolledBy(w, w', j))
          else SinglesKept(w, w'))
  {
    var j := Subject(w, a);
    CounterGrows(c, w, a);
    StepTouches(c, w, a);
    if j in w.jobs {
      StepMoves(c, w, a);
      if a.APoll? { PollMoves(w, a.worker, a.job, a.task); }
      hide Step, IdMove, OwnerMove, IdInv, SinglesKept;
    } else {
      AbsentLog(c, w, a);
      hide Step, IdInv, SinglesKept;
    }
  }

  /** An old single task stays owned through a step. */
  lemma OldStaysOwned(w: World, w': World, j: JobId, e: Effect)
    requires IdInv(w) && e in w.log && Single(e) && Owned(w, e)
    requires forall k :: k in w.jobs && k != j ==> KeepsTasks(w, w', k)
    requires j in w.jobs ==> IdMove(w, w', j, w.jobs[j]) && (OwnerMove(w, w', j, w.jobs[j]) || PolledBy(w, w', j))
    ensures Owned(w', e)
  {
    LoggedTask(w, e);
    hide IdInv, SinglesKept;
  }

  lemma OldStaysLatest(w: World, w': World, j: JobId, e: Effect, f: Effect)
    requires IdInv(w) && e in w.log && f in w.log && Single(e) && Single(f) && Owned(w, f) && Latest(w, e, f)
    requires forall k :: k in w.jobs && k != j ==> KeepsTasks(w, w', k)
    requires j in w.jobs ==> IdMove(w, w', j, w.jobs[j])
    ensures Latest(w', e, f)
  {
    LoggedTask(w, f);
    hide IdInv;
  }

  /** The task sent in this step is owned and is the latest. */
  lemma NewIsLatest(w: World, w': World, j: JobId, e: Effect, f: Effect)
    requires IdInv(w) && j in w'.jobs && SingleSent(w, w', j)
    requires e in w'.log && f in w'.log && Single(e) && Single(f) && (e !in w.log || f !in w.log)
    ensures Latest(w', e, f)
  {
    if e in w.log { LoggedTask(w, e); }
    if f in w.log { LoggedTask(w, f); }
    hide IdInv;
  }

  lemma StepKeepsAssigned(c: Config, w: World, a: Action)
    requires IdInv(w) && Assigned(w) && Enabled(w, a)
    ensures Assigned(Step(c, w, a))
  {
    var w', j := Step(c, w, a), Subject(w, a);
    StepEffects(c, w, a);
    hide Step, IdInv, IdMove, Owned, Latest, KeepsTasks;
    forall e | e in w'.log && Single(e) ensures Owned(w', e) {
      if e in w.log { OldStaysOwned(w, w', j, e); } else { NewIsOwned(w, w', j, e); }
    }
    forall e, f | e in w'.log && f in w'.log && Single(e) && Single(f) ensures Latest(w', e, f) {
      if e in w.log && f in w.log { OldStaysLatest(w, w', j, e, f); } else { NewIsLatest(w, w', j, e, f); }
    }
  }

  lemma NewIsOwned(w: World, w': World, j: JobId, e: Effect)
    requires j in w'.jobs && SingleSent(w, w', j) && e in w'.log && Single(e) && e !in w.log
    ensures Owned(w', e)
  {}

  lemma {:induction false} RunAssigned(c: Config, run: seq<World>, acts: seq<Action>, n: nat)
    requires IsRun(c, run, acts) && run[0] == EMPTY && n < |run|
    ensures Assigned(run[n])
  {
    if n > 0 {
      RunAssigned(c, run, acts, n - 1);
      RunIds(c, run, acts, n - 1);
      hide Step, IdInv, Assigned;
      StepKeepsAssigned(c, run[n - 1], acts[n - 1]);
    }
  }

  /** The job's current task is a single one that was put in a queue. */
  ghost predicate AwaitsSingle(w: World, e: Effect) {
    Single(e) && e in w.log && e.job in w.jobs && w.jobs[e.job].currentTask == Task(e.task)
  }

  /** Over every run: a result that moves a job whose current task is a single one carries that
      task's id, which is the latest of all single tasks the job sent out, and comes from the
      worker the job is assigned to; there always is one. */
  lemma OnlyTheOwnerMoves(c: Config, run: seq<World>, acts: seq<Action>, k: nat, r: Report, retry: Option<WorkerId>,
                          e: Effect)
    requires IsRun(c, run, acts) && run[0] == EMPTY && k < |run| && AwaitsSingle(run[k], e) && r.job == e.job
    requires run[k].jobs[r.job].status != WaitingForParallel
    requires !Unmoved(run[k], Result(c, run[k], r, retry), r.job)
    ensures r.task == e.task && run[k].jobs[r.job].assignee == Some(r.worker)
    ensures forall f :: f in run[k].log && Single(f) && f.job == r.job ==> f.task <= r.task
  {
    RunAssigned(c, run, acts, k);
    assert Owned(run[k], e);
    OnlyTheLatestAttemptMoves(c, run[k], r, retry);
    hide IsRun;
    forall f | f in run[k].log && Single(f) && f.job == r.job ensures f.task <= r.task {
      assert Latest(run[k], f, e);
    }
  }

  // ---------------------------------------------------------------- who the owner is

  /** The action is a poll, by anybody, of a task of job j that is not a branch. */
  predicate PollsSingle(w: World, a: Action, j: JobId) {
    a.APoll? && a.job == j && j in w.jobs && a.task !in w.jobs[j].active
  }

  /** The last to poll such a task between moments n and k, or v if nobody did. */
  function LastPoller(run: seq<World>, acts: seq<Action>, n: nat, k: nat, j: JobId, v: WorkerId): WorkerId
    requires k < |run| == |acts| + 1
  {
    if k <= n then v
    else if PollsSingle(run[k - 1], acts[k - 1], j) then acts[k - 1].worker
    else LastPoller(run, acts, n, k - 1, j, v)
  }

  lemma OwnerStep(c: Config, w: World, a: Action, j: JobId, t: TaskId)
    requires IdInv(w) && Enabled(w, a) && j in w.jobs && t < w.nextTask
    requires j in Step(c, w, a).jobs && Step(c, w, a).jobs[j].currentTask == Task(t)
    ensures Step(c, w, a).jobs[j].assignee == if PollsSingle(w, a, j) then Some(a.worker) else w.jobs[j].assignee
  {
    if Subject(w, a) == j {
      StepMoves(c, w, a);
      if a.APoll? { PollMoves(w, a.worker, j, a.task); }
      hide Step, IdInv, IdMove, SinglesKept;
    } else {
      StepTouches(c, w, a);
    }
  }

  /** While a task stays the current one its assignee is the last worker to poll a single task
      of the job, or else the one it was sent to. */
  lemma {:induction false} OwnerIsLastPoller(c: Config, run: seq<World>, acts: seq<Action>, n: nat, k: nat, j: JobId,
                                             t: TaskId, v: WorkerId)
    requires IsRun(c, run, acts) && IdInv(run[0]) && n <= k < |run|
    requires j in run[n].jobs && run[n].jobs[j].currentTask == Task(t) && t !in run[n].jobs[j].active
    requires run[n].jobs[j].assignee == Some(v)
    requires j in run[k].jobs && run[k].jobs[j].currentTask == Task(t)
    ensures run[k].jobs[j].assignee == Some(LastPoller(run, acts, n, k, j, v))
  {
    hide Step, IdInv, IsRun, Enabled, Attempted;
    RunLength(c, run, acts);
    if n < k {
      AttemptedSince(c, run, acts, n, k - 1, j, t);
      StillCurrent(c, run, acts, k, j, t);
      OwnerIsLastPoller(c, run, acts, n, k - 1, j, t, v);
      RunIds(c, run, acts, k - 1);
      RunStep(c, run, acts, k - 1);
      OwnerStep(c, run[k - 1], acts[k - 1], j, t);
    }
  }

  lemma AttemptedSince(c: Config, run: seq<World>, acts: seq<Action>, n: nat, k: nat, j: JobId, t: TaskId)
    requires IsRun(c, run, acts) && IdInv(run[0]) && n <= k < |run|
    requires j in run[n].jobs && run[n].jobs[j].currentTask == Task(t) && t !in run[n].jobs[j].active
    ensures j in run[k].jobs && Attempted(run[k], j, t) && t < run[k].nextTask
  {
    RunIds(c, run, acts, n);
    DrawnJob(run[n], j);
    StaysAttempted(c, run, acts, n, k, j, t);
  }

  /** A task that is current now was current one step ago: an id never returns. */
  lemma StillCurrent(c: Config, run: seq<World>, acts: seq<Action>, k: nat, j: JobId, t: TaskId)
    requires IsRun(c, run, acts) && IdInv(run[0]) && 0 < k < |run| && Attempted(run[k - 1], j, t)
    requires j in run[k].jobs && run[k].jobs[j].currentTask == Task(t)
    ensures run[k - 1].jobs[j].currentTask == Task(t)
  {
    if run[k - 1].jobs[j].currentTask != Task(t) {
      StaysFenced(c, run, acts, k - 1, k, j, t);
    }
  }

  /** Exactly when the worker a task was sent to keeps its claim: its result is accepted if and
      only if nobody else was the last to poll a single task of the job meanwhile. */
  lemma AcceptedExactly(c: Config, run: seq<World>, acts: seq<Action>, n: nat, k: nat, j: JobId, t: TaskId, v: WorkerId)
    requires IsRun(c, run, acts) && IdInv(run[0]) && n <= k < |run|
    requires j in run[n].jobs && run[n].jobs[j].currentTask == Task(t) && t !in run[n].jobs[j].active
    requires run[n].jobs[j].assignee == Some(v)
    requires j in run[k].jobs && run[k].jobs[j].currentTask == Task(t)
    requires run[k].jobs[j].status !in {Finished, Failed, Error, Quarantined}
    ensures Accepts(run[k].jobs[j], t, v) <==> LastPoller(run, acts, n, k, j, v) == v
  {
    OwnerIsLastPoller(c, run, acts, n, k, j, t, v);
    AttemptedSince(c, run, acts, n, k, j, t);
    hide IsRun, IdInv;
  }

  // ---------------------------------------------------------------- a late poll takes the job

  /** Job 0 awaits its single task t, sent or polled last by `owner`. */
  ghost predicate Awaits(w: World, t: TaskId, owner: WorkerId, retries: nat) {
    && 0 in w.jobs && JobKey(0) in w.watch && w.nextTask == t + 1
    && (var job := w.jobs[0];
        && job.status == WaitingForWorker && job.currentTask == Task(t) && job.active == []
        && job.taskInfo.Some? && job.taskInfo.value.taskId.None?
        && job.retryCount == retries && job.assignee == Some(owner))
  }

  lemma TaskSent(c: Config, info: TaskInfo)
    requires c.maxTransitions >= 1 && info.taskId.None?
    ensures var w := CreateJob(EMPTY, "start", false, None);
      0 in w.messages && Awaits(Process(c, w, 0, Ran(map[], DispatchTask(info, Some(5)))), 0, 5, 0)
  {}

  lemma TaskPolled(w: World, t: TaskId, owner: WorkerId, retries: nat, worker: WorkerId, stale: TaskId)
    requires Awaits(w, t, owner, retries)
    ensures var w' := Poll(w, worker, 0, stale); Awaits(w', t, worker, retries) && w'.jobs[0].pickedUp
  {}

  lemma TaskSentAgain(c: Config, w: World, t: TaskId, owner: WorkerId, retries: nat, worker: WorkerId)
    requires Awaits(w, t, owner, retries) && w.jobs[0].pickedUp && retries < c.maxRetries
    ensures var w' := Fire(c, w, JobKey(0), Some(worker));
      Awaits(w', t + 1, worker, retries + 1) && w'.jobs[0].pickedUp
  {}

  lemma RefusedAsForeign(c: Config, w: World, t: TaskId, owner: WorkerId, retries: nat, r: Report)
    requires Awaits(w, t, owner, retries) && r.job == 0 && r.task == t && r.worker != owner
    ensures Result(c, w, r, None) == w
  {}

  lemma RefusedAsStale(c: Config, w: World, t: TaskId, owner: WorkerId, retries: nat, r: Report)
    requires Awaits(w, t, owner, retries) && r.job == 0 && r.task != t
    ensures Result(c, w, r, None) == w
  {}

  /** A late poll takes the job from the right worker. Worker 5 polls task 0 and times out; task
      1 goes to worker 6 and times out in its queue; task 2 goes to worker 7, which polls it;
      then 6 polls the old task 1. Now neither result moves the job: worker 7 has the latest id
      and is not the assignee, worker 6 is the assignee and its id is stale. */
  lemma LatePollTakesTheJob(c: Config, info: TaskInfo, good: Report, stale: Report)
      returns (run: seq<World>, acts: seq<Action>)
    requires c.maxTransitions >= 1 && c.maxRetries >= 2 && info.taskId.None?
    requires good.job == stale.job == 0 && good.task == 2 && good.worker == 7 && stale.task == 1 && stale.worker == 6
    ensures IsRun(c, run, acts) && run[0] == EMPTY && |run| == 8
    ensures acts[2..]
        == [APoll(5, 0, 0), AFire(JobKey(0), Some(6)), AFire(JobKey(0), Some(7)), APoll(7, 0, 2), APoll(6, 0, 1)]
    ensures Awaits(run[5], 2, 7, 2) && Awaits(run[7], 2, 6, 2)
    ensures Result(c, run[7], good, None) == run[7] && Result(c, run[7], stale, None) == run[7]
  {
    run, acts := SentTwiceMore(c, info);
    var w5 := run[5];
    TaskPolled(w5, 2, 7, 2, 7, 2);
    var w6 := Poll(w5, 7, 0, 2);
    TaskPolled(w6, 2, 7, 2, 6, 1);
    var w7 := Poll(w6, 6, 0, 1);
    RefusedAsForeign(c, w7, 2, 6, 2, good);
    RefusedAsStale(c, w7, 2, 6, 2, stale);
    assert 0 in w5.jobs && 0 in w6.jobs;
    hide Poll, Result, Awaits, IsRun;
    OneMore(c, run, acts, APoll(7, 0, 2));
    run, acts := run + [w6], acts + [APoll(7, 0, 2)];
    OneMore(c, run, acts, APoll(6, 0, 1));
    run, acts := run + [w7], acts + [APoll(6, 0, 1)];
  }

  lemma OneMore(c: Config, run: seq<World>, acts: seq<Action>, a: Action)
    requires IsRun(c, run, acts) && Enabled(run[|run| - 1], a)
    ensures IsRun(c, run + [Step(c, run[|run| - 1], a)], acts + [a])
  {
    hide Step, Enabled;
  }

  /** Task 0 is polled and times out, task 1 times out in its queue, task 2 is in its queue. */
  lemma SentTwiceMore(c: Config, info: TaskInfo) returns (run: seq<World>, acts: seq<Action>)
    requires c.maxTransitions >= 1 && c.maxRetries >= 2 && info.taskId.None?
    ensures IsRun(c, run, acts) && run[0] == EMPTY && |run| == 6
    ensures acts[2..] == [APoll(5, 0, 0), AFire(JobKey(0), Some(6)), AFire(JobKey(0), Some(7))]
    ensures Awaits(run[5], 2, 7, 2) && run[5].jobs[0].pickedUp
  {
    run, acts := SentOnce(c, info);
    var w2 := run[2];
    TaskPolled(w2, 0, 5, 0, 5, 0);
    var w3 := Poll(w2, 5, 0, 0);
    TaskSentAgain(c, w3, 0, 5, 0, 6);
    var w4 := Fire(c, w3, JobKey(0), Some(6));
    TaskSentAgain(c, w4, 1, 6, 1, 7);
    var w5 := Fire(c, w4, JobKey(0), Some(7));
    assert 0 in w2.jobs && JobKey(0) in w3.watch && JobKey(0) in w4.watch;
    hide Fire, Poll, Awaits, IsRun;
    OneMore(c, run, acts, APoll(5, 0, 0));
    run, acts := run + [w3], acts + [APoll(5, 0, 0)];
    OneMore(c, run, acts, AFire(JobKey(0), Some(6)));
    run, acts := run + [w4], acts + [AFire(JobKey(0), Some(6))];
    OneMore(c, run, acts, AFire(JobKey(0), Some(7)));
    run, acts := run + [w5], acts + [AFire(JobKey(0), Some(7))];
  }

  lemma SentOnce(c: Config, info: TaskInfo) returns (run: seq<World>, acts: seq<Action>)
    requires c.maxTransitions >= 1 && info.taskId.None?
    ensures IsRun(c, run, acts) && run[0] == EMPTY && |run| == 3 && Awaits(run[2], 0, 5, 0)
  {
    TaskSent(c, info);
    hide Process, CreateJob, Awaits;
    var w1 := CreateJob(EMPTY, "start", false, None);
    var first := Ran(map[], DispatchTask(info, Some(5)));
    run := [EMPTY, w1, Process(c, w1, 0, first)];
    acts := [ACreate("start", false), AProcess(0, first)];
  }
}
