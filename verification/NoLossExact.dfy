/** Exactly when a handled message leaves its job with a wake-up, and how the
    excluded handlers lose one. */
module NoLossExact {
  import opened Basics
  import opened Lifecycle
  import opened NoLoss
  import Frames

  /** Watch entries name branches that were drawn (an invariant: Ids.IdInv). */
  ghost predicate DrawnWatch(w: World) {
    forall j: JobId, b: TaskId :: BranchKey(j, b) in w.watch ==> b < w.nextTask
  }

  /** Job j is about to be handled for its only message. */
  ghost predicate AboutToRun(w: World, j: JobId) {
    && Inv(w) && DrawnWatch(w) && j in w.jobs && w.jobs[j].child.None? && Ready(w.jobs[j].status)
    && w.messages[j] == 1
  }

  predicate TransitionsLeft(c: Config, w: World, j: JobId) {
    j in w.jobs && w.jobs[j].transitionCount < c.maxTransitions
  }

  predicate RetriesLeft(c: Config, w: World, j: JobId) { j in w.jobs && w.jobs[j].retryCount < c.maxRetries }

  lemma NoActionUnwires(c: Config, w: World, j: JobId, updates: map<string, Data>, valid: bool)
    requires AboutToRun(w, j) && TransitionsLeft(c, w, j)
    ensures !Wired(Process(c, w, j, Ran(updates, NoAction(false, valid))), j)
  {}

  lemma EmptyFanOutUnwires(c: Config, w: World, j: JobId, updates: map<string, Data>, into: State,
                           workers: seq<WorkerId>)
    requires AboutToRun(w, j) && TransitionsLeft(c, w, j)
    ensures !Wired(Process(c, w, j, Ran(updates, FanOut([], into, workers))), j)
  {}

  /** The branches whose dispatch did not happen stay outstanding and unwatched. */
  lemma {:induction false} Undispatched(w: World, j: JobId, tasks: seq<TaskInfo>, ids: seq<TaskId>,
                                        workers: seq<WorkerId>, n: nat, b: TaskId)
    requires j in w.jobs && n <= |tasks| == |ids| && n <= |workers|
    requires w.jobs[j].active == ids && BranchKey(j, b) !in w.watch && b !in ids[..n]
    ensures var w' := DispatchBranches(w, j, tasks, ids, workers, n);
      BranchKey(j, b) !in w'.watch && w'.messages == w.messages
  {
    if n > 0 {
      assert ids[..n] == ids[..n - 1] + [ids[n - 1]];
      Undispatched(w, j, tasks, ids, workers, n - 1, b);
      var before := DispatchBranches(w, j, tasks, ids, workers, n - 1);
      assert before.jobs[j].active == ids by { ActiveKept(w, j, tasks, ids, workers, n - 1); }
      BranchDispatched(before, j, tasks[n - 1], ids[n - 1], workers[n - 1]);
    }
  }

  lemma {:induction false} ActiveKept(w: World, j: JobId, tasks: seq<TaskInfo>, ids: seq<TaskId>,
                                      workers: seq<WorkerId>, n: nat)
    requires j in w.jobs && n <= |tasks| == |ids| && n <= |workers| && w.jobs[j].active == ids
    ensures var job := w.jobs[j]; var job' := DispatchBranches(w, j, tasks, ids, workers, n).jobs[j];
      job' == job.(branchWorkers := job'.branchWorkers, branchInfo := job'.branchInfo, currentTask := job'.currentTask)
  {
    if n > 0 {
      ActiveKept(w, j, tasks, ids, workers, n - 1);
      BranchDispatched(DispatchBranches(w, j, tasks, ids, workers, n - 1), j, tasks[n - 1], ids[n - 1], workers[n - 1]);
    }
  }

  lemma HeldFanOut(w: World, j: JobId, job: Job, tasks: seq<TaskInfo>, into: State, workers: seq<WorkerId>)
    requires j in w.jobs && DrawnWatch(w) && |workers| < |tasks|
    ensures var ids, n := FreshIds(w.nextTask, |tasks|), |workers|;
      var done := DispatchBranches(StartFanOut(w, j, job, into, |tasks|), j, tasks, ids, workers, n);
      && done.jobs[j].active == ids && done.jobs[j].retryCount == job.retryCount
      && done.jobs[j].child == job.child
      && BranchKey(j, ids[n]) !in done.watch
  {
    var n, ids := |workers|, FreshIds(w.nextTask, |tasks|);
    var started := StartFanOut(w, j, job, into, |tasks|);
    assert ids[n] !in ids[..n];
    Undispatched(started, j, tasks, ids, workers, n, ids[n]);
    ActiveKept(started, j, tasks, ids, workers, n);
  }

  /** The store after a fan-out whose dispatch number |workers| raised. */
  lemma BrokenFanOut(c: Config, w: World, j: JobId, updates: map<string, Data>, tasks: seq<TaskInfo>, into: State,
                     workers: seq<WorkerId>)
    requires AboutToRun(w, j) && TransitionsLeft(c, w, j) && RetriesLeft(c, w, j) && |workers| < |tasks|
    ensures var w' := Process(c, w, j, Ran(updates, FanOut(tasks, into, workers)));
      && j in w'.jobs && w'.jobs[j].status == AwaitingRetry && w'.jobs[j].child.None?
      && w'.jobs[j].active == FreshIds(w.nextTask, |tasks|)
      && BranchKey(j, w.nextTask + |workers|) !in w'.watch
  {
    hide FanOutStep, Inv;
    var job := Counted(w.jobs[j]).(history := w.jobs[j].history + updates);
    RaisedFanOut(c, LogHandler(w, j), j, job, tasks, into, workers);
  }

  lemma RaisedFanOut(c: Config, w: World, j: JobId, job: Job, tasks: seq<TaskInfo>, into: State, workers: seq<WorkerId>)
    requires j in w.jobs && DrawnWatch(w) && |workers| < |tasks| && job.retryCount < c.maxRetries && job.child.None?
    ensures var w' := FanOutStep(c, w, j, job, tasks, into, workers);
      && j in w'.jobs && w'.jobs[j].status == AwaitingRetry && w'.jobs[j].child.None?
      && w'.jobs[j].active == FreshIds(w.nextTask, |tasks|)
      && BranchKey(j, w.nextTask + |workers|) !in w'.watch
  {
    hide DispatchBranches, StartFanOut;
    HeldFanOut(w, j, job, tasks, into, workers);
  }

  /** A fan-out with tasks, one of which found no worker. */
  predicate Broken(run: HandlerRun) {
    run.Ran? && run.outcome.FanOut? && run.outcome.tasks != [] && |run.outcome.workers| < |run.outcome.tasks|
  }

  /** A ready job's only message leaves it wired, and all its outstanding branches watched, if and
      only if it has no transitions left and fails, or the handler acted (or stands in an end
      state) and a fan-out has tasks and a worker for each, or a broken fan-out finds no retries
      left and ends in quarantine. */
  lemma KeptExactlyWhenSound(c: Config, w: World, j: JobId, run: HandlerRun)
    requires AboutToRun(w, j) && PlainTasks(run)
    ensures j in Process(c, w, j, run).jobs
    ensures Kept(Process(c, w, j, run), j)
       <==> !TransitionsLeft(c, w, j) || Sound(run) || (Broken(run) && !RetriesLeft(c, w, j))
  {
    if !TransitionsLeft(c, w, j) {
      ExceededKept(c, w, j, run);
    } else if Sound(run) {
      SoundKept(c, w, j, run);
    } else if run.outcome.NoAction? {
      NoActionUnwires(c, w, j, run.updates, run.outcome.outputValid);
    } else if run.outcome.tasks == [] {
      EmptyFanOutUnwires(c, w, j, run.updates, run.outcome.into, run.outcome.workers);
    } else if RetriesLeft(c, w, j) {
      BrokenUnkept(c, w, j, run.updates, run.outcome.tasks, run.outcome.into, run.outcome.workers);
    } else {
      BrokenQuarantined(c, w, j, run.updates, run.outcome.tasks, run.outcome.into, run.outcome.workers);
    }
  }

  lemma ExceededKept(c: Config, w: World, j: JobId, run: HandlerRun)
    requires AboutToRun(w, j) && !TransitionsLeft(c, w, j)
    ensures j in Process(c, w, j, run).jobs && Kept(Process(c, w, j, run), j)
  {
    ExceededProcess(w, j);
    var w' := Ack(Save(w, j, w.jobs[j].(status := Failed)), j);
    assert Process(c, w, j, run) == w' && j in w'.jobs;
    assert Linked(w', j) && Kept(w', j);
    hide Process;
  }

  lemma SoundKept(c: Config, w: World, j: JobId, run: HandlerRun)
    requires AboutToRun(w, j) && PlainTasks(run) && Sound(run)
    ensures j in Process(c, w, j, run).jobs && Kept(Process(c, w, j, run), j)
  {
    hide Process, Kept;
    ProcessKeeps(c, w, j, run);
    Frames.ProcessTouches(c, w, j, run);
    assert Linked(Process(c, w, j, run), j);
  }

  lemma BrokenUnkept(c: Config, w: World, j: JobId, updates: map<string, Data>, tasks: seq<TaskInfo>, into: State,
                     workers: seq<WorkerId>)
    requires AboutToRun(w, j) && TransitionsLeft(c, w, j) && RetriesLeft(c, w, j) && |workers| < |tasks|
    ensures var w' := Process(c, w, j, Ran(updates, FanOut(tasks, into, workers)));
      j in w'.jobs && !Kept(w', j)
  {
    hide Process;
    BrokenFanOut(c, w, j, updates, tasks, into, workers);
    assert FreshIds(w.nextTask, |tasks|)[|workers|] == w.nextTask + |workers|;
  }

  /** Without retries left the broken fan-out ends in quarantine, where nothing is needed. */
  lemma BrokenQuarantined(c: Config, w: World, j: JobId, updates: map<string, Data>, tasks: seq<TaskInfo>, into: State,
                          workers: seq<WorkerId>)
    requires AboutToRun(w, j) && TransitionsLeft(c, w, j) && !RetriesLeft(c, w, j) && |workers| < |tasks|
    ensures var w' := Process(c, w, j, Ran(updates, FanOut(tasks, into, workers)));
      j in w'.jobs && Kept(w', j) && w'.jobs[j].status == Quarantined
  {
    var job := Counted(w.jobs[j]).(history := w.jobs[j].history + updates);
    var logged := LogHandler(w, j);
    HandlerHolds(w, j, updates, true);
    assert Parents(logged) && job.child.None?;
    hide FanOutStep, Inv, Underway, Parents, DrawnWatch, Kept;
    QuarantinedFanOut(c, logged, j, job, tasks, into, workers);
  }

  lemma QuarantinedFanOut(c: Config, w: World, j: JobId, job: Job, tasks: seq<TaskInfo>, into: State,
                          workers: seq<WorkerId>)
    requires Underway(w, j, job) && Parents(w) && job.child.None?
    requires |workers| < |tasks| && job.retryCount >= c.maxRetries
    ensures var w' := FanOutStep(c, w, j, job, tasks, into, workers);
      j in w'.jobs && Kept(Ack(w', j), j) && w'.jobs[j].status == Quarantined
  {
    var ids, n := FreshIds(w.nextTask, |tasks|), |workers|;
    var started := StartFanOut(w, j, job, into, |tasks|);
    BranchesDispatched(started, j, tasks, ids, workers, n);
    var done := DispatchBranches(started, j, tasks, ids, workers, n);
    var held := done.jobs[j].(branchInfo := done.jobs[j].branchInfo[ids[n] := BranchTask(tasks[n], ids[n])]);
    assert FanOutStep(c, w, j, job, tasks, into, workers) == FailHandler(c, done, j, held);
    assert started.jobs[j] == FanOutJob(job, into, ids) && started.jobs == w.jobs[j := FanOutJob(job, into, ids)];
    assert started.nextTask == w.nextTask + |tasks|;
    hide DispatchBranches, FanOutStep, StartFanOut, Underway, Parents;
    UnderwayDone(w, started, done, j, job, ids[..n], tasks[n], ids[n]);
    assert held.active == ids && held.retryCount == job.retryCount && held.child.None?;
    hide Dispatched, FreshIds;
    EndsQuarantined(c, done, j, held);
  }

  lemma EndsQuarantined(c: Config, w: World, j: JobId, job: Job)
    requires LinkedTo(w, j, job) && Parents(w) && job.child.None? && job.retryCount >= c.maxRetries
    requires forall i, k :: 0 <= i < k < |job.active| ==> job.active[i] != job.active[k]
    ensures var w' := FailHandler(c, w, j, job);
      j in w'.jobs && Kept(Ack(w', j), j) && w'.jobs[j].status == Quarantined
  {
    hide ResumeParent, ReachEnd, LinkedTo, Parents, Kept;
    QuarantineKeeps(w, j, job);
    QuarantineStatus(w, j, job);
    KeptAtEnd(FailHandler(c, w, j, job), j);
  }

  lemma KeptAtEnd(w: World, j: JobId)
    requires j in w.jobs && Kept(w, j) && Terminal(w.jobs[j].status)
    ensures Kept(Ack(w, j), j)
  {}

  lemma QuarantineStatus(w: World, j: JobId, job: Job)
    requires LinkedTo(w, j, job) && Parents(w)
    ensures var w' := ResumeParent(Quarantine(ReachEnd(w, j, job, Quarantined, true), j), j, job.current);
      j in w'.jobs && w'.jobs[j].status == Quarantined
  {
    hide Local, ResumeParent;
    ReachEndLocal(w, j, job, job.(status := Quarantined));
    ResumeKeeps(Quarantine(ReachEnd(w, j, job, Quarantined, true), j), j, job.current);
  }

  /** The record of the branch whose dispatch raised is as well linked as the job was. */
  lemma UnderwayDone(w: World, started: World, done: World, j: JobId, job: Job, ids: seq<TaskId>, info: TaskInfo,
                     b: TaskId)
    requires Underway(w, j, job) && Parents(w) && j in started.jobs && Dispatched(started, done, j, ids)
    requires started.jobs[j].child == job.child && started.jobs == w.jobs[j := started.jobs[j]]
    requires started.parents == w.parents && started.nextJob == w.nextJob
    requires started.jobs[j].taskInfo == job.taskInfo
    requires forall b :: b in started.jobs[j].active ==> b < started.nextTask
    ensures LinkedTo(done, j, done.jobs[j].(branchInfo := done.jobs[j].branchInfo[b := BranchTask(info, b)]))
    ensures Parents(done)
  {
    DoneParents(w, started, done, j, ids);
    hide Parents;
  }

  lemma DoneParents(w: World, started: World, done: World, j: JobId, ids: seq<TaskId>)
    requires Parents(w) && j in w.jobs && j in started.jobs && Dispatched(started, done, j, ids)
    requires started.jobs[j].child == w.jobs[j].child && started.jobs == w.jobs[j := started.jobs[j]]
    requires started.parents == w.parents && started.nextJob == w.nextJob
    ensures Parents(done)
  {}

  /** One of two branches was dispatched, the other is outstanding and unwatched. */
  ghost predicate HalfFannedOut(w: World) {
    && 0 in w.jobs && BranchKey(0, 0) in w.watch && BranchKey(0, 1) !in w.watch
    && (var job := w.jobs[0];
        job.status == AwaitingRetry && Outstanding(job))
  }

  lemma OneOfTwoDispatched(c: Config, tasks: seq<TaskInfo>, into: State, worker: WorkerId)
    requires c.maxTransitions >= 1 && c.maxRetries >= 1 && |tasks| == 2
    ensures var w := CreateJob(EMPTY, "start", false, None);
      var w' := Process(c, w, 0, Ran(map[], FanOut(tasks, into, [worker])));
      0 in w.messages && HalfFannedOut(w') && w'.messages[0] == 1 && w'.jobs[0].transitionCount == 1
  {
    var w := LogHandler(CreateJob(EMPTY, "start", false, None), 0);
    var job := Counted(w.jobs[0]);
    var started := StartFanOut(w, 0, job, into, 2);
    assert FreshIds(0, 2) == [0, 1];
    assert job.history + map[] == job.history;
    BranchDispatched(started, 0, tasks[0], 0, worker);
    assert DispatchBranches(started, 0, tasks, FreshIds(0, 2), [worker], 0) == started;
  }

  /** The aggregator that the retry runs asks a human: the branches stay outstanding, and no
      message is left. */
  lemma HalfFannedOutWaits(c: Config, w: World)
    requires HalfFannedOut(w) && w.messages[0] == 1 && w.jobs[0].transitionCount == 1 && c.maxTransitions >= 2
    ensures var w' := Process(c, w, 0, Ran(map[], AwaitHuman(map[])));
      && 0 in w'.jobs && 0 !in w'.messages && BranchKey(0, 0) in w'.watch && BranchKey(0, 1) !in w'.watch
      && w'.jobs[0].status == WaitingForHuman && Outstanding(w'.jobs[0])
  {}

  /** Of branches 0 and 1 the first may be sent out again. */
  predicate Outstanding(job: Job) {
    && job.active == [0, 1] && job.child.None? && job.branchRetries == map[]
    && 0 in job.branchInfo && job.branchInfo[0].taskId == Some(0)
  }

  lemma WaitingForNobody(c: Config, w: World, worker: WorkerId)
    requires c.maxRetries >= 1 && 0 in w.jobs && Outstanding(w.jobs[0]) && w.jobs[0].status == WaitingForHuman
    requires BranchKey(0, 0) in w.watch && BranchKey(0, 1) !in w.watch && 0 !in w.messages
    ensures var w' := Fire(c, w, BranchKey(0, 0), Some(worker));
      && 0 in w'.jobs && w'.jobs[0].child.None? && w'.jobs[0].status == WaitingForParallel && !Wired(w', 0)
      && 1 in w'.jobs[0].active && BranchKey(0, 1) !in w'.watch && 0 !in w'.messages
  {
    assert w.jobs[0].active[0] == 0 && w.jobs[0].active[1] == 1;
  }

  /** The run that loses a job: the second branch finds no worker, the handler run that the retry
      brings asks a human, the first branch times out, and the job then waits for a branch that
      nobody was given and nothing watches, without a message. */
  lemma BrokenFanOutLosesJob(c: Config, first: TaskInfo, second: TaskInfo, into: State, worker: WorkerId)
    returns (run: seq<World>, acts: seq<Action>)
    requires c.maxTransitions >= 2 && c.maxRetries >= 1
    ensures IsRun(c, run, acts) && run[0] == EMPTY && |acts| == 4
    ensures 0 in run[4].jobs && run[4].jobs[0].child.None? && run[4].jobs[0].status == WaitingForParallel
    ensures 1 in run[4].jobs[0].active && BranchKey(0, 1) !in run[4].watch && 0 !in run[4].messages
    ensures !Wired(run[4], 0)
  {
    hide Process, Fire, CreateJob, HalfFannedOut;
    OneOfTwoDispatched(c, [first, second], into, worker);
    var w1 := CreateJob(EMPTY, "start", false, None);
    var broken := Ran(map[], FanOut([first, second], into, [worker]));
    var w2 := Process(c, w1, 0, broken);
    HalfFannedOutWaits(c, w2);
    var asks := Ran(map[], AwaitHuman(map[]));
    var w3 := Process(c, w2, 0, asks);
    WaitingForNobody(c, w3, worker);
    var w4 := Fire(c, w3, BranchKey(0, 0), Some(worker));
    run := [EMPTY, w1, w2, w3, w4];
    acts := [ACreate("start", false), AProcess(0, broken), AProcess(0, asks), AFire(BranchKey(0, 0), Some(worker))];
  }
}
