/** No job is lost: in every reachable store each job that is not at rest has
    something that will wake it up. Jobs that ran a sub-blueprint are exempt:
    a child resumes its parent whatever the parent is doing. */
module NoLoss {
  import opened Basics
  import opened Lifecycle

  predicate Ready(s: Status) { s == Pending || s == Running || s == AwaitingRetry }

  /** Nothing inside the orchestrator has to happen next. */
  predicate AtRest(s: Status) {
    Terminal(s) || s == WaitingForHuman || s == WaitingForSubJob || s == Cancelled
  }

  /** The claim itself. */
  ghost predicate Wired(w: World, j: JobId)
    requires j in w.jobs
  {
    var job := w.jobs[j];
    && (Ready(job.status) ==> j in w.messages)
    && (job.status == WaitingForWorker ==> JobKey(j) in w.watch)
    && (job.status == WaitingForParallel ==>
          job.active != [] && forall b :: b in job.active ==> BranchKey(j, b) in w.watch)
  }

  /** What makes the claim inductive: an outstanding branch of any live job stays
      watched and re-dispatchable, because a timeout may bring the job back to
      waiting for it. */
  ghost predicate BranchesKept(w: World, j: JobId)
    requires j in w.jobs
  {
    var job := w.jobs[j];
    && (forall i, k :: 0 <= i < k < |job.active| ==> job.active[i] != job.active[k])
    && (!Terminal(job.status) ==>
          && (job.active != [] ==> job.target.Some?)
          && forall b :: b in job.active ==> BranchKey(j, b) in w.watch && b in job.branchInfo)
  }

  ghost predicate Kept(w: World, j: JobId)
    requires j in w.jobs
  {
    w.jobs[j].child.None? ==> Wired(w, j) && BranchesKept(w, j)
  }

  /** Single tasks carry no id of their own, branch tasks carry their branch's; ids were drawn. */
  ghost predicate PlainInfo(w: World, job: Job) {
    && (forall b :: b in job.active ==> b < w.nextTask)
    && (job.taskInfo.Some? ==> job.taskInfo.value.taskId.None?)
    && (forall b :: b in job.branchInfo ==> job.branchInfo[b].taskId == Some(b))
  }

  ghost predicate Linked(w: World, j: JobId)
    requires j in w.jobs
  {
    && j < w.nextJob
    && PlainInfo(w, w.jobs[j])
  }

  /** Whoever has a child ran a sub-blueprint. */
  ghost predicate Parents(w: World) {
    forall j :: j in w.parents ==>
      j < w.nextJob && w.parents[j] in w.jobs && w.parents[j] != j && w.jobs[w.parents[j]].child.Some?
  }

  ghost predicate Inv(w: World) {
    Parents(w) && forall j :: j in w.jobs ==> Linked(w, j) && Kept(w, j)
  }

  /** The handler chose an action unless it is an end state, and a fan-out has tasks, all of
      which found a worker. */
  predicate Sound(run: HandlerRun) {
    run.Ran? ==>
      match run.outcome
      case NoAction(isEnd, _) => isEnd
      case FanOut(tasks, _, workers) => tasks != [] && |tasks| <= |workers|
      case _ => true
  }

  predicate SoundAction(a: Action) { a.AProcess? ==> Sound(a.run) }

  /** w' differs from w at most in job j, in jobs that ran a sub-blueprint, in extra
      messages and in watch entries of j. */
  ghost predicate Local(w: World, w': World, j: JobId) {
    && w.jobs.Keys == w'.jobs.Keys && w'.parents == w.parents
    && w'.nextJob == w.nextJob && w.nextTask <= w'.nextTask
    && (forall k :: k in w.jobs && k != j ==>
          w'.jobs[k] == w.jobs[k]
          || (w.jobs[k].child.Some? && w'.jobs[k].child.Some?
              && w'.jobs[k].taskInfo == w.jobs[k].taskInfo && w'.jobs[k].branchInfo == w.jobs[k].branchInfo
              && w'.jobs[k].active == w.jobs[k].active))
    && (j in w.jobs ==> w'.jobs[j].child == w.jobs[j].child)
    && (forall k :: k != j && k in w.messages ==> k in w'.messages)
    && (forall k: WatchKey :: k.job != j && k in w.watch ==> k in w'.watch)
  }

  /** A local change that leaves job j in order. */
  ghost predicate Moves(w: World, w': World, j: JobId) {
    j in w'.jobs && Local(w, w', j) && Kept(w', j) && PlainInfo(w', w'.jobs[j])
  }

  lemma MovesKeepInv(w: World, w': World, j: JobId)
    requires Inv(w) && Moves(w, w', j)
    ensures Inv(w')
  {
    LocalKeepsParents(w, w', j);
    forall k | k in w'.jobs ensures Linked(w', k) && Kept(w', k) {
      assert Linked(w, k) && Kept(w, k);
    }
  }

  lemma LocalKeepsParents(w: World, w': World, j: JobId)
    requires Parents(w) && Local(w, w', j)
    ensures Parents(w')
  {}

  lemma LocalTrans(a: World, b: World, c: World, j: JobId)
    requires Local(a, b, j) && Local(b, c, j)
    ensures Local(a, c, j)
  {}

  predicate SameKin(job: Job, saved: Job) { saved.child == job.child }

  // ------------------------------------------------ the pieces of a step

  lemma DispatchKeeps(w: World, j: JobId, info: TaskInfo, worker: WorkerId)
    requires j in w.jobs && Kept(w, j) && PlainInfo(w, w.jobs[j])
    requires (w.jobs[j].status == WaitingForWorker && info.taskId.None?)
          || (w.jobs[j].status == WaitingForParallel && info.taskId.Some? && info.taskId.value in w.jobs[j].active)
    ensures Moves(w, Dispatch(w, j, info, worker), j)
    ensures Dispatch(w, j, info, worker).jobs[j].status == w.jobs[j].status
    ensures Dispatch(w, j, info, worker).messages == w.messages
  {
  }

  lemma RedispatchKeeps(w: World, k: WatchKey, j: JobId, job: Job, info: TaskInfo, worker: Option<WorkerId>)
    requires j in w.jobs && SameKin(w.jobs[j], job) && k.job == j
    requires Kept(Save(Watch(w, k), j, job), j) && PlainInfo(w, job)
    requires (job.status == WaitingForWorker && info.taskId.None?)
          || (job.status == WaitingForParallel && info.taskId.Some? && info.taskId.value in job.active)
    ensures Moves(w, Redispatch(w, k, j, job, info, worker), j)
  {
    var saved := Save(Watch(w, k), j, job);
    if worker.Some? {
      DispatchKeeps(saved, j, info, worker.value);
      LocalTrans(w, saved, Redispatch(w, k, j, job, info, worker), j);
    }
  }

  /** `job` is what the actor holds of job j: its branches are kept, perhaps once `watched` is watched again. */
  ghost predicate Holds(w: World, j: JobId, job: Job, watched: set<WatchKey>) {
    && j in w.jobs && SameKin(w.jobs[j], job) && PlainInfo(w, job)
    && (job.child.None? ==> BranchesKept(Save(w.(watch := w.watch + watched), j, job), j))
  }

  lemma RestKeeps(w: World, j: JobId, job: Job)
    requires j in w.jobs && SameKin(w.jobs[j], job) && PlainInfo(w, job)
    requires AtRest(job.status)
    requires job.child.None? ==> BranchesKept(Save(w, j, job), j)
    ensures Moves(w, Save(w, j, job), j)
    ensures Moves(w, Quarantine(Save(w, j, job), j), j)
  {
  }

  lemma FailBranchKeeps(c: Config, w: World, j: JobId, job: Job, t: TaskId, worker: Option<WorkerId>)
    requires Holds(w, j, job, {BranchKey(j, t)}) && t in job.active && !Terminal(job.status)
    requires t !in job.branchInfo ==> Kept(w, j) && PlainInfo(w, w.jobs[j])
    ensures Moves(w, FailBranch(c, w, j, job, t, worker), j)
  {
    if RetriesOf(job, t) >= c.maxRetries {
      RestKeeps(w, j, job.(status := Quarantined));
    } else if t in job.branchInfo {
      RedispatchKeeps(w, BranchKey(j, t), j, RetriedBranch(job, t), job.branchInfo[t], worker);
    }
  }

  lemma RetrySingleKeeps(w: World, j: JobId, job: Job, worker: Option<WorkerId>)
    requires Holds(w, j, job, {}) && job.taskInfo.Some? && !Terminal(job.status)
    ensures Moves(w, Redispatch(w, JobKey(j), j, RetriedSingle(job), job.taskInfo.value, worker), j)
  {
    RedispatchKeeps(w, JobKey(j), j, RetriedSingle(job), job.taskInfo.value, worker);
  }

  lemma FailSingleKeeps(c: Config, w: World, j: JobId, job: Job, worker: Option<WorkerId>)
    requires Holds(w, j, job, {}) && !Terminal(job.status)
    ensures Moves(w, FailSingle(c, w, j, job, worker), j)
  {
    hide Moves;
    if job.retryCount >= c.maxRetries {
      RestKeeps(w, j, job.(status := Quarantined));
    } else if job.taskInfo.None? {
      RestKeeps(w, j, job.(retryCount := job.retryCount + 1, status := Failed));
    } else {
      RetrySingleKeeps(w, j, job, worker);
    }
  }

  lemma FailTaskKeeps(c: Config, w: World, j: JobId, job: Job, t: TaskRef, worker: Option<WorkerId>)
    requires !Terminal(job.status) && Holds(w, j, job, if IsBranch(job, t) then {BranchKey(j, t.id)} else {})
    requires PlainInfo(w, w.jobs[j])
    ensures Moves(w, FailTask(c, w, j, job, t, worker), j)
  {
    hide Moves;
    if IsBranch(job, t) {
      FailBranchKeeps(c, w, j, job, t.id, worker);
    } else {
      FailSingleKeeps(c, w, j, job, worker);
    }
  }

  // ------------------------------------------------ ends

  lemma ResumeKeeps(w: World, j: JobId, end: State)
    requires j in w.jobs && Parents(w)
    ensures var w' := ResumeParent(w, j, end);
      && Local(w, w', j) && w'.jobs[j] == w.jobs[j] && w'.messages[j] == w.messages[j] && w'.watch == w.watch
      && w'.nextTask == w.nextTask && Parents(w')
  {
  }

  /** The job ends or waits, or it is ready and got a message of its own. */
  ghost predicate Settles(w: World, w': World, j: JobId) {
    && Moves(w, w', j)
    && (Ready(w'.jobs[j].status) ==> w'.messages[j] > w.messages[j])
  }

  ghost predicate LinkedTo(w: World, j: JobId, job: Job) {
    && j in w.jobs && SameKin(w.jobs[j], job) && PlainInfo(w, job) && Linked(w, j)
  }

  lemma SaveLocal(w: World, j: JobId, job: Job)
    requires j in w.jobs && SameKin(w.jobs[j], job) && Parents(w)
    ensures Local(w, Save(w, j, job), j) && Parents(Save(w, j, job)) && Parents(Quarantine(Save(w, j, job), j))
  {}

  lemma ReachEndLocal(w: World, j: JobId, job: Job, ended: Job)
    requires LinkedTo(w, j, job) && SameKin(job, ended) && Parents(w)
    ensures var w' := ResumeParent(Save(ResumeParent(w, j, job.current), j, ended), j, job.current);
      j in w'.jobs && Local(w, w', j) && w'.jobs[j] == ended && w'.nextTask == w.nextTask && Parents(w')
  {
    hide Local, ResumeParent;
    var w1 := ResumeParent(w, j, job.current);
    ResumeKeeps(w, j, job.current);
    var w2 := Save(w1, j, ended);
    LocalKeys(w, w1, j);
    SaveLocal(w1, j, ended);
    LocalTrans(w, w1, w2, j);
    ResumeKeeps(w2, j, job.current);
    LocalTrans(w, w2, ResumeParent(w2, j, job.current), j);
  }

  lemma LocalKeys(w: World, w': World, j: JobId)
    requires Local(w, w', j)
    ensures w'.jobs.Keys == w.jobs.Keys
  {}

  lemma ReachEndKeeps(w: World, j: JobId, job: Job, status: Status, outputValid: bool)
    requires LinkedTo(w, j, job) && Terminal(status) && Parents(w)
    requires job.child.None? ==> forall i, k :: 0 <= i < k < |job.active| ==> job.active[i] != job.active[k]
    ensures Settles(w, ReachEnd(w, j, job, status, outputValid), j)
  {
    var ended := job.(status := if status == Finished && !outputValid then Failed else status);
    assert PlainInfo(w, ended);
    hide ResumeParent, Local, Settles, Parents, PlainInfo, Linked;
    ReachEndLocal(w, j, job, ended);
    EndedSettles(w, ReachEnd(w, j, job, status, outputValid), j, ended);
  }

  /** An ended job needs nothing. */
  lemma EndedSettles(w: World, w': World, j: JobId, ended: Job)
    requires j in w'.jobs && Local(w, w', j) && w'.jobs[j] == ended && w'.nextTask == w.nextTask
    requires Terminal(ended.status) && PlainInfo(w, ended)
    requires ended.child.None? ==> forall i, k :: 0 <= i < k < |ended.active| ==> ended.active[i] != ended.active[k]
    ensures Settles(w, w', j)
  {
    hide Local;
  }

  lemma QuarantineKeeps(w: World, j: JobId, job: Job)
    requires LinkedTo(w, j, job) && Parents(w)
    requires job.child.None? ==> forall i, k :: 0 <= i < k < |job.active| ==> job.active[i] != job.active[k]
    ensures Settles(w, ResumeParent(Quarantine(ReachEnd(w, j, job, Quarantined, true), j), j, job.current), j)
  {
    hide Local, ResumeParent;
    ReachEndLocal(w, j, job, job.(status := Quarantined));
    var w1 := Quarantine(ReachEnd(w, j, job, Quarantined, true), j);
    LocalQuarantine(w, ReachEnd(w, j, job, Quarantined, true), j);
    ResumeKeeps(w1, j, job.current);
    LocalTrans(w, w1, ResumeParent(w1, j, job.current), j);
  }

  lemma RetryHandlerKeeps(w: World, j: JobId, job: Job)
    requires LinkedTo(w, j, job) && !Terminal(job.status)
    requires job.child.None? ==> BranchesKept(Save(w, j, job), j)
    ensures Settles(w, Enqueue(Save(w, j, job.(retryCount := job.retryCount + 1, status := AwaitingRetry)), j), j)
  {
  }

  lemma FailHandlerKeeps(c: Config, w: World, j: JobId, job: Job)
    requires Parents(w) && LinkedTo(w, j, job) && !Terminal(job.status)
    requires job.child.None? ==> BranchesKept(Save(w, j, job), j)
    ensures Settles(w, FailHandler(c, w, j, job), j)
  {
    hide Settles;
    if job.retryCount >= c.maxRetries {
      QuarantineKeeps(w, j, job);
    } else {
      RetryHandlerKeeps(w, j, job);
    }
  }

  lemma LocalQuarantine(w: World, w': World, j: JobId)
    requires Local(w, w', j)
    ensures Local(w, Quarantine(w', j), j)
  {}

  // ------------------------------------------------ fan-out

  lemma BranchDispatched(w: World, j: JobId, info: TaskInfo, b: TaskId, worker: WorkerId)
    requires j in w.jobs && b in w.jobs[j].active
    ensures var w' := Dispatch(w, j, BranchTask(info, b), worker); var job := w.jobs[j];
      w' == w.(jobs := w.jobs[j := job.(branchWorkers := job.branchWorkers[b := worker],
                                        branchInfo := job.branchInfo[b := BranchTask(info, b)],
                                            currentTask := Task(b))],
               watch := w.watch + {BranchKey(j, b)},
               log := w.log + [TaskEnqueued(worker, j, b, true)])
  {}

  /** What a fan-out has done to the job after some of its dispatches. */
  ghost predicate Dispatched(w: World, w': World, j: JobId, ids: seq<TaskId>)
    requires j in w.jobs
  {
    && w'.jobs.Keys == w.jobs.Keys && w'.messages == w.messages
    && w'.nextTask == w.nextTask && w'.nextJob == w.nextJob && w'.parents == w.parents
    && w.watch <= w'.watch && (forall k :: k in w.jobs && k != j ==> w'.jobs[k] == w.jobs[k])
    && (var job' := w'.jobs[j];
        && job' == w.jobs[j].(branchWorkers := job'.branchWorkers, branchInfo := job'.branchInfo,
                              currentTask := job'.currentTask)
        && (forall b :: b in job'.branchInfo ==> job'.branchInfo[b].taskId == Some(b))
        && (forall b :: b in ids ==> BranchKey(j, b) in w'.watch && b in job'.branchInfo))
  }

  lemma BranchAdded(w: World, before: World, j: JobId, info: TaskInfo, ids: seq<TaskId>, b: TaskId, worker: WorkerId)
    requires j in w.jobs && j in before.jobs && Dispatched(w, before, j, ids) && b in w.jobs[j].active
    ensures Dispatched(w, Dispatch(before, j, BranchTask(info, b), worker), j, ids + [b])
  {
    BranchDispatched(before, j, info, b, worker);
  }

  lemma {:induction false} BranchesDispatched(w: World, j: JobId, tasks: seq<TaskInfo>, ids: seq<TaskId>,
                                              workers: seq<WorkerId>, n: nat)
    requires j in w.jobs && n <= |tasks| == |ids| && n <= |workers| && w.jobs[j].active == ids
    requires w.jobs[j].branchInfo == map[]
    ensures Dispatched(w, DispatchBranches(w, j, tasks, ids, workers, n), j, ids[..n])
  {
    hide Dispatch, BranchTask, Dispatched;
    if n == 0 {
      NoneDispatched(w, j);
      assert ids[..0] == [];
    } else {
      BranchesDispatched(w, j, tasks, ids, workers, n - 1);
      var before := DispatchBranches(w, j, tasks, ids, workers, n - 1);
      assert ids[n - 1] in w.jobs[j].active;
      BranchAdded(w, before, j, tasks[n - 1], ids[..n - 1], ids[n - 1], workers[n - 1]);
      assert ids[..n] == ids[..n - 1] + [ids[n - 1]];
    }
  }

  lemma NoneDispatched(w: World, j: JobId)
    requires j in w.jobs && w.jobs[j].branchInfo == map[]
    ensures Dispatched(w, w, j, [])
  {}

  lemma FanOutKeeps(c: Config, w: World, j: JobId, job: Job, tasks: seq<TaskInfo>, into: State, workers: seq<WorkerId>)
    requires LinkedTo(w, j, job) && tasks != [] && |tasks| <= |workers|
    ensures Settles(w, FanOutStep(c, w, j, job, tasks, into, workers), j)
  {
    var ids := FreshIds(w.nextTask, |tasks|);
    var started := StartFanOut(w, j, job, into, |tasks|);
    BranchesDispatched(started, j, tasks, ids, workers, |tasks|);
    assert ids[..|tasks|] == ids;
    FanOutSettled(w, started, DispatchBranches(started, j, tasks, ids, workers, |tasks|), j, job, into, ids);
  }

  lemma FanOutSettled(w: World, started: World, w': World, j: JobId, job: Job, into: State, ids: seq<TaskId>)
    requires LinkedTo(w, j, job) && ids == FreshIds(w.nextTask, |ids|) && ids != []
    requires started == StartFanOut(w, j, job, into, |ids|)
    requires Dispatched(started, w', j, ids)
    ensures Settles(w, w', j)
  {
  }

  // ------------------------------------------------ one message

  /** What `_process_job` holds when the handler has run. */
  ghost predicate Underway(w: World, j: JobId, job: Job) {
    && LinkedTo(w, j, job) && !Terminal(job.status)
    && (job.child.None? ==> BranchesKept(Save(w, j, job), j))
  }

  lemma GoToKeeps(w: World, j: JobId, job: Job, next: State)
    requires Underway(w, j, job)
    ensures Settles(w, Enqueue(Save(w, j, job.(retryCount := 0, current := next, status := Running)), j), j)
  {}

  lemma TaskWatched(w: World, j: JobId, job: Job, info: TaskInfo)
    requires Underway(w, j, job) && info.taskId.None?
    ensures var waiting := Watch(Save(w, j, TaskJob(job, info)), JobKey(j));
      && Local(w, waiting, j) && Kept(waiting, j) && PlainInfo(waiting, waiting.jobs[j])
      && Underway(waiting, j, TaskJob(job, info))
  {}

  lemma TaskDispatched(w: World, j: JobId, job: Job, info: TaskInfo, worker: WorkerId)
    requires Underway(w, j, job) && info.taskId.None?
    ensures Settles(w, Dispatch(Watch(Save(w, j, TaskJob(job, info)), JobKey(j)), j, info, worker), j)
  {
    hide Local, Kept, PlainInfo, Dispatch;
    var waiting := Watch(Save(w, j, TaskJob(job, info)), JobKey(j));
    TaskWatched(w, j, job, info);
    DispatchKeeps(waiting, j, info, worker);
    LocalTrans(w, waiting, Dispatch(waiting, j, info, worker), j);
  }

  lemma DispatchTaskKeeps(c: Config, w: World, j: JobId, job: Job, info: TaskInfo, worker: Option<WorkerId>)
    requires Parents(w) && Underway(w, j, job) && info.taskId.None?
    ensures Settles(w, Settle(c, w, j, job, DispatchTask(info, worker)), j)
  {
    hide Settles, FailHandler, BranchesKept, Dispatch, Kept, Local;
    if worker.Some? {
      TaskDispatched(w, j, job, info, worker.value);
    } else {
      var waiting := Watch(Save(w, j, TaskJob(job, info)), JobKey(j));
      TaskWatched(w, j, job, info);
      FailHandlerKeeps(c, waiting, j, TaskJob(job, info));
      SettlesAfter(w, waiting, FailHandler(c, waiting, j, TaskJob(job, info)), j);
    }
  }

  lemma SettlesAfter(w: World, w1: World, w2: World, j: JobId)
    requires Local(w, w1, j) && w1.messages == w.messages && Settles(w1, w2, j)
    ensures Settles(w, w2, j)
  {
    LocalTrans(w, w1, w2, j);
  }

  lemma HumanKeeps(w: World, j: JobId, job: Job, transitions: map<string, State>)
    requires Underway(w, j, job)
    ensures Settles(w, Save(w, j, job.(status := WaitingForHuman, transitions := transitions)), j)
  {}

  lemma SettleKeeps(c: Config, w: World, j: JobId, job: Job, outcome: Outcome)
    requires Parents(w) && Underway(w, j, job) && Sound(Ran(map[], outcome)) && PlainTasks(Ran(map[], outcome))
    requires !(outcome.RunBlueprint? && outcome.created)
    ensures Settles(w, Settle(c, w, j, job, outcome), j)
  {
    hide Settles, FailHandler, FanOutStep, ReachEnd, BranchesKept;
    match outcome
    case Raised => FailHandlerKeeps(c, w, j, job);
    case GoTo(next) => GoToKeeps(w, j, job, next);
    case DispatchTask(info, worker) => DispatchTaskKeeps(c, w, j, job, info, worker);
    case AwaitHuman(transitions) => HumanKeeps(w, j, job, transitions);
    case FanOut(tasks, into, workers) => FanOutKeeps(c, w, j, job, tasks, into, workers);
    case RunBlueprint(_, _, _, _) => FailHandlerKeeps(c, w, j, job);
    case NoAction(_, outputValid) =>
      assert job.child.None? ==> forall i, k :: 0 <= i < k < |job.active| ==> job.active[i] != job.active[k] by {
        DistinctBranches(w, j, job);
      }
      ReachEndKeeps(w, j, job, if job.current == "finished" then Finished else Failed, outputValid);
  }

  lemma DistinctBranches(w: World, j: JobId, job: Job)
    requires Underway(w, j, job)
    ensures job.child.None? ==> forall i, k :: 0 <= i < k < |job.active| ==> job.active[i] != job.active[k]
  {}

  /** Acknowledging one message of a settled job leaves it wired. */
  lemma AckKeeps(w: World, w': World, j: JobId)
    requires Settles(w, w', j) && j in w.messages
    ensures Moves(w, Ack(w', j), j)
  {}

  lemma ChildKept(c: Config, w: World, j: JobId, job: Job, transitions: map<string, State>, start: State,
                  watched: bool, k: JobId)
    requires j in w.jobs && Underway(w, j, job) && (k in w.jobs ==> Linked(w, k) && Kept(w, k))
    ensures var w' := Ack(Settle(c, w, j, job, RunBlueprint(transitions, start, watched, true)), j);
      k in w'.jobs ==> Linked(w', k) && Kept(w', k)
  {}

  lemma ChildKeeps(c: Config, w: World, j: JobId, job: Job, transitions: map<string, State>, start: State,
                   watched: bool)
    requires Inv(w) && Underway(w, j, job)
    ensures Inv(Ack(Settle(c, w, j, job, RunBlueprint(transitions, start, watched, true)), j))
  {
    var w' := Ack(Settle(c, w, j, job, RunBlueprint(transitions, start, watched, true)), j);
    ChildParents(c, w, j, job, transitions, start, watched);
    hide Parents, Kept, Linked, Settle;
    forall k | k in w'.jobs ensures Linked(w', k) && Kept(w', k) {
      ChildKept(c, w, j, job, transitions, start, watched, k);
    }
  }

  lemma ChildParents(c: Config, w: World, j: JobId, job: Job, transitions: map<string, State>, start: State,
                     watched: bool)
    requires Inv(w) && j in w.jobs
    ensures Parents(Ack(Settle(c, w, j, job, RunBlueprint(transitions, start, watched, true)), j))
  {
    assert Linked(w, j);
    var w' := Ack(Settle(c, w, j, job, RunBlueprint(transitions, start, watched, true)), j);
    forall k | k in w'.parents
      ensures k < w'.nextJob && w'.parents[k] in w'.jobs && w'.parents[k] != k && w'.jobs[w'.parents[k]].child.Some?
    {
      if k != w.nextJob {
        assert Linked(w, w.parents[k]);
      }
    }
  }

  lemma SettledProcess(c: Config, w: World, j: JobId, job: Job, outcome: Outcome)
    requires Inv(w) && j in w.messages && Underway(w, j, job)
    requires Sound(Ran(map[], outcome)) && PlainTasks(Ran(map[], outcome))
    ensures Inv(Ack(Settle(c, w, j, job, outcome), j))
  {
    assert Parents(w);
    hide Inv, Parents, Settle, Settles, Moves, Underway;
    if outcome.RunBlueprint? && outcome.created {
      ChildKeeps(c, w, j, job, outcome.transitions, outcome.start, outcome.watched);
    } else {
      SettleKeeps(c, w, j, job, outcome);
      AckKeeps(w, Settle(c, w, j, job, outcome), j);
      MovesKeepInv(w, Ack(Settle(c, w, j, job, outcome), j), j);
    }
  }

  lemma HandlerHolds(w: World, j: JobId, updates: map<string, Data>, merge: bool)
    requires Inv(w) && j in w.jobs && !Terminal(w.jobs[j].status)
    ensures var job := Counted(w.jobs[j]);
      var job1 := if merge then job.(history := job.history + updates) else job;
      Inv(LogHandler(w, j)) && Underway(LogHandler(w, j), j, job1) && Underway(w, j, job)
  {
    assert Linked(w, j) && Kept(w, j);
    forall k | k in w.jobs ensures Linked(LogHandler(w, j), k) && Kept(LogHandler(w, j), k) {
      assert Linked(w, k) && Kept(w, k);
    }
  }

  lemma SkippedProcess(w: World, j: JobId)
    requires Inv(w) && (j in w.jobs ==> Terminal(w.jobs[j].status))
    ensures Inv(Ack(w, j))
  {
    forall k | k in w.jobs ensures Linked(Ack(w, j), k) && Kept(Ack(w, j), k) {
      assert Linked(w, k) && Kept(w, k);
    }
  }

  lemma ExceededProcess(w: World, j: JobId)
    requires Inv(w) && j in w.jobs
    ensures Inv(Ack(Save(w, j, w.jobs[j].(status := Failed)), j))
  {
    var w' := Ack(Save(w, j, w.jobs[j].(status := Failed)), j);
    forall k | k in w'.jobs ensures Linked(w', k) && Kept(w', k) {
      assert Linked(w, k) && Kept(w, k);
    }
  }

  lemma ProcessKeeps(c: Config, w: World, j: JobId, run: HandlerRun)
    requires Inv(w) && j in w.messages && Sound(run) && PlainTasks(run)
    ensures Inv(Process(c, w, j, run))
  {
    hide Inv, Settles, Underway, Settle, FailHandler, Moves;
    if j !in w.jobs || Terminal(w.jobs[j].status) {
      SkippedProcess(w, j);
    } else if w.jobs[j].transitionCount + 1 > c.maxTransitions {
      ExceededProcess(w, j);
    } else {
      match run
      case NoHandler =>
        HandlerHolds(w, j, map[], false);
        FailedProcess(c, w, j, Counted(w.jobs[j]));
      case Ran(updates, outcome) =>
        HandlerHolds(w, j, updates, !outcome.Raised?);
        var job1 := if outcome.Raised? then Counted(w.jobs[j])
                    else Counted(w.jobs[j]).(history := w.jobs[j].history + updates);
        SettledProcess(c, LogHandler(w, j), j, job1, outcome);
    }
  }

  lemma FailedProcess(c: Config, w: World, j: JobId, job: Job)
    requires Inv(w) && j in w.messages && Underway(w, j, job)
    ensures Inv(Ack(FailHandler(c, w, j, job), j))
  {
    FailHandlerKeeps(c, w, j, job);
    AckKeeps(w, FailHandler(c, w, j, job), j);
    MovesKeepInv(w, Ack(FailHandler(c, w, j, job), j), j);
  }

  // ------------------------------------------------ the other actors

  lemma CreateKeeps(w: World, start: State, watched: bool)
    requires Inv(w)
    ensures Inv(CreateJob(w, start, watched, None))
  {
    var w' := CreateJob(w, start, watched, None);
    forall k | k in w'.jobs ensures Linked(w', k) && Kept(w', k) {
      if k in w.jobs { assert Linked(w, k) && Kept(w, k); }
    }
  }

  lemma PollKeeps(w: World, worker: WorkerId, j: JobId, t: TaskId)
    requires Inv(w) && j in w.jobs
    ensures Inv(Poll(w, worker, j, t))
  {
    assert Linked(w, j) && Kept(w, j);
    assert Moves(w, Poll(w, worker, j, t), j);
    MovesKeepInv(w, Poll(w, worker, j, t), j);
  }

  /** The saved job keeps its branches; at most its own watch entry went away. */
  ghost predicate Resaved(w: World, w0: World, j: JobId, job: Job) {
    && j in w.jobs && SameKin(w.jobs[j], job)
    && (w0 == w || w0 == Unwatch(w, JobKey(j)))
    && !Terminal(w.jobs[j].status) && job.active == w.jobs[j].active && job.branchInfo == w.jobs[j].branchInfo
    && job.target == w.jobs[j].target && job.taskInfo == w.jobs[j].taskInfo
  }

  lemma WokenMoves(w: World, w0: World, j: JobId, job: Job)
    requires Inv(w) && Resaved(w, w0, j, job) && job.status == Running
    ensures Moves(w, Enqueue(Save(w0, j, job), j), j)
  {
    assert Linked(w, j) && Kept(w, j);
    hide Inv;
    ResavedLocal(w, w0, j, job);
    ResavedKept(w, w0, j, job);
    hide Resaved, Local, Kept, PlainInfo, Linked;
  }

  lemma ResavedLocal(w: World, w0: World, j: JobId, job: Job)
    requires Resaved(w, w0, j, job)
    ensures Local(w, Save(w0, j, job), j) && Local(w, Enqueue(Save(w0, j, job), j), j)
  {}

  lemma ResavedKept(w: World, w0: World, j: JobId, job: Job)
    requires Resaved(w, w0, j, job) && Linked(w, j) && Kept(w, j)
    ensures job.status == Running ==>
      Kept(Enqueue(Save(w0, j, job), j), j) && PlainInfo(Enqueue(Save(w0, j, job), j), job)
    ensures AtRest(job.status) ==> Kept(Save(w0, j, job), j) && PlainInfo(Save(w0, j, job), job)
  {}

  lemma RestMoves(w: World, w0: World, j: JobId, job: Job)
    requires Inv(w) && Resaved(w, w0, j, job) && AtRest(job.status)
    ensures Moves(w, Save(w0, j, job), j)
  {
    assert Linked(w, j) && Kept(w, j);
    hide Inv;
    ResavedLocal(w, w0, j, job);
    ResavedKept(w, w0, j, job);
    hide Resaved, Local, Kept, PlainInfo, Linked;
  }

  lemma QuarantinedMoves(w: World, w0: World, j: JobId, job: Job)
    requires Inv(w) && Resaved(w, w0, j, job) && AtRest(job.status)
    ensures Moves(w, Quarantine(Save(w0, j, job), j), j)
  {
    RestMoves(w, w0, j, job);
    hide Inv, Resaved;
    MovesQuarantined(w, Save(w0, j, job), j);
  }

  lemma MovesQuarantined(w: World, w': World, j: JobId)
    requires Moves(w, w', j)
    ensures Moves(w, Quarantine(w', j), j)
  {
    LocalQuarantine(w, w', j);
    hide Local;
  }

  lemma CancelKeeps(w: World, j: JobId)
    requires Inv(w)
    ensures Inv(Cancel(w, j))
  {
    if j in w.jobs && !Terminal(w.jobs[j].status) {
      RestMoves(w, w, j, w.jobs[j].(status := Cancelled));
      MovesKeepInv(w, Cancel(w, j), j);
    }
  }

  lemma ApproveKeeps(w: World, j: JobId, decision: string)
    requires Inv(w)
    ensures Inv(Approve(w, j, decision))
  {
    if Approve(w, j, decision) != w {
      var next := Truthy(w.jobs[j].transitions, decision).value;
      WokenMoves(w, w, j, w.jobs[j].(current := next, status := Running));
      MovesKeepInv(w, Approve(w, j, decision), j);
    }
  }

  lemma EventKeeps(w: World, j: JobId, kind: string, payload: map<string, Data>, id: nat)
    requires Inv(w)
    ensures Inv(Event(w, j, kind, payload, id))
  {
    if Event(w, j, kind, payload, id) != w {
      var next := Truthy(w.jobs[j].eventTransitions, kind).value;
      var job := w.jobs[j].(history := w.jobs[j].history + payload, currentTask := Superseded(id),
                            current := next, status := Running);
      WokenMoves(w, Unwatch(w, JobKey(j)), j, job);
      MovesKeepInv(w, Event(w, j, kind, payload, id), j);
    }
  }

  // ------------------------------------------------ timeouts

  lemma MovesFrom(w: World, w1: World, w2: World, j: JobId)
    requires Local(w, w1, j) && Moves(w1, w2, j)
    ensures Moves(w, w2, j)
  {
    LocalTrans(w, w1, w2, j);
  }

  /** A popped watch entry of job j, whose record is still `job` up to its counters. */
  lemma PoppedHolds(w: World, k: WatchKey, job: Job, t: TaskRef)
    requires k.job in w.jobs && Linked(w, k.job) && Kept(w, k.job) && !Terminal(w.jobs[k.job].status)
    requires job == w.jobs[k.job].(pickedUp := job.pickedUp)
    requires k.JobKey? || t == Task(k.task)
    ensures Local(w, Unwatch(w, k), k.job) && PlainInfo(Unwatch(w, k), w.jobs[k.job])
    ensures Holds(Unwatch(w, k), k.job, job, if IsBranch(job, t) then {BranchKey(k.job, t.id)} else {})
  {
  }

  lemma PoppedFails(c: Config, w: World, k: WatchKey, job: Job, t: TaskRef, worker: Option<WorkerId>)
    requires Inv(w) && k.job in w.jobs && !Terminal(w.jobs[k.job].status)
    requires job == w.jobs[k.job].(pickedUp := job.pickedUp)
    requires k.JobKey? || t == Task(k.task)
    ensures Inv(FailTask(c, Unwatch(w, k), k.job, job, t, worker))
  {
    hide Local, Moves, Holds, PlainInfo, FailTask, Kept, Linked;
    var popped := Unwatch(w, k);
    PoppedHolds(w, k, job, t);
    FailTaskKeeps(c, popped, k.job, job, t, worker);
    MovesFrom(w, popped, FailTask(c, popped, k.job, job, t, worker), k.job);
    MovesKeepInv(w, FailTask(c, popped, k.job, job, t, worker), k.job);
  }

  lemma PoppedAtEnd(w: World, k: WatchKey)
    requires Inv(w) && (k.job in w.jobs ==> Terminal(w.jobs[k.job].status))
    ensures Inv(Unwatch(w, k))
  {
    forall j | j in w.jobs ensures Linked(Unwatch(w, k), j) && Kept(Unwatch(w, k), j) {
      assert Linked(w, j) && Kept(w, j);
    }
  }

  lemma FireKeeps(c: Config, w: World, k: WatchKey, worker: Option<WorkerId>)
    requires Inv(w)
    ensures Inv(Fire(c, w, k, worker))
  {
    if k.job !in w.jobs || Terminal(w.jobs[k.job].status) {
      PoppedAtEnd(w, k);
    } else {
      hide FailTask;
      var job := w.jobs[k.job];
      match k
      case BranchKey(j, t) => PoppedFails(c, w, k, job, Task(t), worker);
      case JobKey(j) =>
        if job.pickedUp {
          PoppedFails(c, w, k, job, job.currentTask, worker);
        } else {
          RestMoves(w, Unwatch(w, k), j, job.(status := Failed));
          MovesKeepInv(w, Fire(c, w, k, worker), j);
        }
    }
  }

  // ------------------------------------------------ results

  lemma SettleFailureKeeps(c: Config, w: World, seen: Job, r: Report, code: ErrorCode, retry: Option<WorkerId>)
    requires Inv(w) && r.job in w.jobs && !Terminal(w.jobs[r.job].status)
    requires seen == w.jobs[r.job].(pickedUp := seen.pickedUp)
    ensures Inv(SettleFailure(c, Unwatch(w, JobKey(r.job)), r.job, seen, r.task, code, retry))
  {
    var w0 := Unwatch(w, JobKey(r.job));
    assert Resaved(w, w0, r.job, seen.(status := Failed)) && Resaved(w, w0, r.job, seen.(status := Quarantined));
    hide FailTask, Inv, Resaved;
    if code == Transient {
      PoppedFails(c, w, JobKey(r.job), seen, Task(r.task), retry);
    } else if code == InvalidInput || code == IntegrityMismatch {
      SavedRest(w, w0, r.job, seen.(status := Failed));
    } else {
      SavedRest(w, w0, r.job, seen.(status := Quarantined));
    }
  }

  lemma MoveOnKeeps(w: World, seen: Job, j: JobId, next: Option<State>, data: map<string, Data>, otherwise: Status)
    requires Inv(w) && j in w.jobs && !Terminal(w.jobs[j].status) && AtRest(otherwise)
    requires seen == w.jobs[j].(pickedUp := seen.pickedUp)
    ensures Inv(MoveOn(Unwatch(w, JobKey(j)), j, seen, next, data, otherwise))
  {
    hide Inv;
    var w0 := Unwatch(w, JobKey(j));
    if next.Some? {
      SavedWoken(w, w0, j, seen.(history := seen.history + data, current := next.value, status := Running));
    } else {
      SavedRest(w, w0, j, seen.(status := otherwise));
    }
  }

  /** The single-task half of a result. */
  lemma SettleResultKeeps(c: Config, w: World, seen: Job, r: Report, retry: Option<WorkerId>)
    requires Inv(w) && r.job in w.jobs && !Terminal(w.jobs[r.job].status)
    requires seen == w.jobs[r.job].(pickedUp := seen.pickedUp)
    ensures Inv(SettleResult(c, Unwatch(w, JobKey(r.job)), seen, r, retry))
  {
    hide SettleFailure, Inv, MoveOn;
    match Effective(r)
    case Failure(code) => SettleFailureKeeps(c, w, seen, r, code, retry);
    case TaskCancelled => MoveOnKeeps(w, seen, r.job, Truthy(seen.transitions, "cancelled"), map[], Cancelled);
    case Reported(name) => MoveOnKeeps(w, seen, r.job, Truthy(seen.transitions, name), r.data, Failed);
  }

  lemma SavedRest(w: World, w0: World, j: JobId, job: Job)
    requires Inv(w) && j in w.jobs && Resaved(w, w0, j, job) && AtRest(job.status)
    ensures Inv(Save(w0, j, job)) && Inv(Quarantine(Save(w0, j, job), j))
  {
    RestMoves(w, w0, j, job);
    MovesKeepInv(w, Save(w0, j, job), j);
    QuarantinedMoves(w, w0, j, job);
    MovesKeepInv(w, Quarantine(Save(w0, j, job), j), j);
  }

  lemma SavedWoken(w: World, w0: World, j: JobId, job: Job)
    requires Inv(w) && j in w.jobs && Resaved(w, w0, j, job) && job.status == Running
    ensures Inv(Enqueue(Save(w0, j, job), j))
  {
    WokenMoves(w, w0, j, job);
    MovesKeepInv(w, Enqueue(Save(w0, j, job), j), j);
  }

  lemma RemoveKeepsOrder(s: seq<TaskId>, t: TaskId)
    requires forall i, k :: 0 <= i < k < |s| ==> s[i] != s[k]
    ensures var r := Remove(s, t);
      && t !in r && (forall i, k :: 0 <= i < k < |r| ==> r[i] != r[k])
  {
    if s != [] && s[0] != t {
      RemoveKeepsOrder(s[1..], t);
      assert s[0] !in s[1..];
    }
  }

  lemma RecordKept(w: World, j: JobId, t: TaskId, payload: Data)
    requires j in w.jobs && Kept(w, j) && w.jobs[j].status == WaitingForParallel
    ensures var recorded := RecordBranch(w.jobs[j], t, payload);
      var saved := Save(Unwatch(w, BranchKey(j, t)), j, recorded);
      Kept(if recorded.active == [] then Enqueue(saved, j) else saved, j)
  {
    if w.jobs[j].child.None? {
      RemoveKeepsOrder(w.jobs[j].active, t);
    }
  }

  lemma RecordMoves(w: World, j: JobId, t: TaskId, payload: Data)
    requires j in w.jobs && Linked(w, j) && Kept(w, j) && w.jobs[j].status == WaitingForParallel
    ensures var recorded := RecordBranch(w.jobs[j], t, payload);
      var saved := Save(Unwatch(w, BranchKey(j, t)), j, recorded);
      Moves(w, if recorded.active == [] then Enqueue(saved, j) else saved, j)
  {
    RecordKept(w, j, t, payload);
    hide Kept;
  }

  lemma BranchResultKeeps(w: World, j: JobId, t: TaskId, payload: Data)
    requires Inv(w) && j in w.jobs && w.jobs[j].status == WaitingForParallel
    ensures var recorded := RecordBranch(w.jobs[j], t, payload);
      var saved := Save(Unwatch(w, BranchKey(j, t)), j, recorded);
      Inv(if recorded.active == [] then Enqueue(saved, j) else saved)
  {
    hide Moves, Linked, Kept, RecordBranch;
    var recorded := RecordBranch(w.jobs[j], t, payload);
    var saved := Save(Unwatch(w, BranchKey(j, t)), j, recorded);
    RecordMoves(w, j, t, payload);
    MovesKeepInv(w, if recorded.active == [] then Enqueue(saved, j) else saved, j);
  }

  lemma ResultKeeps(c: Config, w: World, r: Report, retry: Option<WorkerId>)
    requires Inv(w)
    ensures Inv(Result(c, w, r, retry))
  {
    hide SettleResult, Inv, RecordBranch;
    if r.job in w.jobs && Accepts(w.jobs[r.job], r.task, r.worker) {
      var job := w.jobs[r.job];
      if job.status == WaitingForParallel {
        BranchResultKeeps(w, r.job, r.task, r.payload);
      } else {
        SettleResultKeeps(c, w, if r.picked && r.task !in job.active then job.(pickedUp := true) else job, r, retry);
      }
    }
  }

  // ------------------------------------------------ the theorem

  lemma StepKeeps(c: Config, w: World, a: Action)
    requires Inv(w) && Enabled(w, a) && SoundAction(a)
    ensures Inv(Step(c, w, a))
  {
    match a
    case ACreate(start, watched) => CreateKeeps(w, start, watched);
    case AProcess(j, run) => ProcessKeeps(c, w, j, run);
    case APoll(worker, j, t) => PollKeeps(w, worker, j, t);
    case AResult(r, retry) => ResultKeeps(c, w, r, retry);
    case AEvent(j, kind, payload, id) => EventKeeps(w, j, kind, payload, id);
    case AFire(k, retry) => FireKeeps(c, w, k, retry);
    case ACancel(j) => CancelKeeps(w, j);
    case AApprove(j, decision) => ApproveKeeps(w, j, decision);
  }

  /** No job is lost: over every run from the empty store whose handlers act and whose
      fan-outs find workers, every job that never ran a sub-blueprint keeps a wake-up. */
  lemma {:induction false} NoJobIsLost(c: Config, run: seq<World>, acts: seq<Action>, n: nat)
    requires IsRun(c, run, acts) && run[0] == EMPTY && n < |run|
    requires forall a :: a in acts ==> SoundAction(a)
    ensures Inv(run[n])
    ensures forall j :: j in run[n].jobs && run[n].jobs[j].child.None? ==> Wired(run[n], j)
  {
    if n > 0 {
      NoJobIsLost(c, run, acts, n - 1);
      hide Inv, Step;
      assert acts[n - 1] in acts;
      StepKeeps(c, run[n - 1], acts[n - 1]);
    }
    InvWires(run[n]);
  }

  lemma InvWires(w: World)
    requires Inv(w)
    ensures forall j :: j in w.jobs && w.jobs[j].child.None? ==> Wired(w, j)
  {
    forall j | j in w.jobs ensures Kept(w, j) {}
  }
}
