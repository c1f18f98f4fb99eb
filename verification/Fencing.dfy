/** What late actors cannot do: nothing changes a job that has ended, and a
    result for a superseded attempt of a single task moves nothing. */
module Fencing {
  import opened Basics
  import opened Lifecycle
  import opened Frames
  import opened Ids

  // ------------------------------------------------ terminal statuses absorb

  ghost predicate LeftAlone(w: World, w': World, k: JobId)
    requires k in w.jobs
  {
    && k in w'.jobs && w'.jobs[k].status == w.jobs[k].status && w'.jobs[k].current == w.jobs[k].current
    && w'.parents == w.parents
  }

  lemma EndedFire(c: Config, w: World, key: WatchKey, retry: Option<WorkerId>)
    requires key.job in w.jobs && Terminal(w.jobs[key.job].status)
    ensures Fire(c, w, key, retry) == Unwatch(w, key)
  {}

  lemma EndedProcess(c: Config, w: World, j: JobId, run: HandlerRun)
    requires j in w.jobs && Terminal(w.jobs[j].status)
    ensures Process(c, w, j, run) == Ack(w, j)
  {}

  lemma EndedResult(c: Config, w: World, r: Report, retry: Option<WorkerId>)
    requires r.job in w.jobs && Terminal(w.jobs[r.job].status)
    ensures Result(c, w, r, retry) == w
  {}

  lemma EndedIsLeftAlone(c: Config, w: World, a: Action)
    requires Enabled(w, a) && Subject(w, a) in w.jobs && Terminal(w.jobs[Subject(w, a)].status) && !a.ACreate?
    ensures LeftAlone(w, Step(c, w, a), Subject(w, a))
  {
    hide Fire, Process, Result, Poll;
    match a
    case AFire(key, retry) => EndedFire(c, w, key, retry);
    case AProcess(j, run) => EndedProcess(c, w, j, run);
    case AResult(r, retry) => EndedResult(c, w, r, retry);
    case APoll(worker, j, t) => EndedPoll(w, worker, j, t);
    case _ =>
  }

  lemma EndedPoll(w: World, worker: WorkerId, j: JobId, t: TaskId)
    requires j in w.jobs
    ensures LeftAlone(w, Poll(w, worker, j, t), j)
  {}

  /** One step of any actor leaves the status and the current state of an ended job alone,
      unless a child ends. */
  lemma EndedStaysEnded(c: Config, w: World, a: Action, k: JobId)
    requires IdInv(w) && Enabled(w, a)
    requires k in w.jobs && w.jobs[k].status in {Finished, Failed, Error, Quarantined} && Childless(w, k)
    ensures var w' := Step(c, w, a);
      && k in w'.jobs && w'.jobs[k].status == w.jobs[k].status && w'.jobs[k].current == w.jobs[k].current
      && Childless(w', k)
  {
    DrawnJob(w, k);
    if k == Subject(w, a) {
      EndedIsLeftAlone(c, w, a);
    } else {
      StepTouches(c, w, a);
    }
  }

  /** No later message, result, event, poll, timeout, cancel or approval revives an ended job. */
  lemma {:induction false} TerminalAbsorbs(c: Config, run: seq<World>, acts: seq<Action>, n: nat, m: nat, k: JobId)
    requires IsRun(c, run, acts) && IdInv(run[0]) && n <= m < |run|
    requires k in run[n].jobs && run[n].jobs[k].status in {Finished, Failed, Error, Quarantined} && Childless(run[n], k)
    ensures k in run[m].jobs && Childless(run[m], k)
    ensures run[m].jobs[k].status == run[n].jobs[k].status && run[m].jobs[k].current == run[n].jobs[k].current
  {
    if n < m {
      TerminalAbsorbs(c, run, acts, n, m - 1, k);
      RunIds(c, run, acts, m - 1);
      hide Step, IdInv;
      EndedStaysEnded(c, run[m - 1], acts[m - 1], k);
    }
  }

  /** The condition is needed: the end of a child makes its parent run again, whatever the
      parent's status. */
  lemma ChildRevivesParent(c: Config, w: World, j: JobId, updates: map<string, Data>, valid: bool)
    requires j in w.messages && j in w.jobs && !Terminal(w.jobs[j].status)
    requires w.jobs[j].transitionCount < c.maxTransitions
    requires j in w.parents && w.parents[j] in w.jobs && w.parents[j] != j
    ensures var w', p := Process(c, w, j, Ran(updates, NoAction(true, valid))), w.parents[j];
      && p in w'.jobs && w'.jobs[p].status == Running && p in w'.messages
      && j in w'.jobs && Terminal(w'.jobs[j].status)
  {}

  // ------------------------------------------------ fresh task ids fence retries

  ghost predicate SinglesKept(w: World, w': World) { forall e :: e in w'.log && Single(e) ==> e in w.log }

  /** One single task was queued, for the worker that now holds the job, under the job's
      current id, which is new. */
  ghost predicate SingleSent(w: World, w': World, j: JobId)
    requires j in w'.jobs
  {
    var job' := w'.jobs[j];
    && job'.currentTask.Task? && w.nextTask <= job'.currentTask.id && job'.currentTask.id !in job'.active
    && job'.assignee.Some?
    && forall e :: e in w'.log && Single(e) && e !in w.log ==>
         e == TaskEnqueued(job'.assignee.value, j, job'.currentTask.id, false)
  }

  /** From `job` to the stored record of j: the assignee is kept and no single task was queued,
      or a new one was sent to its new assignee. */
  ghost predicate OwnerMove(w: World, w': World, j: JobId, job: Job)
    requires j in w'.jobs
  {
    (w'.jobs[j].assignee == job.assignee && SinglesKept(w, w')) || SingleSent(w, w', j)
  }

  ghost predicate TaskMove(w: World, w': World, j: JobId, job: Job) {
    IdMove(w, w', j, job) && OwnerMove(w, w', j, job)
  }

  /** From `job` to the stored record of j: task ids are kept, drawn now, or outstanding branches. */
  ghost predicate IdMove(w: World, w': World, j: JobId, job: Job) {
    && j in w'.jobs && w.nextTask <= w'.nextTask
    && (forall b :: b in w'.jobs[j].active ==> b in job.active || w.nextTask <= b)
    && (var t := w'.jobs[j].currentTask;
        t == job.currentTask || t.Superseded? || (t.Task? && (w.nextTask <= t.id || t.id in job.active)))
  }

  ghost predicate DrawnBranches(w: World, job: Job) { forall b :: b in job.active ==> b < w.nextTask }

  lemma DispatchMoves(w: World, j: JobId, info: TaskInfo, worker: WorkerId)
    requires j in w.jobs
        && (if info.taskId.Some? then info.taskId.value in w.jobs[j].active else DrawnBranches(w, w.jobs[j]))
    ensures TaskMove(w, Dispatch(w, j, info, worker), j, w.jobs[j])
  {}

  lemma BranchKeepsOwner(w: World, j: JobId, info: TaskInfo, b: TaskId, worker: WorkerId)
    requires j in w.jobs && b in w.jobs[j].active
    ensures var w' := Dispatch(w, j, BranchTask(info, b), worker);
      && IdMove(w, w', j, w.jobs[j]) && SinglesKept(w, w') && w'.jobs[j].assignee == w.jobs[j].assignee
      && w'.jobs[j].active == w.jobs[j].active
  {}

  /** Saved under j with the task fields of `job`, and j is not touched afterwards. */
  ghost predicate TaskKept(w: World, w': World, j: JobId, job: Job) {
    && j in w'.jobs && w'.nextTask == w.nextTask
    && w'.jobs[j].active == job.active && w'.jobs[j].currentTask == job.currentTask
    && w'.jobs[j].assignee == job.assignee && SinglesKept(w, w')
  }

  lemma ResumeKeepsTask(w: World, j: JobId, end: State, k: JobId)
    requires k in w.jobs
    ensures TaskKept(w, ResumeParent(w, j, end), k, w.jobs[k])
  {}

  lemma EndKeepsTask(w: World, j: JobId, job: Job, status: Status, valid: bool)
    ensures TaskKept(w, ReachEnd(w, j, job, status, valid), j, job)
  {
    hide ResumeParent, TaskKept;
    var ended := job.(status := if status == Finished && !valid then Failed else status);
    var w2 := Save(ResumeParent(w, j, job.current), j, ended);
    ResumeKeepsLog(w, j, job.current);
    ResumeKeepsTask(w2, j, job.current, j);
    ResumeKeepsLog(w2, j, job.current);
    KeptThrough(w, w2, ResumeParent(w2, j, job.current), j, job);
  }

  lemma KeptThrough(w: World, w1: World, w2: World, j: JobId, job: Job)
    requires j in w1.jobs && TaskKept(w1, w2, j, w1.jobs[j]) && w1.nextTask == w.nextTask && w2.log == w.log
    requires w1.jobs[j] == job.(status := w1.jobs[j].status)
    ensures TaskKept(w, w2, j, job)
  {}

  lemma ResumeKeepsLog(w: World, j: JobId, end: State)
    ensures ResumeParent(w, j, end).nextTask == w.nextTask && ResumeParent(w, j, end).log == w.log
  {}

  lemma FailHandlerKeepsTask(c: Config, w: World, j: JobId, job: Job)
    ensures TaskKept(w, FailHandler(c, w, j, job), j, job)
  {
    hide ReachEnd, ResumeParent;
    if job.retryCount >= c.maxRetries {
      EndKeepsTask(w, j, job, Quarantined, true);
      ResumeKeepsTask(Quarantine(ReachEnd(w, j, job, Quarantined, true), j), j, job.current, j);
    }
  }

  lemma {:induction false} BranchesMove(w: World, j: JobId, tasks: seq<TaskInfo>, ids: seq<TaskId>,
                                        workers: seq<WorkerId>, n: nat)
    requires j in w.jobs && n <= |tasks| == |ids| && n <= |workers| && w.jobs[j].active == ids
    ensures var w' := DispatchBranches(w, j, tasks, ids, workers, n);
      && IdMove(w, w', j, w.jobs[j]) && w'.jobs[j].active == ids
      && SinglesKept(w, w') && w'.jobs[j].assignee == w.jobs[j].assignee
  {
    if n > 0 {
      BranchesMove(w, j, tasks, ids, workers, n - 1);
      hide Dispatch;
      BranchKeepsOwner(DispatchBranches(w, j, tasks, ids, workers, n - 1), j, tasks[n - 1], ids[n - 1], workers[n - 1]);
    }
  }

  lemma FanOutMoves(c: Config, w: World, j: JobId, job: Job, tasks: seq<TaskInfo>, into: State, workers: seq<WorkerId>)
    requires j in w.jobs
    ensures TaskMove(w, FanOutStep(c, w, j, job, tasks, into, workers), j, job)
  {
    hide DispatchBranches, FailHandler;
    var ids := FreshIds(w.nextTask, |tasks|);
    var started := StartFanOut(w, j, job, into, |tasks|);
    var n := if |workers| < |tasks| then |workers| else |tasks|;
    BranchesMove(started, j, tasks, ids, workers, n);
    var done := DispatchBranches(started, j, tasks, ids, workers, n);
    assert TaskMove(w, done, j, job);
    if |workers| < |tasks| {
      FailHandlerKeepsTask(c, done, j,
        done.jobs[j].(branchInfo := done.jobs[j].branchInfo[ids[n] := BranchTask(tasks[n], ids[n])]));
    }
  }

  lemma TaskDispatchMoves(c: Config, w: World, j: JobId, job: Job, info: TaskInfo, worker: Option<WorkerId>)
    requires info.taskId.None? && DrawnBranches(w, job)
    ensures TaskMove(w, Settle(c, w, j, job, DispatchTask(info, worker)), j, job)
  {
    hide FailHandler, Dispatch;
    var waiting := Watch(Save(w, j, TaskJob(job, info)), JobKey(j));
    if worker.Some? {
      DispatchMoves(waiting, j, info, worker.value);
    } else {
      FailHandlerKeepsTask(c, waiting, j, TaskJob(job, info));
    }
  }

  lemma SettleMoves(c: Config, w: World, j: JobId, job: Job, outcome: Outcome)
    requires j in w.jobs && j < w.nextJob && PlainTasks(Ran(map[], outcome)) && DrawnBranches(w, job)
    requires outcome.NoAction? ==> TaskKept(w, w, j, job)
    ensures TaskMove(w, Settle(c, w, j, job, outcome), j, job)
  {
    hide FailHandler, FanOutStep, ReachEnd, Dispatch;
    match outcome
    case Raised => FailHandlerKeepsTask(c, w, j, job);
    case DispatchTask(info, worker) => TaskDispatchMoves(c, w, j, job, info, worker);
    case FanOut(tasks, into, workers) => FanOutMoves(c, w, j, job, tasks, into, workers);
    case RunBlueprint(_, _, _, created) => FailHandlerKeepsTask(c, w, j, job);
    case NoAction(_, valid) => EndKeepsTask(w, j, job, if job.current == "finished" then Finished else Failed, valid);
    case _ =>
  }

  lemma ProcessMoves(c: Config, w: World, j: JobId, run: HandlerRun)
    requires IdInv(w) && j in w.jobs && PlainTasks(run)
    ensures TaskMove(w, Process(c, w, j, run), j, w.jobs[j])
  {
    DrawnJob(w, j);
    hide FailHandler, Settle, IdInv, TaskMove, SinglesKept;
    var job := w.jobs[j];
    if Terminal(job.status) {
      KeptByItself(w, j);
      AckMoves(w, w, w, j, job);
    } else if job.transitionCount + 1 > c.maxTransitions {
      KeptBySave(w, j, job.(status := Failed));
      AckMoves(w, w, Save(w, j, job.(status := Failed)), j, job);
    } else {
      match run
      case NoHandler =>
        FailHandlerKeepsTask(c, w, j, Counted(job));
        SaveMoves(w, FailHandler(c, w, j, Counted(job)), j, Counted(job));
        AckMoves(w, w, FailHandler(c, w, j, Counted(job)), j, Counted(job));
      case Ran(updates, outcome) =>
        var job1 := if outcome.Raised? then Counted(job) else Counted(job).(history := job.history + updates);
        var logged := LogHandler(w, j);
        KeptByItself(logged, j);
        assert TaskKept(logged, logged, j, job1);
        SettleMoves(c, logged, j, job1, outcome);
        HandlerIsNoTask(w, j);
        AckMoves(w, logged, Settle(c, logged, j, job1, outcome), j, job1);
    }
  }

  lemma KeptByItself(w: World, j: JobId)
    requires j in w.jobs
    ensures TaskKept(w, w, j, w.jobs[j]) && TaskMove(w, w, j, w.jobs[j]) && SinglesKept(w, w)
  {}

  lemma KeptBySave(w: World, j: JobId, job: Job)
    ensures TaskMove(w, Save(w, j, job), j, job) && SinglesKept(w, w)
  {}

  lemma HandlerIsNoTask(w: World, j: JobId)
    ensures SinglesKept(w, LogHandler(w, j))
  {}

  /** The messages and the log of handlers are no part of this. */
  lemma AckMoves(w: World, logged: World, w': World, j: JobId, job: Job)
    requires j in w.jobs && SinglesKept(w, logged) && w.log <= logged.log && logged.nextTask == w.nextTask
    requires job.active == w.jobs[j].active && job.currentTask == w.jobs[j].currentTask
    requires job.assignee == w.jobs[j].assignee && TaskMove(logged, w', j, job)
    ensures TaskMove(w, Ack(w', j), j, w.jobs[j])
  {
    if SingleSent(logged, w', j) {
      assert SingleSent(w, w', j);
    }
  }

  lemma RedispatchMoves(w: World, k: WatchKey, j: JobId, job: Job, info: TaskInfo, worker: Option<WorkerId>)
    requires if info.taskId.Some? then info.taskId.value in job.active else DrawnBranches(w, job)
    ensures TaskMove(w, Redispatch(w, k, j, job, info, worker), j, job)
  {
    hide Dispatch;
    if worker.Some? {
      DispatchMoves(Save(Watch(w, k), j, job), j, info, worker.value);
    }
  }

  /** A plain save keeps the task ids. */
  lemma SaveMoves(w: World, w': World, j: JobId, job: Job)
    requires TaskKept(w, w', j, job)
    ensures TaskMove(w, w', j, job)
  {}

  lemma FailBranchMoves(c: Config, w: World, j: JobId, job: Job, t: TaskId, worker: Option<WorkerId>)
    requires JobIds(w, job) && TaskKept(w, w, j, job) && t in job.active
    ensures TaskMove(w, FailBranch(c, w, j, job, t, worker), j, job)
  {
    if RetriesOf(job, t) >= c.maxRetries {
      SaveMoves(w, FailBranch(c, w, j, job, t, worker), j, job);
    } else if t !in job.branchInfo {
      SaveMoves(w, w, j, job);
    } else {
      assert job.branchInfo[t].taskId == Some(t);
      hide Redispatch, TaskMove, JobIds;
      RedispatchMoves(w, BranchKey(j, t), j, RetriedBranch(job, t), job.branchInfo[t], worker);
    }
  }

  lemma RetryMoves(w: World, j: JobId, job: Job, worker: Option<WorkerId>)
    requires JobIds(w, job) && job.taskInfo.Some?
    ensures TaskMove(w, Redispatch(w, JobKey(j), j, RetriedSingle(job), job.taskInfo.value, worker), j, job)
  {
    hide Redispatch;
    RedispatchMoves(w, JobKey(j), j, RetriedSingle(job), job.taskInfo.value, worker);
  }

  lemma FailSingleMoves(c: Config, w: World, j: JobId, job: Job, worker: Option<WorkerId>)
    requires JobIds(w, job)
    ensures TaskMove(w, FailSingle(c, w, j, job, worker), j, job)
  {
    hide Redispatch, TaskMove;
    if job.retryCount >= c.maxRetries || job.taskInfo.None? {
      SaveMoves(w, FailSingle(c, w, j, job, worker), j, job);
    } else {
      RetryMoves(w, j, job, worker);
    }
  }

  lemma FailTaskMoves(c: Config, w: World, j: JobId, job: Job, t: TaskRef, worker: Option<WorkerId>)
    requires JobIds(w, job) && TaskKept(w, w, j, job)
    ensures TaskMove(w, FailTask(c, w, j, job, t, worker), j, job)
  {
    hide FailBranch, FailSingle, JobIds;
    if !Terminal(job.status) {
      if IsBranch(job, t) {
        FailBranchMoves(c, w, j, job, t.id, worker);
      } else {
        FailSingleMoves(c, w, j, job, worker);
      }
    }
  }

  lemma SettleFailureMoves(c: Config, w: World, job: Job, r: Report, code: ErrorCode, retry: Option<WorkerId>)
    requires JobIds(w, job) && TaskKept(w, w, r.job, job)
    ensures TaskMove(w, SettleFailure(c, w, r.job, job, r.task, code, retry), r.job, job)
  {
    hide FailTask, TaskMove, JobIds;
    match code
    case Transient => FailTaskMoves(c, w, r.job, job, Task(r.task), retry);
    case _ => SaveMoves(w, SettleFailure(c, w, r.job, job, r.task, code, retry), r.job, job);
  }

  lemma MoveOnMoves(w: World, j: JobId, job: Job, next: Option<State>, data: map<string, Data>, otherwise: Status)
    ensures TaskMove(w, MoveOn(w, j, job, next, data, otherwise), j, job)
  {}

  lemma SettleResultMoves(c: Config, w: World, job: Job, r: Report, retry: Option<WorkerId>)
    requires JobIds(w, job) && TaskKept(w, w, r.job, job)
    ensures TaskMove(w, SettleResult(c, w, job, r, retry), r.job, job)
  {
    hide SettleFailure, MoveOn, TaskMove;
    match Effective(r)
    case Failure(code) => SettleFailureMoves(c, w, job, r, code, retry);
    case TaskCancelled => MoveOnMoves(w, r.job, job, Truthy(job.transitions, "cancelled"), map[], Cancelled);
    case Reported(name) => MoveOnMoves(w, r.job, job, Truthy(job.transitions, name), r.data, Failed);
  }

  lemma ResultMoves(c: Config, w: World, r: Report, retry: Option<WorkerId>)
    requires IdInv(w) && r.job in w.jobs
    ensures TaskMove(w, Result(c, w, r, retry), r.job, w.jobs[r.job])
  {
    hide SettleResult, RecordBranch, IdInv, TaskMove, JobIds, Accepts;
    DrawnJob(w, r.job);
    var job, popped := w.jobs[r.job], Unwatch(w, JobKey(r.job));
    if !Accepts(job, r.task, r.worker) {
      SaveMoves(w, w, r.job, job);
    } else if job.status == WaitingForParallel {
      RecordMoves(w, r.job, r.task, r.payload);
    } else {
      var seen := if r.picked && r.task !in job.active then job.(pickedUp := true) else job;
      SeenIds(w, popped, job, seen);
      SettleResultMoves(c, popped, seen, r, retry);
      FromUnwatched(w, JobKey(r.job), SettleResult(c, popped, seen, r, retry), seen);
    }
  }

  lemma SeenIds(w: World, w': World, job: Job, seen: Job)
    requires JobIds(w, job) && w'.nextTask == w.nextTask && seen == job.(pickedUp := seen.pickedUp)
    ensures JobIds(w', seen)
  {}

  lemma RecordMoves(w: World, j: JobId, t: TaskId, payload: Data)
    requires j in w.jobs
    ensures var recorded := RecordBranch(w.jobs[j], t, payload);
      var saved := Save(Unwatch(w, BranchKey(j, t)), j, recorded);
      TaskMove(w, if recorded.active == [] then Enqueue(saved, j) else saved, j, w.jobs[j])
  {}

  lemma FireMoves(c: Config, w: World, k: WatchKey, worker: Option<WorkerId>)
    requires IdInv(w) && k.job in w.jobs
    ensures TaskMove(w, Fire(c, w, k, worker), k.job, w.jobs[k.job])
  {
    hide FailTask, IdInv, TaskMove, JobIds;
    DrawnJob(w, k.job);
    var job := w.jobs[k.job];
    SeenIds(w, Unwatch(w, k), job, job);
    var t := if k.JobKey? then job.currentTask else Task(k.task);
    FailTaskMoves(c, Unwatch(w, k), k.job, job, t, worker);
    FromUnwatched(w, k, FailTask(c, Unwatch(w, k), k.job, job, t, worker), job);
    SaveMoves(w, Save(Unwatch(w, k), k.job, job.(status := Failed)), k.job, job);
    SaveMoves(w, Unwatch(w, k), k.job, job);
  }

  lemma FromUnwatched(w: World, k: WatchKey, w': World, seen: Job)
    requires k.job in w.jobs && seen == w.jobs[k.job].(pickedUp := seen.pickedUp)
    requires TaskMove(Unwatch(w, k), w', k.job, seen)
    ensures TaskMove(w, w', k.job, w.jobs[k.job])
  {}

  lemma StepMoves(c: Config, w: World, a: Action)
    requires IdInv(w) && Enabled(w, a) && Subject(w, a) in w.jobs
    ensures IdMove(w, Step(c, w, a), Subject(w, a), w.jobs[Subject(w, a)])
    ensures a.APoll? || OwnerMove(w, Step(c, w, a), Subject(w, a), w.jobs[Subject(w, a)])
  {
    hide Process, Result, Fire, Event, Poll, Cancel, Approve, IdMove, OwnerMove, SinglesKept, IdInv;
    match a
    case ACreate(_, _) => DrawnJob(w, w.nextJob);
    case AProcess(j, run) => ProcessMoves(c, w, j, run);
    case APoll(worker, j, t) => PollMoves(w, worker, j, t);
    case AResult(r, retry) => ResultMoves(c, w, r, retry);
    case AFire(k, retry) => FireMoves(c, w, k, retry);
    case AEvent(j, kind, payload, id) => EventMoves(w, j, kind, payload, id);
    case ACancel(j) => CancelMoves(w, j);
    case AApprove(j, decision) => ApproveMoves(w, j, decision);
  }

  lemma PollMoves(w: World, worker: WorkerId, j: JobId, t: TaskId)
    requires j in w.jobs
    ensures var w' := Poll(w, worker, j, t);
      && IdMove(w, w', j, w.jobs[j]) && SinglesKept(w, w')
      && w'.jobs[j].assignee == if t in w.jobs[j].active then w.jobs[j].assignee else Some(worker)
  {}

  lemma CancelMoves(w: World, j: JobId)
    requires j in w.jobs
    ensures TaskMove(w, Cancel(w, j), j, w.jobs[j])
  {}

  lemma ApproveMoves(w: World, j: JobId, decision: string)
    requires j in w.jobs
    ensures TaskMove(w, Approve(w, j, decision), j, w.jobs[j])
  {}

  lemma EventMoves(w: World, j: JobId, kind: string, payload: map<string, Data>, id: nat)
    requires j in w.jobs
    ensures TaskMove(w, Event(w, j, kind, payload, id), j, w.jobs[j])
  {}

  /** t was drawn, is not outstanding as a branch, and is not the current attempt. */
  ghost predicate Fenced(w: World, j: JobId, t: TaskId) {
    && j in w.jobs && t < w.nextTask && t !in w.jobs[j].active
    && w.jobs[j].currentTask != NoTask && w.jobs[j].currentTask != Task(t)
  }

  /** Either t is still the current single attempt of j, or it is fenced. */
  ghost predicate Attempted(w: World, j: JobId, t: TaskId) {
    && j in w.jobs && t < w.nextTask && t !in w.jobs[j].active && w.jobs[j].currentTask != NoTask
  }

  lemma StepKeepsFence(c: Config, w: World, a: Action, j: JobId, t: TaskId)
    requires IdInv(w) && Enabled(w, a) && Attempted(w, j, t)
    ensures Attempted(Step(c, w, a), j, t)
    ensures Fenced(w, j, t) ==> Fenced(Step(c, w, a), j, t)
  {
    hide Step;
    StepTouches(c, w, a);
    if Subject(w, a) in w.jobs {
      StepMoves(c, w, a);
    }
    CounterGrows(c, w, a);
  }

  lemma {:induction false} CounterGrows(c: Config, w: World, a: Action)
    requires IdInv(w) && Enabled(w, a)
    ensures w.nextTask <= Step(c, w, a).nextTask
  {
    if Subject(w, a) in w.jobs {
      hide Step;
      StepMoves(c, w, a);
    }
  }

  /** What a result may move. */
  ghost predicate Unmoved(w: World, w': World, j: JobId)
    requires j in w.jobs
  {
    && j in w'.jobs && w'.jobs[j].status == w.jobs[j].status && w'.jobs[j].current == w.jobs[j].current
    && w'.jobs[j].history == w.jobs[j].history && w'.messages == w.messages
  }

  /** Outside a fan-out, a result that moves its job carries the current attempt's id and
      comes from the worker that holds it. */
  lemma OnlyTheLatestAttemptMoves(c: Config, w: World, r: Report, retry: Option<WorkerId>)
    requires r.job in w.jobs && w.jobs[r.job].status != WaitingForParallel && w.jobs[r.job].currentTask != NoTask
    requires !Unmoved(w, Result(c, w, r, retry), r.job)
    ensures w.jobs[r.job].currentTask == Task(r.task)
    ensures r.task !in w.jobs[r.job].active && w.jobs[r.job].assignee.Some? ==> w.jobs[r.job].assignee.value == r.worker
  {}

  lemma RemoveAbsent(s: seq<TaskId>, t: TaskId)
    requires t !in s
    ensures Remove(s, t) == s
  {}

  lemma FencedResultIsInert(c: Config, w: World, r: Report, retry: Option<WorkerId>)
    requires Fenced(w, r.job, r.task)
    requires w.jobs[r.job].status == WaitingForParallel ==> w.jobs[r.job].active != []
    ensures Unmoved(w, Result(c, w, r, retry), r.job)
  {
    RemoveAbsent(w.jobs[r.job].active, r.task);
  }

  /** Fresh ids fence retries: once the single attempt t of job j is no longer its current
      task (it timed out and was dispatched again, or an event superseded it), then at every
      later moment of the run a result that carries t, from any worker, leaves the status,
      the current state, the history and the messages alone. A job that waits for an empty
      fan-out is excepted: any result wakes it. */
  lemma {:induction false} RetriesAreFenced(c: Config, run: seq<World>, acts: seq<Action>, n: nat, m: nat, k: nat,
                                            j: JobId, t: TaskId, r: Report, retry: Option<WorkerId>)
    requires IsRun(c, run, acts) && IdInv(run[0]) && n <= m <= k < |run|
    requires j in run[n].jobs && run[n].jobs[j].currentTask == Task(t) && t !in run[n].jobs[j].active
    requires j in run[m].jobs && run[m].jobs[j].currentTask != Task(t)
    requires r.job == j && r.task == t
    requires j in run[k].jobs && (run[k].jobs[j].status == WaitingForParallel ==> run[k].jobs[j].active != [])
    ensures Fenced(run[k], j, t) && Unmoved(run[k], Result(c, run[k], r, retry), j)
  {
    RunIds(c, run, acts, n);
    DrawnJob(run[n], j);
    StaysAttempted(c, run, acts, n, m, j, t);
    StaysFenced(c, run, acts, m, k, j, t);
    FencedResultIsInert(c, run[k], r, retry);
  }

  lemma {:induction false} StaysAttempted(c: Config, run: seq<World>, acts: seq<Action>, n: nat, m: nat, j: JobId,
                                          t: TaskId)
    requires IsRun(c, run, acts) && IdInv(run[0]) && n <= m < |run| && Attempted(run[n], j, t)
    ensures Attempted(run[m], j, t)
  {
    if n < m {
      StaysAttempted(c, run, acts, n, m - 1, j, t);
      RunIds(c, run, acts, m - 1);
      hide Step, IdInv;
      StepKeepsFence(c, run[m - 1], acts[m - 1], j, t);
    }
  }

  lemma {:induction false} StaysFenced(c: Config, run: seq<World>, acts: seq<Action>, m: nat, k: nat, j: JobId,
                                       t: TaskId)
    requires IsRun(c, run, acts) && IdInv(run[0]) && m <= k < |run| && Fenced(run[m], j, t)
    ensures Fenced(run[k], j, t)
  {
    if m < k {
      StaysFenced(c, run, acts, m, k - 1, j, t);
      RunIds(c, run, acts, k - 1);
      hide Step, IdInv;
      StepKeepsFence(c, run[k - 1], acts[k - 1], j, t);
    }
  }

  /** A timed-out single task that finds a worker is sent out under a new id, which fences
      the old one. */
  lemma TimeoutDrawsFreshId(c: Config, w: World, j: JobId, t: TaskId, worker: WorkerId)
    requires IdInv(w) && j in w.jobs && w.jobs[j].status == WaitingForWorker && w.jobs[j].pickedUp
    requires w.jobs[j].currentTask == Task(t) && t !in w.jobs[j].active
    requires w.jobs[j].taskInfo.Some? && w.jobs[j].retryCount < c.maxRetries
    ensures var w' := Fire(c, w, JobKey(j), Some(worker));
      && Fenced(w', j, t) && w'.jobs[j].currentTask == Task(w.nextTask)
      && w'.jobs[j].assignee == Some(worker) && JobKey(j) in w'.watch
  {
    DrawnJob(w, j);
  }

  /** Job 0 awaits task 0, which nobody or worker 5 has picked up. */
  ghost predicate AwaitsFirst(w: World, picked: bool) {
    && 0 in w.jobs && JobKey(0) in w.watch
    && (var job := w.jobs[0];
        && job.status == WaitingForWorker && job.currentTask == Task(0) && job.active == [] && job.taskInfo.Some?
        && job.retryCount == 0 && (picked ==> job.pickedUp) && job.assignee == Some(5))
  }

  lemma FirstTaskSent(c: Config, info: TaskInfo)
    requires c.maxTransitions >= 1 && info.taskId.None?
    ensures var w := CreateJob(EMPTY, "start", false, None);
      && 0 in w.messages
      && AwaitsFirst(Process(c, w, 0, Ran(map[], DispatchTask(info, Some(5)))), false)
  {}

  lemma FirstTaskPicked(w: World)
    requires AwaitsFirst(w, false)
    ensures AwaitsFirst(Poll(w, 5, 0, 0), true)
  {}

  /** A run to which the fence applies: a task is sent out, picked up, times out, and is sent
      out again to another worker. */
  lemma FencedRun(c: Config, info: TaskInfo) returns (run: seq<World>, acts: seq<Action>)
    requires c.maxTransitions >= 1 && c.maxRetries >= 1 && info.taskId.None?
    ensures IsRun(c, run, acts) && |run| == 5 && run[0] == EMPTY
    ensures AwaitsFirst(run[2], false) && 0 in run[4].jobs && run[4].jobs[0].assignee == Some(6) && Fenced(run[4], 0, 0)
  {
    hide Process, Fire, CreateJob, Poll;
    FirstTaskSent(c, info);
    var w1 := CreateJob(EMPTY, "start", false, None);
    var w2 := Process(c, w1, 0, Ran(map[], DispatchTask(info, Some(5))));
    FirstTaskPicked(w2);
    var w3 := Poll(w2, 5, 0, 0);
    run := [EMPTY, w1, w2, w3, Fire(c, w3, JobKey(0), Some(6))];
    acts := [ACreate("start", false), AProcess(0, Ran(map[], DispatchTask(info, Some(5)))), APoll(5, 0, 0),
             AFire(JobKey(0), Some(6))];
    assert IsRun(c, run, acts);
    RunIds(c, run, acts, 3);
    TimeoutDrawsFreshId(c, w3, 0, 0, 6);
  }
}
