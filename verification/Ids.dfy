/** Every id in the store was drawn from its counter, so an id drawn later is
    new: an invariant of all steps. */
module Ids {
  import opened Basics
  import opened Lifecycle

  ghost predicate JobIds(w: World, job: Job) {
    && (forall b :: b in job.active ==> b < w.nextTask)
    && (job.taskInfo.Some? ==> job.taskInfo.value.taskId.None?)
    && (forall b :: b in job.branchInfo ==> b < w.nextTask && job.branchInfo[b].taskId == Some(b))
    && (job.currentTask.Task? ==> job.currentTask.id < w.nextTask)
  }

  ghost predicate IdInv(w: World) {
    && (forall j :: j in w.jobs ==> j < w.nextJob && JobIds(w, w.jobs[j]))
    && (forall j: JobId, b: TaskId :: BranchKey(j, b) in w.watch ==> b < w.nextTask)
    && (forall e :: e in w.log && e.TaskEnqueued? ==> e.task < w.nextTask)
  }

  lemma DrawnJob(w: World, j: JobId)
    requires IdInv(w) && j in w.jobs
    ensures j < w.nextJob && JobIds(w, w.jobs[j])
  {}

  lemma SaveIds(w: World, j: JobId, job: Job)
    requires IdInv(w) && JobIds(w, job) && j < w.nextJob
    ensures IdInv(Save(w, j, job)) && IdInv(Enqueue(Save(w, j, job), j)) && IdInv(Quarantine(Save(w, j, job), j))
  {}

  lemma QueueIds(w: World, j: JobId)
    requires IdInv(w)
    ensures IdInv(Enqueue(w, j)) && IdInv(Ack(w, j)) && IdInv(Quarantine(w, j))
  {}

  lemma WatchIds(w: World, k: WatchKey)
    requires IdInv(w)
    ensures IdInv(Unwatch(w, k))
    ensures k.JobKey? || k.task < w.nextTask ==> IdInv(Watch(w, k))
  {}

  lemma DispatchIds(w: World, j: JobId, info: TaskInfo, worker: WorkerId)
    requires IdInv(w) && j in w.jobs
    requires info.taskId.Some? ==> info.taskId.value in w.jobs[j].active
    ensures IdInv(Dispatch(w, j, info, worker)) && j in Dispatch(w, j, info, worker).jobs
  {
    var t := PushedId(w, info.taskId);
    var pushed := Push(w, worker, j, info.taskId);
    var job := w.jobs[j];
    assert t in job.active ==> info.taskId == Some(t);
    var marked := MarkDispatched(job, info, t, worker);
    assert IdInv(pushed) && JobIds(pushed, job);
    assert JobIds(pushed, marked);
    SaveIds(pushed, j, marked);
    WatchIds(Save(pushed, j, marked), KeyFor(job, j, t));
  }

  lemma ResumeIds(w: World, j: JobId, end: State)
    requires IdInv(w)
    ensures IdInv(ResumeParent(w, j, end)) && ResumeParent(w, j, end).nextTask == w.nextTask
    ensures ResumeParent(w, j, end).nextJob == w.nextJob
  {
    if j in w.parents && w.parents[j] in w.jobs {
      SaveIds(w, w.parents[j], ResumedParent(w.jobs[w.parents[j]], end));
    }
  }

  lemma EndIds(w: World, j: JobId, job: Job, status: Status, valid: bool)
    requires IdInv(w) && JobIds(w, job) && j < w.nextJob
    ensures var w' := ReachEnd(w, j, job, status, valid);
      IdInv(w') && w'.nextTask == w.nextTask && w'.nextJob == w.nextJob
  {
    hide ResumeParent, IdInv;
    var ended := job.(status := if status == Finished && !valid then Failed else status);
    ResumeIds(w, j, job.current);
    SaveIds(ResumeParent(w, j, job.current), j, ended);
    ResumeIds(Save(ResumeParent(w, j, job.current), j, ended), j, job.current);
  }

  lemma FailHandlerIds(c: Config, w: World, j: JobId, job: Job)
    requires IdInv(w) && JobIds(w, job) && j < w.nextJob
    ensures IdInv(FailHandler(c, w, j, job))
  {
    hide ResumeParent, IdInv, ReachEnd;
    if job.retryCount < c.maxRetries {
      SaveIds(w, j, job.(retryCount := job.retryCount + 1, status := AwaitingRetry));
    } else {
      EndIds(w, j, job, Quarantined, true);
      var w1 := ReachEnd(w, j, job, Quarantined, true);
      QueueIds(w1, j);
      ResumeIds(Quarantine(w1, j), j, job.current);
    }
  }

  lemma {:induction false} BranchesIds(w: World, j: JobId, tasks: seq<TaskInfo>, ids: seq<TaskId>,
                                       workers: seq<WorkerId>, n: nat)
    requires IdInv(w) && j in w.jobs && n <= |tasks| == |ids| && n <= |workers| && w.jobs[j].active == ids
    ensures var w' := DispatchBranches(w, j, tasks, ids, workers, n);
      IdInv(w') && w'.jobs[j].active == ids && w'.nextTask == w.nextTask && w'.nextJob == w.nextJob
  {
    hide IdInv;
    if n > 0 {
      BranchesIds(w, j, tasks, ids, workers, n - 1);
      DispatchIds(DispatchBranches(w, j, tasks, ids, workers, n - 1), j, BranchTask(tasks[n - 1], ids[n - 1]),
                  workers[n - 1]);
    }
  }

  lemma StartIds(w: World, j: JobId, job: Job, into: State, n: nat)
    requires IdInv(w) && JobIds(w, job) && j in w.jobs
    ensures IdInv(StartFanOut(w, j, job, into, n))
  {
    var w1 := w.(nextTask := w.nextTask + n);
    assert IdInv(w1);
    SaveIds(w1, j, FanOutJob(job, into, FreshIds(w.nextTask, n)));
  }

  /** The record of the branch whose dispatch raised. */
  lemma HeldIds(w: World, j: JobId, info: TaskInfo, b: TaskId)
    requires IdInv(w) && j in w.jobs && b in w.jobs[j].active
    ensures j < w.nextJob
    ensures JobIds(w, w.jobs[j].(branchInfo := w.jobs[j].branchInfo[b := BranchTask(info, b)]))
  {
    DrawnJob(w, j);
    hide IdInv;
  }

  lemma FanOutIds(c: Config, w: World, j: JobId, job: Job, tasks: seq<TaskInfo>, into: State, workers: seq<WorkerId>)
    requires IdInv(w) && JobIds(w, job) && j in w.jobs
    ensures IdInv(FanOutStep(c, w, j, job, tasks, into, workers))
  {
    var ids := FreshIds(w.nextTask, |tasks|);
    var started := StartFanOut(w, j, job, into, |tasks|);
    StartIds(w, j, job, into, |tasks|);
    assert j in started.jobs && started.jobs[j].active == ids;
    var n := if |workers| < |tasks| then |workers| else |tasks|;
    hide DispatchBranches, FailHandler, StartFanOut, IdInv, JobIds, BranchTask;
    BranchesIds(started, j, tasks, ids, workers, n);
    if |workers| < |tasks| {
      var done := DispatchBranches(started, j, tasks, ids, workers, n);
      HeldIds(done, j, tasks[n], ids[n]);
      FailHandlerIds(c, done, j,
        done.jobs[j].(branchInfo := done.jobs[j].branchInfo[ids[n] := BranchTask(tasks[n], ids[n])]));
    }
  }

  lemma TaskIds(c: Config, w: World, j: JobId, job: Job, info: TaskInfo, worker: Option<WorkerId>)
    requires IdInv(w) && JobIds(w, job) && j in w.jobs && info.taskId.None?
    ensures IdInv(Settle(c, w, j, job, DispatchTask(info, worker)))
  {
    hide IdInv, FailHandler, Dispatch;
    var saved := Save(w, j, TaskJob(job, info));
    DrawnJob(w, j);
    SaveIds(w, j, TaskJob(job, info));
    WatchIds(saved, JobKey(j));
    if worker.Some? {
      DispatchIds(Watch(saved, JobKey(j)), j, info, worker.value);
    } else {
      FailHandlerIds(c, Watch(saved, JobKey(j)), j, TaskJob(job, info));
    }
  }

  lemma DrawJobIds(w: World, start: State, parent: Option<JobId>)
    requires IdInv(w)
    ensures IdInv(DrawJob(w, parent)) && JobIds(DrawJob(w, parent), NewJob(start))
  {}

  lemma CreateIds(w: World, start: State, watched: bool, parent: Option<JobId>)
    requires IdInv(w)
    ensures var w' := CreateJob(w, start, watched, parent);
      IdInv(w') && w'.nextTask == w.nextTask && w'.nextJob == w.nextJob + 1
  {
    hide IdInv, JobIds;
    var saved := Save(DrawJob(w, parent), w.nextJob, NewJob(start));
    DrawJobIds(w, start, parent);
    SaveIds(DrawJob(w, parent), w.nextJob, NewJob(start));
    WatchIds(saved, JobKey(w.nextJob));
    QueueIds(if watched then Watch(saved, JobKey(w.nextJob)) else saved, w.nextJob);
  }

  lemma SettleIds(c: Config, w: World, j: JobId, job: Job, outcome: Outcome)
    requires IdInv(w) && JobIds(w, job) && j in w.jobs && PlainTasks(Ran(map[], outcome))
    ensures IdInv(Settle(c, w, j, job, outcome))
  {
    hide FailHandler, FanOutStep, ReachEnd;
    match outcome
    case Raised => FailHandlerIds(c, w, j, job);
    case GoTo(next) => SaveIds(w, j, job.(retryCount := 0, current := next, status := Running));
    case DispatchTask(info, worker) => TaskIds(c, w, j, job, info, worker);
    case AwaitHuman(transitions) => SaveIds(w, j, job.(status := WaitingForHuman, transitions := transitions));
    case FanOut(tasks, into, workers) => FanOutIds(c, w, j, job, tasks, into, workers);
    case RunBlueprint(transitions, start, watched, created) =>
      if created {
        CreateIds(w, start, watched, Some(j));
        SaveIds(CreateJob(w, start, watched, Some(j)), j,
                job.(status := WaitingForSubJob, child := Some(w.nextJob), transitions := transitions));
      } else {
        FailHandlerIds(c, w, j, job);
      }
    case NoAction(_, valid) => EndIds(w, j, job, if job.current == "finished" then Finished else Failed, valid);
  }

  lemma ProcessIds(c: Config, w: World, j: JobId, run: HandlerRun)
    requires IdInv(w) && PlainTasks(run)
    ensures IdInv(Process(c, w, j, run))
  {
    hide FailHandler, Settle;
    if j in w.jobs {
      assert JobIds(w, w.jobs[j]);
      SaveIds(w, j, w.jobs[j].(status := Failed));
      match run
      case NoHandler => FailHandlerIds(c, w, j, Counted(w.jobs[j]));
      case Ran(updates, outcome) =>
        var job := if outcome.Raised? then Counted(w.jobs[j])
                   else Counted(w.jobs[j]).(history := w.jobs[j].history + updates);
        assert IdInv(LogHandler(w, j));
        SettleIds(c, LogHandler(w, j), j, job, outcome);
    }
    QueueIds(ProcessBody(c, w, j, run), j);
  }

  lemma RedispatchIds(w: World, k: WatchKey, j: JobId, job: Job, info: TaskInfo, worker: Option<WorkerId>)
    requires IdInv(w) && JobIds(w, job) && j in w.jobs && (k.JobKey? || k.task < w.nextTask)
    requires info.taskId.Some? ==> info.taskId.value in job.active
    ensures IdInv(Redispatch(w, k, j, job, info, worker))
  {
    WatchIds(w, k);
    SaveIds(Watch(w, k), j, job);
    if worker.Some? {
      DispatchIds(Save(Watch(w, k), j, job), j, info, worker.value);
    }
  }

  lemma FailBranchIds(c: Config, w: World, j: JobId, job: Job, t: TaskId, worker: Option<WorkerId>)
    requires IdInv(w) && JobIds(w, job) && j in w.jobs && t in job.active
    ensures IdInv(FailBranch(c, w, j, job, t, worker))
  {
    hide Redispatch, IdInv;
    DrawnJob(w, j);
    if RetriesOf(job, t) >= c.maxRetries {
      SaveIds(w, j, job.(status := Quarantined));
    } else if t in job.branchInfo {
      RedispatchIds(w, BranchKey(j, t), j, RetriedBranch(job, t), job.branchInfo[t], worker);
    }
  }

  lemma FailSingleIds(c: Config, w: World, j: JobId, job: Job, worker: Option<WorkerId>)
    requires IdInv(w) && JobIds(w, job) && j in w.jobs
    ensures IdInv(FailSingle(c, w, j, job, worker))
  {
    hide Redispatch, IdInv;
    DrawnJob(w, j);
    if job.retryCount >= c.maxRetries {
      SaveIds(w, j, job.(status := Quarantined));
    } else if job.taskInfo.None? {
      SaveIds(w, j, job.(retryCount := job.retryCount + 1, status := Failed));
    } else {
      RedispatchIds(w, JobKey(j), j, RetriedSingle(job), job.taskInfo.value, worker);
    }
  }

  lemma FailTaskIds(c: Config, w: World, j: JobId, job: Job, t: TaskRef, worker: Option<WorkerId>)
    requires IdInv(w) && JobIds(w, job) && j in w.jobs
    ensures IdInv(FailTask(c, w, j, job, t, worker))
  {
    hide IdInv, JobIds, FailBranch, FailSingle;
    if !Terminal(job.status) {
      if IsBranch(job, t) {
        FailBranchIds(c, w, j, job, t.id, worker);
      } else {
        FailSingleIds(c, w, j, job, worker);
      }
    }
  }

  lemma MoveOnIds(w: World, j: JobId, job: Job, next: Option<State>, data: map<string, Data>, otherwise: Status)
    requires IdInv(w) && JobIds(w, job) && j < w.nextJob
    ensures IdInv(MoveOn(w, j, job, next, data, otherwise))
  {
    hide IdInv;
    if next.Some? {
      SaveIds(w, j, job.(history := job.history + data, current := next.value, status := Running));
    } else {
      SaveIds(w, j, job.(status := otherwise));
    }
  }

  lemma SettleResultIds(c: Config, w: World, job: Job, r: Report, retry: Option<WorkerId>)
    requires IdInv(w) && JobIds(w, job) && r.job in w.jobs
    ensures IdInv(SettleResult(c, w, job, r, retry))
  {
    hide FailTask, MoveOn;
    match Effective(r)
    case Failure(_) =>
      FailTaskIds(c, w, r.job, job, Task(r.task), retry);
      SaveIds(w, r.job, job.(status := Failed));
      SaveIds(w, r.job, job.(status := Quarantined));
    case TaskCancelled => MoveOnIds(w, r.job, job, Truthy(job.transitions, "cancelled"), map[], Cancelled);
    case Reported(name) => MoveOnIds(w, r.job, job, Truthy(job.transitions, name), r.data, Failed);
  }

  lemma RecordIds(w: World, j: JobId, t: TaskId, payload: Data)
    requires IdInv(w) && j in w.jobs
    ensures IdInv(Save(Unwatch(w, BranchKey(j, t)), j, RecordBranch(w.jobs[j], t, payload)))
  {
    WatchIds(w, BranchKey(j, t));
    SaveIds(Unwatch(w, BranchKey(j, t)), j, RecordBranch(w.jobs[j], t, payload));
  }

  lemma ResultIds(c: Config, w: World, r: Report, retry: Option<WorkerId>)
    requires IdInv(w)
    ensures IdInv(Result(c, w, r, retry))
  {
    hide SettleResult, RecordBranch, IdInv;
    if r.job in w.jobs {
      var job := w.jobs[r.job];
      RecordIds(w, r.job, r.task, r.payload);
      QueueIds(Save(Unwatch(w, BranchKey(r.job, r.task)), r.job, RecordBranch(job, r.task, r.payload)), r.job);
      DrawnJob(w, r.job);
      WatchIds(w, JobKey(r.job));
      var seen := if r.picked && r.task !in job.active then job.(pickedUp := true) else job;
      SettleResultIds(c, Unwatch(w, JobKey(r.job)), seen, r, retry);
    }
  }

  lemma FireIds(c: Config, w: World, k: WatchKey, worker: Option<WorkerId>)
    requires IdInv(w)
    ensures IdInv(Fire(c, w, k, worker))
  {
    hide FailTask;
    WatchIds(w, k);
    if k.job in w.jobs {
      DrawnJob(w, k.job);
      var job := w.jobs[k.job];
      SaveIds(Unwatch(w, k), k.job, job.(status := Failed));
      FailTaskIds(c, Unwatch(w, k), k.job, job, if k.JobKey? then job.currentTask else Task(k.task), worker);
    }
  }

  lemma StepIds(c: Config, w: World, a: Action)
    requires IdInv(w) && Enabled(w, a)
    ensures IdInv(Step(c, w, a))
  {
    hide Process, Result, Fire, CreateJob, Poll, Event, Cancel, Approve, IdInv;
    match a
    case ACreate(start, watched) => CreateIds(w, start, watched, None);
    case AProcess(j, run) => ProcessIds(c, w, j, run);
    case APoll(worker, j, t) => PollIds(w, worker, j, t);
    case AResult(r, retry) => ResultIds(c, w, r, retry);
    case AEvent(j, kind, payload, id) => EventIds(w, j, kind, payload, id);
    case AFire(k, retry) => FireIds(c, w, k, retry);
    case ACancel(j) => CancelIds(w, j);
    case AApprove(j, decision) => ApproveIds(w, j, decision);
  }

  lemma PollIds(w: World, worker: WorkerId, j: JobId, t: TaskId)
    requires IdInv(w) && j in w.jobs
    ensures IdInv(Poll(w, worker, j, t))
  {}

  lemma EventIds(w: World, j: JobId, kind: string, payload: map<string, Data>, id: nat)
    requires IdInv(w)
    ensures IdInv(Event(w, j, kind, payload, id))
  {}

  lemma CancelIds(w: World, j: JobId)
    requires IdInv(w)
    ensures IdInv(Cancel(w, j))
  {}

  lemma ApproveIds(w: World, j: JobId, decision: string)
    requires IdInv(w)
    ensures IdInv(Approve(w, j, decision))
  {}

  lemma {:induction false} RunIds(c: Config, run: seq<World>, acts: seq<Action>, n: nat)
    requires IsRun(c, run, acts) && n < |run| && IdInv(run[0])
    ensures IdInv(run[n])
  {
    if n > 0 {
      RunIds(c, run, acts, n - 1);
      hide IdInv, Step;
      StepIds(c, run[n - 1], acts[n - 1]);
    }
  }
}
