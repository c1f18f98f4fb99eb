/** What a step leaves alone: every job other than its subject and the parent
    that its subject may resume. */
module Frames {
  import opened Basics
  import opened Lifecycle

  /** Job ids were drawn from the counter. */
  ghost predicate DrawnJobs(w: World) { forall k :: k in w.jobs ==> k < w.nextJob }

  ghost predicate Touches(w: World, w': World, j: JobId) {
    && (forall k :: k in w.jobs ==> k in w'.jobs)
    && (forall k :: k in w.jobs && k != j ==>
          && w'.jobs[k].active == w.jobs[k].active && w'.jobs[k].currentTask == w.jobs[k].currentTask
          && w'.jobs[k].assignee == w.jobs[k].assignee)
    && (forall k :: k in w.jobs && k != j && !(j in w.parents && w.parents[j] == k) ==> w'.jobs[k] == w.jobs[k])
  }

  ghost predicate Childless(w: World, k: JobId) {
    forall j :: j in w.parents ==> w.parents[j] != k
  }

  /** No job got a parent, except that j may have started a child. */
  ghost predicate SameParents(w: World, w': World, j: JobId) {
    w'.parents == w.parents || w'.parents == w.parents[w.nextJob := j]
  }

  lemma TouchesTrans(w: World, w1: World, w2: World, j: JobId)
    requires Touches(w, w1, j) && Touches(w1, w2, j) && w1.parents == w.parents
    ensures Touches(w, w2, j)
  {}

  lemma ResumeTouches(w: World, j: JobId, end: State)
    ensures var w' := ResumeParent(w, j, end); Touches(w, w', j) && w'.parents == w.parents
  {}

  /** Saving job j is a change of job j. */
  lemma SaveTouches(w: World, j: JobId, w': World)
    requires w'.jobs == w.jobs || (j in w'.jobs && w'.jobs == w.jobs[j := w'.jobs[j]])
    ensures Touches(w, w', j)
  {}

  lemma EndTouches(w: World, j: JobId, job: Job, status: Status, valid: bool)
    ensures var w' := ReachEnd(w, j, job, status, valid); Touches(w, w', j) && w'.parents == w.parents && j in w'.jobs
  {
    hide ResumeParent;
    var ended := job.(status := if status == Finished && !valid then Failed else status);
    var w1 := ResumeParent(w, j, job.current);
    var w2 := Save(w1, j, ended);
    ResumeTouches(w, j, job.current);
    ResumeTouches(w2, j, job.current);
    assert j in ResumeParent(w2, j, job.current).jobs;
    hide Touches;
    SaveTouches(w1, j, w2);
    TouchesTrans(w, w1, w2, j);
    TouchesTrans(w, w2, ResumeParent(w2, j, job.current), j);
  }

  lemma FailHandlerTouches(c: Config, w: World, j: JobId, job: Job)
    ensures var w' := FailHandler(c, w, j, job); Touches(w, w', j) && w'.parents == w.parents && j in w'.jobs
  {
    hide ReachEnd, ResumeParent;
    if job.retryCount >= c.maxRetries {
      var w1 := ReachEnd(w, j, job, Quarantined, true);
      EndTouches(w, j, job, Quarantined, true);
      ResumeTouches(Quarantine(w1, j), j, job.current);
    }
  }

  lemma DispatchIsSave(w: World, j: JobId, info: TaskInfo, worker: WorkerId)
    requires j in w.jobs
    ensures var w' := Dispatch(w, j, info, worker);
      j in w'.jobs && w'.jobs == w.jobs[j := w'.jobs[j]] && w'.parents == w.parents
  {}

  lemma {:induction false} BranchesTouch(w: World, j: JobId, tasks: seq<TaskInfo>, ids: seq<TaskId>,
                                         workers: seq<WorkerId>, n: nat)
    requires j in w.jobs && n <= |tasks| == |ids| && n <= |workers|
    ensures var w' := DispatchBranches(w, j, tasks, ids, workers, n); Touches(w, w', j) && w'.parents == w.parents
  {
    if n > 0 {
      BranchesTouch(w, j, tasks, ids, workers, n - 1);
      var before := DispatchBranches(w, j, tasks, ids, workers, n - 1);
      DispatchIsSave(before, j, BranchTask(tasks[n - 1], ids[n - 1]), workers[n - 1]);
      var after := DispatchBranches(w, j, tasks, ids, workers, n);
      assert after == Dispatch(before, j, BranchTask(tasks[n - 1], ids[n - 1]), workers[n - 1]);
      hide Touches, Dispatch, BranchTask, DispatchBranches;
      SaveTouches(before, j, after);
      TouchesTrans(w, before, after, j);
    }
  }

  lemma FanOutTouches(c: Config, w: World, j: JobId, job: Job, tasks: seq<TaskInfo>, into: State,
                      workers: seq<WorkerId>)
    ensures var w' := FanOutStep(c, w, j, job, tasks, into, workers);
      Touches(w, w', j) && w'.parents == w.parents && j in w'.jobs
  {
    hide FailHandler, DispatchBranches;
    var ids := FreshIds(w.nextTask, |tasks|);
    var started := StartFanOut(w, j, job, into, |tasks|);
    var n := if |workers| < |tasks| then |workers| else |tasks|;
    BranchesTouch(started, j, tasks, ids, workers, n);
    var done := DispatchBranches(started, j, tasks, ids, workers, n);
    TouchesTrans(w, started, done, j);
    if |workers| < |tasks| {
      var held := done.jobs[j].(branchInfo := done.jobs[j].branchInfo[ids[n] := BranchTask(tasks[n], ids[n])]);
      FailHandlerTouches(c, done, j, held);
      TouchesTrans(w, done, FailHandler(c, done, j, held), j);
    }
  }

  lemma TaskTouches(c: Config, w: World, j: JobId, job: Job, info: TaskInfo, worker: Option<WorkerId>)
    ensures var w' := Settle(c, w, j, job, DispatchTask(info, worker));
      Touches(w, w', j) && w'.parents == w.parents && j in w'.jobs
  {
    var waiting := Watch(Save(w, j, TaskJob(job, info)), JobKey(j));
    if worker.Some? {
      DispatchIsSave(waiting, j, info, worker.value);
      hide Dispatch;
      SaveTouches(w, j, Dispatch(waiting, j, info, worker.value));
    } else {
      FailHandlerTouches(c, waiting, j, TaskJob(job, info));
      SaveTouches(w, j, waiting);
      hide FailHandler, Touches;
      TouchesTrans(w, waiting, FailHandler(c, waiting, j, TaskJob(job, info)), j);
    }
  }

  lemma ChildTouches(c: Config, w: World, j: JobId, job: Job, outcome: Outcome)
    requires DrawnJobs(w) && j in w.jobs && outcome.RunBlueprint? && outcome.created
    ensures var w' := Settle(c, w, j, job, outcome); Touches(w, w', j) && SameParents(w, w', j) && j in w'.jobs
  {
    var w' := Settle(c, w, j, job, outcome);
    var kid := w.nextJob;
    assert kid !in w.jobs && w'.jobs == w.jobs[kid := NewJob(outcome.start)][j := w'.jobs[j]];
    assert w'.parents == w.parents[kid := j];
    hide Settle;
  }

  lemma SettleTouches(c: Config, w: World, j: JobId, job: Job, outcome: Outcome)
    requires DrawnJobs(w) && j in w.jobs
    ensures var w' := Settle(c, w, j, job, outcome); Touches(w, w', j) && SameParents(w, w', j) && j in w'.jobs
  {
    hide FailHandler, FanOutStep, ReachEnd, Touches;
    match outcome
    case Raised => FailHandlerTouches(c, w, j, job);
    case DispatchTask(info, worker) => TaskTouches(c, w, j, job, info, worker);
    case FanOut(tasks, into, workers) => FanOutTouches(c, w, j, job, tasks, into, workers);
    case RunBlueprint(_, _, _, created) =>
      if created { ChildTouches(c, w, j, job, outcome); } else { FailHandlerTouches(c, w, j, job); }
    case NoAction(_, valid) =>
      EndTouches(w, j, job, if job.current == "finished" then Finished else Failed, valid);
      SaveTouches(w, j, w);
    case _ => SaveTouches(w, j, Settle(c, w, j, job, outcome));
  }

  lemma ProcessTouches(c: Config, w: World, j: JobId, run: HandlerRun)
    requires DrawnJobs(w) && j in w.jobs
    ensures var w' := Process(c, w, j, run); Touches(w, w', j) && SameParents(w, w', j)
  {
    hide FailHandler, Settle, Touches, Counted;
    var job := w.jobs[j];
    if Terminal(job.status) {
      AckTouches(w, w, w, j);
      SaveTouches(w, j, w);
    } else if job.transitionCount + 1 > c.maxTransitions {
      SaveTouches(w, j, Save(w, j, job.(status := Failed)));
      AckTouches(w, w, Save(w, j, job.(status := Failed)), j);
    } else if run.Ran? {
      var job1 := if run.outcome.Raised? then Counted(job) else Counted(job).(history := job.history + run.updates);
      var logged := LogHandler(w, j);
      SettleTouches(c, logged, j, job1, run.outcome);
      AckTouches(w, logged, Settle(c, logged, j, job1, run.outcome), j);
    } else {
      FailHandlerTouches(c, w, j, Counted(job));
      AckTouches(w, w, FailHandler(c, w, j, Counted(job)), j);
    }
  }

  /** The log and the messages are no part of this. */
  lemma AckTouches(w: World, logged: World, w': World, j: JobId)
    requires logged.jobs == w.jobs && logged.parents == w.parents && logged.nextJob == w.nextJob
        && Touches(logged, w', j)
    ensures Touches(w, Ack(w', j), j)
  {}

  lemma FailBranchTouches(c: Config, w: World, j: JobId, job: Job, t: TaskId, worker: Option<WorkerId>)
    ensures var w' := FailBranch(c, w, j, job, t, worker); Touches(w, w', j) && w'.parents == w.parents
  {
    hide Touches;
    SaveTouches(w, j, FailBranch(c, w, j, job, t, worker));
  }

  lemma FailSingleTouches(c: Config, w: World, j: JobId, job: Job, worker: Option<WorkerId>)
    ensures var w' := FailSingle(c, w, j, job, worker); Touches(w, w', j) && w'.parents == w.parents
  {
    hide Touches;
    SaveTouches(w, j, FailSingle(c, w, j, job, worker));
  }

  lemma FailTaskTouches(c: Config, w: World, j: JobId, job: Job, t: TaskRef, worker: Option<WorkerId>)
    ensures var w' := FailTask(c, w, j, job, t, worker); Touches(w, w', j) && w'.parents == w.parents
  {
    hide FailBranch, FailSingle, Touches;
    SaveTouches(w, j, w);
    if IsBranch(job, t) {
      FailBranchTouches(c, w, j, job, t.id, worker);
    } else {
      FailSingleTouches(c, w, j, job, worker);
    }
  }

  /** A step changes its subject, at most its subject's parent, and no other stored job. */
  lemma StepTouches(c: Config, w: World, a: Action)
    requires DrawnJobs(w) && Enabled(w, a)
    ensures var j, w' := Subject(w, a), Step(c, w, a);
      Touches(w, w', j) && (if a.AProcess? then SameParents(w, w', j) else w'.parents == w.parents)
  {
    hide FailTask, Process, Result, Fire, Touches;
    match a
    case AProcess(j, run) =>
      if j in w.jobs {
        ProcessTouches(c, w, j, run);
      } else {
        AbsentTouches(c, w, j, run);
        SaveTouches(w, j, Process(c, w, j, run));
      }
    case AResult(r, retry) => ResultTouches(c, w, r, retry);
    case AFire(k, retry) => FireTouches(c, w, k, retry);
    case _ => SaveTouches(w, Subject(w, a), Step(c, w, a));
  }

  lemma AbsentTouches(c: Config, w: World, j: JobId, run: HandlerRun)
    requires j !in w.jobs
    ensures Process(c, w, j, run).jobs == w.jobs && Process(c, w, j, run).parents == w.parents
  {}

  lemma SettleResultTouches(c: Config, w: World, job: Job, r: Report, retry: Option<WorkerId>)
    ensures var w' := SettleResult(c, w, job, r, retry); Touches(w, w', r.job) && w'.parents == w.parents
  {
    hide FailTask, Touches;
    match Effective(r)
    case Failure(Transient) => FailTaskTouches(c, w, r.job, job, Task(r.task), retry);
    case _ => SaveTouches(w, r.job, SettleResult(c, w, job, r, retry));
  }

  /** Removing a watch entry first is no part of this. */
  lemma PoppedTouches(w: World, k: WatchKey, w': World, j: JobId)
    requires Touches(Unwatch(w, k), w', j)
    ensures Touches(w, w', j)
  {}

  lemma ResultTouches(c: Config, w: World, r: Report, retry: Option<WorkerId>)
    ensures var w' := Result(c, w, r, retry); Touches(w, w', r.job) && w'.parents == w.parents
  {
    hide SettleResult, RecordBranch, Touches, Accepts;
    if r.job !in w.jobs || !Accepts(w.jobs[r.job], r.task, r.worker) {
      SaveTouches(w, r.job, w);
    } else if w.jobs[r.job].status == WaitingForParallel {
      SaveTouches(w, r.job, Result(c, w, r, retry));
    } else {
      var job, popped := w.jobs[r.job], Unwatch(w, JobKey(r.job));
      var seen := if r.picked && r.task !in job.active then job.(pickedUp := true) else job;
      SettleResultTouches(c, popped, seen, r, retry);
      PoppedTouches(w, JobKey(r.job), SettleResult(c, popped, seen, r, retry), r.job);
    }
  }

  lemma FireTouches(c: Config, w: World, k: WatchKey, retry: Option<WorkerId>)
    ensures var w' := Fire(c, w, k, retry); Touches(w, w', k.job) && w'.parents == w.parents
  {
    hide FailTask;
    if k.job in w.jobs {
      var job := w.jobs[k.job];
      FailTaskTouches(c, Unwatch(w, k), k.job, job, if k.JobKey? then job.currentTask else Task(k.task), retry);
    }
  }
}
