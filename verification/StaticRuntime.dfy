/** What the integrity check buys at run time: a job of a validated blueprint,
    whose handlers use only the analysed literal targets, is always in a defined
    state. Event transitions and the resumption of a parent are not analysed by
    the check and are excepted. */
module StaticRuntime {
  import opened Basics
  import opened Lifecycle
  import opened Ids
  import opened Frames
  import G = BlueprintGraph

  /** Every target the handler handed over was read off the source of the state's handlers. */
  predicate Literal(t: G.Transitions, state: State, run: HandlerRun) {
    run.Ran? ==>
      match run.outcome
      case GoTo(next) => next in G.Successors(t, state)
      case DispatchTask(info, _) => info.transitions.Values <= G.Successors(t, state)
      case AwaitHuman(transitions) => transitions.Values <= G.Successors(t, state)
      case FanOut(_, into, _) => into in G.Successors(t, state)
      case RunBlueprint(transitions, start, _, _) => transitions.Values <= G.Successors(t, state)
      case _ => true
  }

  /** The step, if it is about job j, follows the analysis of j's blueprint. */
  ghost predicate Analysed(t: G.Transitions, w: World, a: Action, j: JobId) {
    Subject(w, a) == j && j in w.jobs ==>
      match a
      case AProcess(_, run) => Literal(t, w.jobs[j].current, run)
      case AEvent(_, kind, _, _) => Truthy(w.jobs[j].eventTransitions, kind).None?
      case _ => true
  }

  /** Where the job is and where it may go next. */
  ghost predicate OnMap(defined: set<State>, job: Job) {
    && job.current in defined && job.transitions.Values <= defined
    && (job.target.Some? ==> job.target.value in defined)
  }

  predicate SameCourse(a: Job, b: Job) {
    a.current == b.current && a.transitions == b.transitions && a.target == b.target
  }

  ghost predicate Course(w': World, j: JobId, job: Job) { j in w'.jobs && SameCourse(job, w'.jobs[j]) }

  lemma ResumeCourse(w: World, j: JobId, end: State)
    requires j in w.jobs && !(j in w.parents && w.parents[j] == j)
    ensures Course(ResumeParent(w, j, end), j, w.jobs[j]) && ResumeParent(w, j, end).parents == w.parents
  {}

  lemma EndCourse(w: World, j: JobId, job: Job, status: Status, valid: bool)
    requires !(j in w.parents && w.parents[j] == j)
    ensures var w' := ReachEnd(w, j, job, status, valid); Course(w', j, job) && w'.parents == w.parents
  {
    hide ResumeParent;
    var ended := job.(status := if status == Finished && !valid then Failed else status);
    ResumeTouches(w, j, job.current);
    ResumeCourse(Save(ResumeParent(w, j, job.current), j, ended), j, job.current);
  }

  lemma FailHandlerCourse(c: Config, w: World, j: JobId, job: Job)
    requires !(j in w.parents && w.parents[j] == j)
    ensures Course(FailHandler(c, w, j, job), j, job)
  {
    hide ReachEnd, ResumeParent;
    if job.retryCount >= c.maxRetries {
      EndCourse(w, j, job, Quarantined, true);
      ResumeCourse(Quarantine(ReachEnd(w, j, job, Quarantined, true), j), j, job.current);
    }
  }

  lemma {:induction false} BranchesCourse(w: World, j: JobId, tasks: seq<TaskInfo>, ids: seq<TaskId>,
                                          workers: seq<WorkerId>, n: nat)
    requires j in w.jobs && n <= |tasks| == |ids| && n <= |workers|
    ensures var w' := DispatchBranches(w, j, tasks, ids, workers, n);
      Course(w', j, w.jobs[j]) && w'.parents == w.parents
  {
    if n > 0 {
      BranchesCourse(w, j, tasks, ids, workers, n - 1);
    }
  }

  lemma CourseTrans(w': World, j: JobId, a: Job, b: Job)
    requires SameCourse(a, b) && Course(w', j, b)
    ensures Course(w', j, a)
  {}

  lemma FanOutCourse(c: Config, w: World, j: JobId, job: Job, tasks: seq<TaskInfo>, into: State, workers: seq<WorkerId>)
    requires !(j in w.parents && w.parents[j] == j)
    ensures Course(FanOutStep(c, w, j, job, tasks, into, workers), j, job.(current := into, target := Some(into)))
  {
    hide DispatchBranches, FailHandler;
    var ids := FreshIds(w.nextTask, |tasks|);
    var started := StartFanOut(w, j, job, into, |tasks|);
    var n := if |workers| < |tasks| then |workers| else |tasks|;
    BranchesCourse(started, j, tasks, ids, workers, n);
    var done := DispatchBranches(started, j, tasks, ids, workers, n);
    var moved := job.(current := into, target := Some(into));
    assert SameCourse(moved, done.jobs[j]);
    if |workers| < |tasks| {
      var held := done.jobs[j].(branchInfo := done.jobs[j].branchInfo[ids[n] := BranchTask(tasks[n], ids[n])]);
      FailHandlerCourse(c, done, j, held);
      hide Course;
      CourseTrans(FailHandler(c, done, j, held), j, moved, held);
    }
  }

  lemma DispatchCourse(w: World, j: JobId, info: TaskInfo, worker: WorkerId)
    requires j in w.jobs
    ensures Course(Dispatch(w, j, info, worker), j, w.jobs[j])
  {}

  lemma TaskCourse(c: Config, w: World, j: JobId, job: Job, info: TaskInfo, worker: Option<WorkerId>)
    requires !(j in w.parents && w.parents[j] == j)
    ensures Course(Settle(c, w, j, job, DispatchTask(info, worker)), j, job.(transitions := info.transitions))
  {
    hide FailHandler, Dispatch, Course;
    var waiting := Watch(Save(w, j, TaskJob(job, info)), JobKey(j));
    if worker.Some? {
      DispatchCourse(waiting, j, info, worker.value);
    } else {
      FailHandlerCourse(c, waiting, j, TaskJob(job, info));
    }
    CourseTrans(Settle(c, w, j, job, DispatchTask(info, worker)), j, job.(transitions := info.transitions),
        TaskJob(job, info));
  }

  lemma SettleStaysOnMap(c: Config, w: World, j: JobId, job: Job, outcome: Outcome, defined: set<State>,
                         t: G.Transitions)
    requires j in w.jobs && j < w.nextJob && !(j in w.parents && w.parents[j] == j)
    requires OnMap(defined, job) && SameCourse(w.jobs[j], job) && G.Sound(t, defined)
    requires Literal(t, job.current, Ran(map[], outcome))
    ensures var w' := Settle(c, w, j, job, outcome); j in w'.jobs && OnMap(defined, w'.jobs[j])
  {
    assert forall s :: s in G.Successors(t, job.current) ==> s in defined;
    hide FailHandler, FanOutStep, ReachEnd, Dispatch, Course, SameCourse, G.Sound, G.Successors;
    var w' := Settle(c, w, j, job, outcome);
    match outcome
    case Raised =>
      FailHandlerCourse(c, w, j, job);
      CourseOnMap(w', j, job, defined);
    case DispatchTask(info, worker) =>
      TaskCourse(c, w, j, job, info, worker);
      CourseOnMap(w', j, job.(transitions := info.transitions), defined);
    case FanOut(tasks, into, workers) =>
      FanOutCourse(c, w, j, job, tasks, into, workers);
      CourseOnMap(w', j, job.(current := into, target := Some(into)), defined);
    case RunBlueprint(_, _, _, created) =>
      if !created {
        FailHandlerCourse(c, w, j, job);
        CourseOnMap(w', j, job, defined);
      }
    case NoAction(isEnd, valid) =>
      if isEnd {
        EndCourse(w, j, job, if job.current == "finished" then Finished else Failed, valid);
        CourseOnMap(w', j, job, defined);
      } else {
        StayedOnMap(w, j, job, defined);
      }
    case _ =>
  }

  lemma CourseOnMap(w': World, j: JobId, job: Job, defined: set<State>)
    requires Course(w', j, job) && OnMap(defined, job)
    ensures j in w'.jobs && OnMap(defined, w'.jobs[j])
  {}

  lemma StayedOnMap(w: World, j: JobId, job: Job, defined: set<State>)
    requires j in w.jobs && SameCourse(w.jobs[j], job) && OnMap(defined, job)
    ensures OnMap(defined, w.jobs[j])
  {}

  lemma ProcessStaysOnMap(c: Config, w: World, j: JobId, run: HandlerRun, defined: set<State>, t: G.Transitions)
    requires j in w.jobs && j < w.nextJob && !(j in w.parents && w.parents[j] == j)
    requires OnMap(defined, w.jobs[j]) && G.Sound(t, defined) && Literal(t, w.jobs[j].current, run)
    ensures var w' := Process(c, w, j, run); j in w'.jobs && OnMap(defined, w'.jobs[j])
  {
    hide FailHandler, Settle, OnMap;
    assert forall job :: SameCourse(w.jobs[j], job) ==> OnMap(defined, job) by { SameCourseOnMap(defined, w.jobs[j]); }
    if !Terminal(w.jobs[j].status) && w.jobs[j].transitionCount + 1 <= c.maxTransitions {
      match run
      case NoHandler => FailHandlerCourse(c, w, j, Counted(w.jobs[j]));
      case Ran(updates, outcome) =>
        var job := if outcome.Raised? then Counted(w.jobs[j])
                   else Counted(w.jobs[j]).(history := w.jobs[j].history + updates);
        SettleStaysOnMap(c, LogHandler(w, j), j, job, outcome, defined, t);
    }
  }

  lemma SameCourseOnMap(defined: set<State>, job: Job)
    requires OnMap(defined, job)
    ensures forall other :: SameCourse(job, other) ==> OnMap(defined, other)
  {}

  lemma RedispatchCourse(w: World, k: WatchKey, j: JobId, job: Job, info: TaskInfo, worker: Option<WorkerId>)
    ensures Course(Redispatch(w, k, j, job, info, worker), j, job)
  {
    hide Dispatch;
    if worker.Some? {
      DispatchCourse(Save(Watch(w, k), j, job), j, info, worker.value);
    }
  }

  lemma FailBranchCourse(c: Config, w: World, j: JobId, job: Job, t: TaskId, worker: Option<WorkerId>)
    requires Course(w, j, job)
    ensures Course(FailBranch(c, w, j, job, t, worker), j, job)
  {
    hide Redispatch;
    if t in job.branchInfo {
      RedispatchCourse(w, BranchKey(j, t), j, RetriedBranch(job, t), job.branchInfo[t], worker);
    }
  }

  lemma FailSingleCourse(c: Config, w: World, j: JobId, job: Job, worker: Option<WorkerId>)
    requires Course(w, j, job)
    ensures Course(FailSingle(c, w, j, job, worker), j, job)
  {
    hide Redispatch;
    if job.retryCount < c.maxRetries && job.taskInfo.Some? {
      RedispatchCourse(w, JobKey(j), j, RetriedSingle(job), job.taskInfo.value, worker);
    }
  }

  lemma FailTaskCourse(c: Config, w: World, j: JobId, job: Job, t: TaskRef, worker: Option<WorkerId>)
    requires Course(w, j, job)
    ensures Course(FailTask(c, w, j, job, t, worker), j, job)
  {
    hide FailBranch, FailSingle, Course;
    if IsBranch(job, t) {
      FailBranchCourse(c, w, j, job, t.id, worker);
    } else {
      FailSingleCourse(c, w, j, job, worker);
    }
  }

  lemma MoveOnStaysOnMap(w: World, j: JobId, job: Job, next: Option<State>, data: map<string, Data>, otherwise: Status,
                         defined: set<State>)
    requires OnMap(defined, job) && (next.Some? ==> next.value in job.transitions.Values)
    ensures var w' := MoveOn(w, j, job, next, data, otherwise); j in w'.jobs && OnMap(defined, w'.jobs[j])
  {}

  lemma SettleFailureStaysOnMap(c: Config, w: World, job: Job, r: Report, code: ErrorCode, retry: Option<WorkerId>,
                                defined: set<State>)
    requires Course(w, r.job, job) && OnMap(defined, job)
    ensures var w' := SettleFailure(c, w, r.job, job, r.task, code, retry);
      r.job in w'.jobs && OnMap(defined, w'.jobs[r.job])
  {
    hide FailTask;
    FailTaskCourse(c, w, r.job, job, Task(r.task), retry);
  }

  lemma RecordStaysOnMap(job: Job, t: TaskId, payload: Data, defined: set<State>)
    requires OnMap(defined, job)
    ensures OnMap(defined, RecordBranch(job, t, payload))
  {}

  lemma SettleResultStaysOnMap(c: Config, w: World, job: Job, r: Report, retry: Option<WorkerId>, defined: set<State>)
    requires Course(w, r.job, job) && OnMap(defined, job)
    ensures var w' := SettleResult(c, w, job, r, retry); r.job in w'.jobs && OnMap(defined, w'.jobs[r.job])
  {
    hide SettleFailure, MoveOn, OnMap;
    match Effective(r)
    case Failure(code) => SettleFailureStaysOnMap(c, w, job, r, code, retry, defined);
    case TaskCancelled =>
      MoveOnStaysOnMap(w, r.job, job, Truthy(job.transitions, "cancelled"), map[], Cancelled, defined);
    case Reported(name) => MoveOnStaysOnMap(w, r.job, job, Truthy(job.transitions, name), r.data, Failed, defined);
  }

  lemma ResultStaysOnMap(c: Config, w: World, r: Report, retry: Option<WorkerId>, defined: set<State>)
    requires r.job in w.jobs && OnMap(defined, w.jobs[r.job])
    ensures var w' := Result(c, w, r, retry); r.job in w'.jobs && OnMap(defined, w'.jobs[r.job])
  {
    var job := w.jobs[r.job];
    var seen := if r.picked && r.task !in job.active then job.(pickedUp := true) else job;
    assert OnMap(defined, seen);
    hide SettleResult, RecordBranch, OnMap;
    RecordStaysOnMap(job, r.task, r.payload, defined);
    SettleResultStaysOnMap(c, Unwatch(w, JobKey(r.job)), seen, r, retry, defined);
  }

  lemma FireStaysOnMap(c: Config, w: World, k: WatchKey, worker: Option<WorkerId>, defined: set<State>)
    requires k.job in w.jobs && OnMap(defined, w.jobs[k.job])
    ensures var w' := Fire(c, w, k, worker); k.job in w'.jobs && OnMap(defined, w'.jobs[k.job])
  {
    hide FailTask;
    var job := w.jobs[k.job];
    FailTaskCourse(c, Unwatch(w, k), k.job, job, if k.JobKey? then job.currentTask else Task(k.task), worker);
  }

  lemma OthersStayOnMap(w: World, j: JobId, defined: set<State>, worker: WorkerId, t: TaskId, decision: string)
    requires j in w.jobs && OnMap(defined, w.jobs[j])
    ensures j in Poll(w, worker, j, t).jobs && OnMap(defined, Poll(w, worker, j, t).jobs[j])
    ensures j in Cancel(w, j).jobs && OnMap(defined, Cancel(w, j).jobs[j])
    ensures j in Approve(w, j, decision).jobs && OnMap(defined, Approve(w, j, decision).jobs[j])
  {}

  lemma SubjectStaysOnMap(c: Config, w: World, a: Action, defined: set<State>, t: G.Transitions)
    requires IdInv(w) && Enabled(w, a) && Analysed(t, w, a, Subject(w, a)) && G.Sound(t, defined)
    requires var j := Subject(w, a); j in w.jobs && Childless(w, j) && OnMap(defined, w.jobs[j])
    ensures var j, w' := Subject(w, a), Step(c, w, a); j in w'.jobs && OnMap(defined, w'.jobs[j])
  {
    hide Process, Result, Fire, IdInv, OnMap, Poll, Cancel, Approve;
    DrawnJob(w, Subject(w, a));
    assert !a.ACreate?;
    assert a.AEvent? ==> Step(c, w, a) == w;
    match a
    case APoll(worker, j, task) => OthersStayOnMap(w, j, defined, worker, task, "");
    case ACancel(j) => OthersStayOnMap(w, j, defined, 0, 0, "");
    case AApprove(j, decision) => OthersStayOnMap(w, j, defined, 0, 0, decision);
    case AProcess(j, run) => ProcessStaysOnMap(c, w, j, run, defined, t);
    case AResult(r, retry) => ResultStaysOnMap(c, w, r, retry, defined);
    case AFire(k, retry) => FireStaysOnMap(c, w, k, retry, defined);
    case _ =>
  }

  lemma StepStaysOnMap(c: Config, w: World, a: Action, j: JobId, defined: set<State>, t: G.Transitions)
    requires IdInv(w) && Enabled(w, a) && Analysed(t, w, a, j) && G.Sound(t, defined)
    requires j in w.jobs && Childless(w, j) && OnMap(defined, w.jobs[j])
    ensures j in Step(c, w, a).jobs && OnMap(defined, Step(c, w, a).jobs[j])
  {
    hide Step, IdInv, OnMap;
    if j == Subject(w, a) {
      SubjectStaysOnMap(c, w, a, defined, t);
    } else {
      IdInvDraws(w);
      StepTouches(c, w, a);
    }
  }

  lemma IdInvDraws(w: World)
    requires IdInv(w)
    ensures DrawnJobs(w)
  {}

  lemma {:induction false} StaysOnMap(c: Config, run: seq<World>, acts: seq<Action>, n: nat, m: nat, j: JobId,
                                      defined: set<State>, t: G.Transitions)
    requires IsRun(c, run, acts) && IdInv(run[0]) && n <= m < |run| && G.Sound(t, defined)
    requires j in run[n].jobs && OnMap(defined, run[n].jobs[j])
    requires forall i :: n <= i < m ==> Analysed(t, run[i], acts[i], j) && Childless(run[i], j)
    ensures j in run[m].jobs && OnMap(defined, run[m].jobs[j])
  {
    hide Step, IdInv, OnMap, Analysed, G.Sound, Childless, Enabled, IsRun;
    RunLength(c, run, acts);
    if n < m {
      StaysOnMap(c, run, acts, n, m - 1, j, defined, t);
      RunIds(c, run, acts, m - 1);
      RunStep(c, run, acts, m - 1);
      StepStaysOnMap(c, run[m - 1], acts[m - 1], j, defined, t);
    }
  }

  /** Static validation pays off: for a graph that the integrity check accepts, a job that
      begins in the start state, runs no sub-blueprint and whose steps use the analysed
      targets, is in a defined state at every moment of every run. */
  lemma CurrentStateIsDefined(c: Config, run: seq<World>, acts: seq<Action>, n: nat, m: nat, j: JobId,
                              defined: set<State>, t: G.Transitions, start: State)
    requires IsRun(c, run, acts) && IdInv(run[0]) && n <= m < |run|
    requires G.Sound(t, defined) && G.Connected(t, defined, start) && start in defined
    requires j in run[n].jobs && run[n].jobs[j] == NewJob(start)
    requires forall i :: n <= i < m ==> Analysed(t, run[i], acts[i], j) && Childless(run[i], j)
    ensures j in run[m].jobs && run[m].jobs[j].current in defined
    ensures G.Reaches(t, start, run[m].jobs[j].current)
  {
    StartOnMap(defined, start);
    hide IsRun, Analysed, G.Sound, Childless, IdInv;
    StaysOnMap(c, run, acts, n, m, j, defined, t);
  }

  lemma StartOnMap(defined: set<State>, start: State)
    requires start in defined
    ensures OnMap(defined, NewJob(start))
  {}
}
