/** The course of a job: what its current state and its history are at any moment of any run,
    told from the actions alone. The state is the target of the last action that moved the job;
    the history is everything its handlers, the results it took up and its events wrote into it,
    in order, and nothing else. */
module JobCourse {
  import opened Basics
  import opened Lifecycle
  import opened Writes
  import opened Frames
  import opened Ids
  import Crash

  /** The result for t leaves no branch. */
  predicate LastBranch(job: Job, t: TaskId) { job.active == [] || job.active == [t] }

  /** The state in which the action leaves job j: the handler's choice, the aggregator's state, or
      the target of the blueprint's transition for a result, an event or a decision. */
  function NextState(c: Config, w: World, a: Action, j: JobId): State
    requires j in w.jobs
  {
    var job := w.jobs[j];
    match a
    case AProcess(k, Ran(_, GoTo(next))) => if k == j && Works(c, w, j) then next else job.current
    case AProcess(k, Ran(_, FanOut(_, into, _))) => if k == j && Works(c, w, j) then into else job.current
    case AResult(r, _) =>
      if r.job != j || !Admits(job, r.task, r.worker) then job.current
      else if job.status == WaitingForParallel then
        if LastBranch(job, r.task) && job.target.Some? then job.target.value else job.current
      else if r.status.TaskCancelled? && Leads(job, "cancelled") then job.transitions["cancelled"]
      else if r.status.Reported? && !Broken(r) && Leads(job, r.status.name) then job.transitions[r.status.name]
      else job.current
    case AEvent(k, kind, _, _) => if k == j && Noticed(job, kind) then job.eventTransitions[kind] else job.current
    case AApprove(k, decision) => if k == j && Decided(job, decision) then job.transitions[decision] else job.current
    case _ => job.current
  }

  predicate Noticed(job: Job, kind: string) {
    job.status == WaitingForWorker && kind in job.eventTransitions && job.eventTransitions[kind] != ""
  }

  predicate Decided(job: Job, decision: string) {
    (job.status == WaitingForWorker || job.status == WaitingForHuman) && decision != "" && Leads(job, decision)
  }

  /** What the action adds to the history of job j. A handler that raised, or that chose nothing
      outside the end states, leaves nothing of its own. */
  function Added(c: Config, w: World, a: Action, j: JobId): map<string, Data>
    requires j in w.jobs
  {
    var job := w.jobs[j];
    match a
    case AProcess(k, Ran(u, outcome)) =>
      if k == j && Works(c, w, j) && !outcome.Raised? && !(outcome.NoAction? && !outcome.isEnd) then u else map[]
    case AResult(r, _) =>
      if r.job == j && Takes(w, r) && r.status.Reported? && !Broken(r) && Leads(job, r.status.name) then r.data
      else map[]
    case AEvent(k, kind, payload, _) => if k == j && Noticed(job, kind) then payload else map[]
    case _ => map[]
  }

  // ---------------------------------------------------------------- one step

  /** Job j stands in the state of `job`, with its history. */
  ghost predicate Stands(w: World, j: JobId, job: Job) {
    j in w.jobs && w.jobs[j].current == job.current && w.jobs[j].history == job.history
  }

  predicate OwnParent(w: World, j: JobId) { j in w.parents && w.parents[j] == j }

  lemma ResumeStands(w: World, j: JobId, end: State)
    requires j in w.jobs && !OwnParent(w, j)
    ensures Stands(ResumeParent(w, j, end), j, w.jobs[j])
  {}

  lemma EndStands(w: World, j: JobId, job: Job, status: Status, valid: bool)
    requires !OwnParent(w, j)
    ensures Stands(ReachEnd(w, j, job, status, valid), j, job)
    ensures ReachEnd(w, j, job, status, valid).parents == w.parents
  {
    hide ReachEnd, Resumed;
    if Orphan(w, j) {
      EndWritesAlone(w, j, job, status, valid);
    } else {
      EndWritesBoth(w, j, job, status, valid);
    }
  }

  lemma FailureStands(c: Config, w: World, j: JobId, job: Job)
    requires !OwnParent(w, j)
    ensures Stands(FailHandler(c, w, j, job), j, job)
  {
    hide ReachEnd, ResumeParent;
    if job.retryCount >= c.maxRetries {
      EndStands(w, j, job, Quarantined, true);
      ResumeStands(Quarantine(ReachEnd(w, j, job, Quarantined, true), j), j, job.current);
    }
  }

  lemma DispatchStands(w: World, j: JobId, info: TaskInfo, worker: WorkerId)
    requires j in w.jobs
    ensures Stands(Dispatch(w, j, info, worker), j, w.jobs[j])
  {}

  lemma {:induction false} BranchesStand(w: World, j: JobId, tasks: seq<TaskInfo>, ids: seq<TaskId>,
                                         workers: seq<WorkerId>, n: nat)
    requires j in w.jobs && n <= |tasks| == |ids| && n <= |workers|
    ensures Stands(DispatchBranches(w, j, tasks, ids, workers, n), j, w.jobs[j])
    ensures DispatchBranches(w, j, tasks, ids, workers, n).parents == w.parents
  {
    if n > 0 {
      BranchesStand(w, j, tasks, ids, workers, n - 1);
    }
  }

  lemma FanOutStands(c: Config, w: World, j: JobId, u: map<string, Data>, tasks: seq<TaskInfo>, into: State,
                     workers: seq<WorkerId>)
    requires Works(c, w, j) && !OwnParent(w, j)
    ensures var job := w.jobs[j];
      Stands(Process(c, w, j, Ran(u, FanOut(tasks, into, workers))), j,
             job.(current := into, history := job.history + u))
  {
    hide Process, DispatchBranches, FailHandler, BranchTask;
    FanOutHandled(c, w, j, u, tasks, into, workers);
    var ids, n := FreshIds(w.nextTask, |tasks|), if |workers| < |tasks| then |workers| else |tasks|;
    var started := StartFanOut(LogHandler(w, j), j, Merged(w.jobs[j], u), into, |tasks|);
    BranchesStand(started, j, tasks, ids, workers, n);
    var done := DispatchBranches(started, j, tasks, ids, workers, n);
    if n < |tasks| {
      FailureStands(c, done, j,
          done.jobs[j].(branchInfo := done.jobs[j].branchInfo[ids[n] := BranchTask(tasks[n], ids[n])]));
    }
  }

  lemma FailedStands(c: Config, w: World, j: JobId, run: HandlerRun)
    requires Works(c, w, j) && !OwnParent(w, j) && Fails(run)
    ensures Stands(Process(c, w, j, run), j, Held(w.jobs[j], run))
  {
    hide Process, FailHandler, Base, Held;
    FailureHandled(c, w, j, run);
    BaseLike(w, j, run);
    FailureStands(c, Base(w, j, run), j, Held(w.jobs[j], run));
  }

  lemma ChoiceStands(c: Config, w: World, j: JobId, u: map<string, Data>, outcome: Outcome)
    requires Works(c, w, j) && !OwnParent(w, j) && j < w.nextJob
    requires !Fails(Ran(u, outcome)) && !outcome.FanOut? && !outcome.GoTo? && (outcome.NoAction? ==> outcome.isEnd)
    ensures Stands(Process(c, w, j, Ran(u, outcome)), j, Merged(w.jobs[j], u))
  {
    hide Process, Dispatch, ReachEnd, FailHandler, FanOutStep;
    Handled(c, w, j, u, outcome);
    var logged, job := LogHandler(w, j), Merged(w.jobs[j], u);
    match outcome
    case DispatchTask(info, Some(worker)) =>
      DispatchStands(Watch(Save(logged, j, TaskJob(job, info)), JobKey(j)), j, info, worker);
    case NoAction(_, valid) =>
      EndStands(logged, j, job, if job.current == "finished" then Finished else Failed, valid);
    case _ =>
  }

  lemma ProcessStands(c: Config, w: World, j: JobId, run: HandlerRun)
    requires j in w.jobs && !OwnParent(w, j) && j < w.nextJob
    ensures var job, a := w.jobs[j], AProcess(j, run);
      Stands(Process(c, w, j, run), j,
             job.(current := NextState(c, w, a, j), history := job.history + Added(c, w, a, j)))
  {
    hide Process, Held, Base;
    var job := w.jobs[j];
    assert job.history + map[] == job.history;
    if !Works(c, w, j) {
      IdleWrites(c, w, j, run);
    } else if Fails(run) {
      FailedStands(c, w, j, run);
      HeldStands(job, run);
    } else {
      var u, outcome := run.updates, run.outcome;
      if outcome.GoTo? {
        GoToWrites(c, w, j, u, outcome.next);
      } else if outcome.FanOut? {
        FanOutStands(c, w, j, u, outcome.tasks, outcome.into, outcome.workers);
      } else if outcome.NoAction? && !outcome.isEnd {
        NothingChosenWrites(c, w, j, u, outcome.outputValid);
      } else {
        ChoiceStands(c, w, j, u, outcome);
      }
    }
  }

  lemma HeldStands(job: Job, run: HandlerRun)
    requires Fails(run)
    ensures Held(job, run).current == job.current
    ensures if run.Ran? && !run.outcome.Raised? then Held(job, run).history == job.history + run.updates
            else Held(job, run).history == job.history
  {
    if run.Ran? {
      match run.outcome
      case DispatchTask(info, _) =>
        assert Held(job, run) == Merged(job, run.updates).(status := WaitingForWorker, taskInfo := Some(info),
            transitions := info.transitions, eventTransitions := info.eventTransitions);
      case _ =>
    }
  }

  lemma RemoveLeavesNone(s: seq<TaskId>, t: TaskId)
    ensures Remove(s, t) == [] <==> s == [] || s == [t]
  {
    if s != [] && s[0] == t { assert s == [t] + s[1..]; }
  }

  lemma BranchResultStands(c: Config, w: World, r: Report, retry: Option<WorkerId>)
    requires r.job in w.jobs && Admits(w.jobs[r.job], r.task, r.worker) && w.jobs[r.job].status == WaitingForParallel
    ensures var job := w.jobs[r.job];
      Stands(Result(c, w, r, retry), r.job, if LastBranch(job, r.task) && job.target.Some?
                                            then job.(current := job.target.value) else job)
  {
    hide SettleResult;
    AdmittedExactly(c, w, r, retry);
    RemoveLeavesNone(w.jobs[r.job].active, r.task);
  }

  lemma RedispatchStands(w: World, k: WatchKey, j: JobId, job: Job, info: TaskInfo, worker: Option<WorkerId>)
    ensures Stands(Redispatch(w, k, j, job, info, worker), j, job)
  {
    hide Dispatch;
    if worker.Some? { DispatchStands(Save(Watch(w, k), j, job), j, info, worker.value); }
  }

  lemma FailedBranchStands(c: Config, w: World, j: JobId, job: Job, t: TaskId, worker: Option<WorkerId>)
    requires Stands(w, j, job)
    ensures Stands(FailBranch(c, w, j, job, t, worker), j, job)
  {
    hide Redispatch;
    if t in job.branchInfo {
      RedispatchStands(w, BranchKey(j, t), j, RetriedBranch(job, t), job.branchInfo[t], worker);
    }
  }

  lemma FailedSingleStands(c: Config, w: World, j: JobId, job: Job, worker: Option<WorkerId>)
    requires Stands(w, j, job)
    ensures Stands(FailSingle(c, w, j, job, worker), j, job)
  {
    hide Redispatch, Stands;
    if job.retryCount >= c.maxRetries {
      SavedStands(w, j, job, job.(status := Quarantined));
    } else if job.taskInfo.None? {
      SavedStands(w, j, job, job.(retryCount := job.retryCount + 1, status := Failed));
    } else {
      RedispatchStands(w, JobKey(j), j, RetriedSingle(job), job.taskInfo.value, worker);
      StandsAlike(FailSingle(c, w, j, job, worker), j, job, RetriedSingle(job));
    }
  }

  lemma StandsAlike(w: World, j: JobId, job: Job, other: Job)
    requires other.current == job.current && other.history == job.history && Stands(w, j, other)
    ensures Stands(w, j, job)
  {}

  lemma SavedStands(w: World, j: JobId, job: Job, saved: Job)
    requires saved.current == job.current && saved.history == job.history
    ensures Stands(Save(w, j, saved), j, job) && Stands(Quarantine(Save(w, j, saved), j), j, job)
  {}

  lemma FailedTaskStands(c: Config, w: World, j: JobId, job: Job, t: TaskRef, worker: Option<WorkerId>)
    requires Stands(w, j, job)
    ensures Stands(FailTask(c, w, j, job, t, worker), j, job)
  {
    hide FailBranch, FailSingle, Stands;
    FailedSingleStands(c, w, j, job, worker);
    if IsBranch(job, t) { FailedBranchStands(c, w, j, job, t.id, worker); }
  }

  lemma TransientStands(c: Config, w: World, r: Report, retry: Option<WorkerId>)
    requires Takes(w, r) && r.status == Failure(Transient)
    ensures Stands(Result(c, w, r, retry), r.job, w.jobs[r.job])
  {
    hide Result, FailTask;
    var job := Picked(w.jobs[r.job], r);
    ResultHandled(c, w, r, retry);
    FailedTaskStands(c, Unwatch(w, JobKey(r.job)), r.job, job, Task(r.task), retry);
  }

  lemma ReportStands(c: Config, w: World, r: Report, retry: Option<WorkerId>)
    requires Takes(w, r) && r.status.Reported? && !Broken(r)
    ensures var job, a := w.jobs[r.job], AResult(r, retry);
      Stands(Result(c, w, r, retry), r.job,
             job.(current := NextState(c, w, a, r.job), history := job.history + Added(c, w, a, r.job)))
  {
    hide Result, Admits, Broken;
    assert w.jobs[r.job].history + map[] == w.jobs[r.job].history;
    ReportWrites(c, w, r, retry);
  }

  lemma CancelledStands(c: Config, w: World, r: Report, retry: Option<WorkerId>)
    requires Takes(w, r) && r.status.TaskCancelled?
    ensures Stands(Result(c, w, r, retry), r.job,
                   w.jobs[r.job].(current := NextState(c, w, AResult(r, retry), r.job)))
  {
    hide Result, Admits;
    CancelledWrites(c, w, r, retry);
  }

  lemma ErrorStands(c: Config, w: World, r: Report, code: ErrorCode, retry: Option<WorkerId>)
    requires Takes(w, r) && FailsWith(r, code)
    ensures Stands(Result(c, w, r, retry), r.job, w.jobs[r.job])
  {
    hide Result, Admits;
    if code == Transient { TransientStands(c, w, r, retry); } else { ErrorWrites(c, w, r, code, retry); }
  }

  lemma SingleResultStands(c: Config, w: World, r: Report, retry: Option<WorkerId>)
    requires Takes(w, r)
    ensures var job, a := w.jobs[r.job], AResult(r, retry);
      Stands(Result(c, w, r, retry), r.job,
             job.(current := NextState(c, w, a, r.job), history := job.history + Added(c, w, a, r.job)))
  {
    hide Result, Admits;
    assert w.jobs[r.job].history + map[] == w.jobs[r.job].history;
    if Broken(r) {
      ErrorStands(c, w, r, ContractViolation, retry);
    } else {
      match r.status
      case Failure(code) => ErrorStands(c, w, r, code, retry);
      case TaskCancelled => CancelledStands(c, w, r, retry);
      case Reported(_) => ReportStands(c, w, r, retry);
    }
  }

  lemma FireStands(c: Config, w: World, k: WatchKey, worker: Option<WorkerId>)
    requires k.job in w.jobs
    ensures Stands(Fire(c, w, k, worker), k.job, w.jobs[k.job])
  {
    hide FailTask;
    var job := w.jobs[k.job];
    FailedTaskStands(c, Unwatch(w, k), k.job, job, if k.JobKey? then job.currentTask else Task(k.task), worker);
  }

  lemma ResultStands(c: Config, w: World, r: Report, retry: Option<WorkerId>)
    requires r.job in w.jobs
    ensures var job, a := w.jobs[r.job], AResult(r, retry);
      Stands(Result(c, w, r, retry), r.job,
             job.(current := NextState(c, w, a, r.job), history := job.history + Added(c, w, a, r.job)))
  {
    hide Result, Admits;
    assert w.jobs[r.job].history + map[] == w.jobs[r.job].history;
    if !Admits(w.jobs[r.job], r.task, r.worker) {
      AdmittedExactly(c, w, r, retry);
    } else if w.jobs[r.job].status == WaitingForParallel {
      BranchResultStands(c, w, r, retry);
    } else {
      SingleResultStands(c, w, r, retry);
    }
  }

  lemma EventStands(c: Config, w: World, j: JobId, kind: string, payload: map<string, Data>, id: nat)
    requires j in w.jobs
    ensures var job, a := w.jobs[j], AEvent(j, kind, payload, id);
      Stands(Event(w, j, kind, payload, id), j,
             job.(current := NextState(c, w, a, j), history := job.history + Added(c, w, a, j)))
  {
    assert w.jobs[j].history + map[] == w.jobs[j].history;
  }

  lemma OthersStand(c: Config, w: World, j: JobId, decision: string, worker: WorkerId, t: TaskId)
    requires j in w.jobs
    ensures Stands(Poll(w, worker, j, t), j, w.jobs[j]) && Stands(Cancel(w, j), j, w.jobs[j])
    ensures Stands(Approve(w, j, decision), j, w.jobs[j].(current := NextState(c, w, AApprove(j, decision), j)))
  {}

  /** One action: where it leaves a job, and what it adds to the job's history. */
  lemma StepTells(c: Config, w: World, a: Action, j: JobId)
    requires IdInv(w) && Enabled(w, a) && j in w.jobs && Childless(w, j)
    ensures var w' := Step(c, w, a);
      && j in w'.jobs && w'.jobs[j].current == NextState(c, w, a, j)
      && w'.jobs[j].history == w.jobs[j].history + Added(c, w, a, j)
  {
    hide Step, Works, Admits;
    DrawnJob(w, j);
    if Subject(w, a) == j {
      SubjectTells(c, w, a, j);
    } else {
      hide IdInv;
      StrangerTells(c, w, a, j);
      IdInvDraws(w);
      StepTouches(c, w, a);
    }
  }

  lemma StrangerTells(c: Config, w: World, a: Action, j: JobId)
    requires j in w.jobs && Subject(w, a) != j
    ensures NextState(c, w, a, j) == w.jobs[j].current
    ensures w.jobs[j].history + Added(c, w, a, j) == w.jobs[j].history
  {}

  lemma IdInvDraws(w: World)
    requires IdInv(w)
    ensures DrawnJobs(w)
  {}

  lemma SubjectTells(c: Config, w: World, a: Action, j: JobId)
    requires Enabled(w, a) && j in w.jobs && j < w.nextJob && !OwnParent(w, j) && Subject(w, a) == j
    ensures var job := w.jobs[j];
      Stands(Step(c, w, a), j, job.(current := NextState(c, w, a, j), history := job.history + Added(c, w, a, j)))
  {
    hide Process, Result, Fire, Event, Poll, Cancel, Approve, Works, Admits, Takes;
    assert w.jobs[j].history + map[] == w.jobs[j].history;
    match a
    case AProcess(_, run) => ProcessStands(c, w, j, run);
    case APoll(worker, _, t) => OthersStand(c, w, j, "", worker, t);
    case AResult(r, retry) => ResultStands(c, w, r, retry);
    case AEvent(_, kind, payload, id) => EventStands(c, w, j, kind, payload, id);
    case AFire(k, retry) => FireStands(c, w, k, retry);
    case ACancel(_) => OthersStand(c, w, j, "", 0, 0);
    case AApprove(_, decision) => OthersStand(c, w, j, decision, 0, 0);
  }

  // ---------------------------------------------------------------- runs

  /** What the actions from moment n to moment m added, in order; a later value takes an earlier one's place. */
  function AddedBetween(c: Config, run: seq<World>, acts: seq<Action>, n: nat, m: nat, j: JobId): map<string, Data>
    requires n <= m < |run| == |acts| + 1 && forall i :: n <= i <= m ==> j in run[i].jobs
  {
    if n == m then map[] else AddedBetween(c, run, acts, n, m - 1, j) + Added(c, run[m - 1], acts[m - 1], j)
  }

  lemma {:induction false} StaysStored(c: Config, run: seq<World>, acts: seq<Action>, n: nat, m: nat, j: JobId)
    requires IsRun(c, run, acts) && IdInv(run[0]) && n <= m < |run| && j in run[n].jobs
    ensures forall i :: n <= i <= m ==> j in run[i].jobs
  {
    hide Step, IdInv, Enabled;
    if n < m {
      StaysStored(c, run, acts, n, m - 1, j);
      RunIds(c, run, acts, m - 1);
      StepStores(c, run[m - 1], acts[m - 1], j);
    }
  }

  lemma StepStores(c: Config, w: World, a: Action, j: JobId)
    requires IdInv(w) && Enabled(w, a) && j in w.jobs
    ensures j in Step(c, w, a).jobs
  {
    StepTouches(c, w, a);
    hide Step;
  }

  lemma Regroup(a: map<string, Data>, b: map<string, Data>, d: map<string, Data>)
    ensures (a + b) + d == a + (b + d)
  {}

  /** Nothing is lost and nothing made up: at every later moment of every run the history of a job
      without children is what it was, with all that its handlers, accepted results and events
      added since, in order. */
  lemma {:induction false} HistoryIsMerge(c: Config, run: seq<World>, acts: seq<Action>, n: nat, m: nat, j: JobId)
    requires IsRun(c, run, acts) && IdInv(run[0]) && n <= m < |run| && j in run[n].jobs
    requires forall i :: n <= i <= m ==> Childless(run[i], j)
    ensures forall i :: n <= i <= m ==> j in run[i].jobs
    ensures run[m].jobs[j].history == run[n].jobs[j].history + AddedBetween(c, run, acts, n, m, j)
  {
    hide Step, IdInv, Enabled, Childless, Added;
    StaysStored(c, run, acts, n, m, j);
    var before := run[n].jobs[j].history;
    if n == m {
      assert before + map[] == before;
    } else {
      HistoryIsMerge(c, run, acts, n, m - 1, j);
      RunIds(c, run, acts, m - 1);
      RunStep(c, run, acts, m - 1);
      StepTells(c, run[m - 1], acts[m - 1], j);
      Regroup(before, AddedBetween(c, run, acts, n, m - 1, j), Added(c, run[m - 1], acts[m - 1], j));
    }
  }

  /** The target of the last action between moments n and m that moved the job, or where it stood. */
  function LastTarget(c: Config, run: seq<World>, acts: seq<Action>, n: nat, m: nat, j: JobId): State
    requires n <= m < |run| == |acts| + 1 && forall i :: n <= i <= m ==> j in run[i].jobs
  {
    if n == m then run[n].jobs[j].current
    else
      var w, a := run[m - 1], acts[m - 1];
      if Moves(c, w, a, j) then NextState(c, w, a, j) else LastTarget(c, run, acts, n, m - 1, j)
  }

  /** The action names a state for job j. */
  predicate Moves(c: Config, w: World, a: Action, j: JobId)
    requires j in w.jobs
  {
    var job := w.jobs[j];
    match a
    case AProcess(k, run) => k == j && Works(c, w, j) && run.Ran? && (run.outcome.GoTo? || run.outcome.FanOut?)
    case AResult(r, _) =>
      && r.job == j && Admits(job, r.task, r.worker)
      && (if job.status == WaitingForParallel then LastBranch(job, r.task) && job.target.Some?
          else (r.status.TaskCancelled? && Leads(job, "cancelled"))
               || (r.status.Reported? && !Broken(r) && Leads(job, r.status.name)))
    case AEvent(k, kind, _, _) => k == j && Noticed(job, kind)
    case AApprove(k, decision) => k == j && Decided(job, decision)
    case _ => false
  }

  lemma UnmovedStays(c: Config, w: World, a: Action, j: JobId)
    requires j in w.jobs && !Moves(c, w, a, j)
    ensures NextState(c, w, a, j) == w.jobs[j].current
  {}

  /** At every moment a job without children stands where the last action that moved it put it. */
  lemma {:induction false} StateIsLastTarget(c: Config, run: seq<World>, acts: seq<Action>, n: nat, m: nat, j: JobId)
    requires IsRun(c, run, acts) && IdInv(run[0]) && n <= m < |run| && j in run[n].jobs
    requires forall i :: n <= i <= m ==> Childless(run[i], j)
    ensures forall i :: n <= i <= m ==> j in run[i].jobs
    ensures run[m].jobs[j].current == LastTarget(c, run, acts, n, m, j)
  {
    hide Step, IdInv, Enabled, Childless, Moves, NextState;
    StaysStored(c, run, acts, n, m, j);
    if n < m {
      StateIsLastTarget(c, run, acts, n, m - 1, j);
      RunIds(c, run, acts, m - 1);
      RunStep(c, run, acts, m - 1);
      StepTells(c, run[m - 1], acts[m - 1], j);
      if !Moves(c, run[m - 1], acts[m - 1], j) { UnmovedStays(c, run[m - 1], acts[m - 1], j); }
    }
  }

  lemma {:induction false} UnhandledStaysQueued(c: Config, run: seq<World>, acts: seq<Action>, n: nat, m: nat, j: JobId)
    requires IsRun(c, run, acts) && n <= m < |run| && j in run[n].messages && j in run[n].jobs
    requires forall i :: n <= i < m ==> !(acts[i].AProcess? && acts[i].job == j)
    ensures j in run[m].messages && j in run[m].jobs
  {
    hide Step;
    if n < m {
      UnhandledStaysQueued(c, run, acts, n, m - 1, j);
      Crash.StaysPending(c, run[m - 1], Crash.Done(acts[m - 1]), j);
    }
  }

  /** What go_to is for: the state that a handler names is where the job stands, queued, when its
      next message is handled, whatever polls, timeouts and cancellations come in between, unless
      a result, an event or a decision moves it on. */
  lemma NextHandlerStandsThere(c: Config, run: seq<World>, acts: seq<Action>, n: nat, m: nat, j: JobId,
                               u: map<string, Data>, next: State)
    requires IsRun(c, run, acts) && IdInv(run[0]) && n < m < |run|
    requires acts[n] == AProcess(j, Ran(u, GoTo(next))) && Works(c, run[n], j)
    requires forall i :: n <= i <= m ==> Childless(run[i], j)
    requires forall i :: n < i < m ==> j in run[i].jobs && !Moves(c, run[i], acts[i], j)
                                       && !(acts[i].AProcess? && acts[i].job == j)
    ensures j in run[m].jobs && run[m].jobs[j].current == next && j in run[m].messages
  {
    hide Step, IdInv, Childless, Moves, NextState;
    RunStep(c, run, acts, n);
    GoToMoves(c, run[n], j, u, next);
    UnhandledStaysQueued(c, run, acts, n + 1, m, j);
    StateIsLastTarget(c, run, acts, n, m, j);
    NothingMoved(c, run, acts, n, m, j);
  }

  lemma GoToMoves(c: Config, w: World, j: JobId, u: map<string, Data>, next: State)
    requires Works(c, w, j) && j in w.messages
    ensures var a := AProcess(j, Ran(u, GoTo(next)));
      && Moves(c, w, a, j) && NextState(c, w, a, j) == next
      && j in Step(c, w, a).jobs && j in Step(c, w, a).messages
  {
    hide Process;
    GoToWrites(c, w, j, u, next);
  }

  lemma {:induction false} NothingMoved(c: Config, run: seq<World>, acts: seq<Action>, n: nat, m: nat, j: JobId)
    requires n < m < |run| == |acts| + 1 && forall i :: n <= i <= m ==> j in run[i].jobs
    requires forall i :: n < i < m ==> !Moves(c, run[i], acts[i], j)
    requires Moves(c, run[n], acts[n], j)
    ensures LastTarget(c, run, acts, n, m, j) == NextState(c, run[n], acts[n], j)
  {
    hide Moves, NextState;
    if n + 1 < m { NothingMoved(c, run, acts, n, m - 1, j); }
  }
}
