/** What survives when the process is killed while it handles a message. The executor's
    work on one message is written as the list of its storage calls; a kill leaves the
    store with a prefix of that list carried out. Module Actors carries out exactly
    this list. */
module Crash {
  import opened Basics
  import opened Lifecycle
  import NoLoss

  /** One request to the store. Drawing ids and running the handler are listed too: the
      process may die on either side of them. */
  datatype Call =
    | SaveCall(job: JobId, record: Job)
    | EnqueueCall(job: JobId)
    | AckCall(job: JobId)
    | WatchCall(key: WatchKey)
    | UnwatchCall(key: WatchKey)
    | QuarantineCall(job: JobId)
    | PushCall(worker: WorkerId, job: JobId, given: Option<TaskId>)
    | DrawTasksCall(n: nat)
    | DrawJobCall(parent: Option<JobId>)
    | HandlerCall(job: JobId)

  function DrawTasks(w: World, n: nat): World { w.(nextTask := w.nextTask + n) }

  function Apply(w: World, call: Call): World {
    match call
    case SaveCall(j, record) => Save(w, j, record)
    case EnqueueCall(j) => Enqueue(w, j)
    case AckCall(j) => Ack(w, j)
    case WatchCall(k) => Watch(w, k)
    case UnwatchCall(k) => Unwatch(w, k)
    case QuarantineCall(j) => Quarantine(w, j)
    case PushCall(worker, j, given) => Push(w, worker, j, given)
    case DrawTasksCall(n) => DrawTasks(w, n)
    case DrawJobCall(parent) => DrawJob(w, parent)
    case HandlerCall(j) => LogHandler(w, j)
  }

  function Play(w: World, calls: seq<Call>): World
    decreases |calls|
  {
    if |calls| == 0 then w else Play(Apply(w, calls[0]), calls[1..])
  }

  // ---------------------------------------------------------------- the executor's calls

  function DispatchCalls(w: World, j: JobId, info: TaskInfo, worker: WorkerId): seq<Call>
    requires j in w.jobs
  {
    var t := PushedId(w, info.taskId);
    [PushCall(worker, j, info.taskId), SaveCall(j, MarkDispatched(w.jobs[j], info, t, worker)),
     WatchCall(KeyFor(w.jobs[j], j, t))]
  }

  function ResumeCalls(w: World, j: JobId, end: State): seq<Call> {
    if j !in w.parents || w.parents[j] !in w.jobs then []
    else var p := w.parents[j]; [SaveCall(p, ResumedParent(w.jobs[p], end)), EnqueueCall(p)]
  }

  function EndCalls(w: World, j: JobId, job: Job, status: Status, outputValid: bool): seq<Call> {
    var ended := job.(status := if status == Finished && !outputValid then Failed else status);
    ResumeCalls(w, j, job.current) + [SaveCall(j, ended)]
    + ResumeCalls(Save(ResumeParent(w, j, job.current), j, ended), j, job.current)
  }

  function FailCalls(c: Config, w: World, j: JobId, job: Job): seq<Call> {
    if job.retryCount < c.maxRetries
    then [SaveCall(j, job.(retryCount := job.retryCount + 1, status := AwaitingRetry)), EnqueueCall(j)]
    else
      EndCalls(w, j, job, Quarantined, true) + [QuarantineCall(j)]
      + ResumeCalls(Quarantine(ReachEnd(w, j, job, Quarantined, true), j), j, job.current)
  }

  /** A branch is dispatched and then watched once more. */
  function ChunkCalls(w: World, j: JobId, info: TaskInfo, b: TaskId, worker: WorkerId): seq<Call>
    requires j in w.jobs
  {
    DispatchCalls(w, j, BranchTask(info, b), worker) + [WatchCall(BranchKey(j, b))]
  }

  /** The calls of the first n branches. */
  function BranchCalls(w: World, j: JobId, tasks: seq<TaskInfo>, ids: seq<TaskId>, workers: seq<WorkerId>,
                       n: nat): seq<Call>
    requires j in w.jobs && n <= |tasks| == |ids| && n <= |workers|
  {
    if n == 0 then []
    else
      BranchCalls(w, j, tasks, ids, workers, n - 1)
      + ChunkCalls(DispatchBranches(w, j, tasks, ids, workers, n - 1), j, tasks[n - 1], ids[n - 1], workers[n - 1])
  }

  function FanOutCalls(c: Config, w: World, j: JobId, job: Job, tasks: seq<TaskInfo>, into: State,
                       workers: seq<WorkerId>): seq<Call> {
    var ids := FreshIds(w.nextTask, |tasks|);
    var started := StartFanOut(w, j, job, into, |tasks|);
    var n := if |workers| < |tasks| then |workers| else |tasks|;
    var done := DispatchBranches(started, j, tasks, ids, workers, n);
    var held := done.jobs[j];
    [DrawTasksCall(|tasks|), SaveCall(j, FanOutJob(job, into, ids))]
    + BranchCalls(started, j, tasks, ids, workers, n)
    + if |workers| < |tasks|
      then FailCalls(c, done, j, held.(branchInfo := held.branchInfo[ids[n] := BranchTask(tasks[n], ids[n])]))
      else []
  }

  function CreateCalls(w: World, start: State, watched: bool, parent: Option<JobId>): seq<Call> {
    [DrawJobCall(parent), SaveCall(w.nextJob, NewJob(start))]
    + (if watched then [WatchCall(JobKey(w.nextJob))] else []) + [EnqueueCall(w.nextJob)]
  }

  function TaskCalls(c: Config, w: World, j: JobId, job: Job, info: TaskInfo, worker: Option<WorkerId>): seq<Call> {
    var waiting := Watch(Save(w, j, TaskJob(job, info)), JobKey(j));
    [SaveCall(j, TaskJob(job, info)), WatchCall(JobKey(j))]
    + if worker.Some? then DispatchCalls(waiting, j, info, worker.value)
      else FailCalls(c, waiting, j, TaskJob(job, info))
  }

  function SettleCalls(c: Config, w: World, j: JobId, job: Job, outcome: Outcome): seq<Call> {
    match outcome
    case Raised => FailCalls(c, w, j, job)
    case GoTo(next) => [SaveCall(j, job.(retryCount := 0, current := next, status := Running)), EnqueueCall(j)]
    case DispatchTask(info, worker) => TaskCalls(c, w, j, job, info, worker)
    case AwaitHuman(transitions) => [SaveCall(j, job.(status := WaitingForHuman, transitions := transitions))]
    case FanOut(tasks, into, workers) => FanOutCalls(c, w, j, job, tasks, into, workers)
    case RunBlueprint(transitions, start, watched, created) =>
      if created
      then CreateCalls(w, start, watched, Some(j))
           + [SaveCall(j, job.(status := WaitingForSubJob, child := Some(w.nextJob), transitions := transitions))]
      else FailCalls(c, w, j, job)
    case NoAction(isEnd, outputValid) =>
      if isEnd then EndCalls(w, j, job, if job.current == "finished" then Finished else Failed, outputValid) else []
  }

  /** `_process_job` without its acknowledgement. */
  function BodyCalls(c: Config, w: World, j: JobId, run: HandlerRun): seq<Call> {
    if j !in w.jobs || Terminal(w.jobs[j].status) then []
    else
      var job := w.jobs[j];
      if job.transitionCount + 1 > c.maxTransitions then [SaveCall(j, job.(status := Failed))]
      else
        match run
        case NoHandler => FailCalls(c, w, j, Counted(job))
        case Ran(updates, outcome) =>
          var job1 := if outcome.Raised? then Counted(job)
                      else Counted(job).(history := job.history + updates);
          [HandlerCall(j)] + SettleCalls(c, LogHandler(w, j), j, job1, outcome)
  }

  /** All of `_process_job`: the acknowledgement is its last call on every path. */
  function ProcessCalls(c: Config, w: World, j: JobId, run: HandlerRun): seq<Call> {
    BodyCalls(c, w, j, run) + [AckCall(j)]
  }

  // ---------------------------------------------------------------- the list does what the step does

  lemma {:induction false} PlayBoth(w: World, a: seq<Call>, b: seq<Call>)
    ensures Play(w, a + b) == Play(Play(w, a), b)
    decreases |a|
  {
    if |a| == 0 {
      assert a + b == b;
    } else {
      assert (a + b)[1..] == a[1..] + b;
      PlayBoth(Apply(w, a[0]), a[1..], b);
    }
  }

  lemma PlayOne(w: World, a: Call)
    ensures Play(w, [a]) == Apply(w, a)
  {}

  lemma PlayTwo(w: World, a: Call, b: Call)
    ensures Play(w, [a, b]) == Apply(Apply(w, a), b)
  {
    assert [a, b] == [a] + [b];
    PlayBoth(w, [a], [b]);
  }

  lemma DispatchPlayed(w: World, j: JobId, info: TaskInfo, worker: WorkerId)
    requires j in w.jobs
    ensures Play(w, DispatchCalls(w, j, info, worker)) == Dispatch(w, j, info, worker)
  {
    hide Play, MarkDispatched, KeyFor, Save, Push, Watch;
    var t := PushedId(w, info.taskId);
    var push := PushCall(worker, j, info.taskId);
    var save := SaveCall(j, MarkDispatched(w.jobs[j], info, t, worker));
    var watch := WatchCall(KeyFor(w.jobs[j], j, t));
    assert DispatchCalls(w, j, info, worker) == [push, save] + [watch];
    PlayBoth(w, [push, save], [watch]);
    PlayTwo(w, push, save);
    PlayOne(Apply(Apply(w, push), save), watch);
  }

  lemma ResumePlayed(w: World, j: JobId, end: State)
    ensures Play(w, ResumeCalls(w, j, end)) == ResumeParent(w, j, end)
  {
    if j in w.parents && w.parents[j] in w.jobs {
      PlayTwo(w, ResumeCalls(w, j, end)[0], ResumeCalls(w, j, end)[1]);
    }
  }

  lemma EndPlayed(w: World, j: JobId, job: Job, status: Status, outputValid: bool)
    ensures Play(w, EndCalls(w, j, job, status, outputValid)) == ReachEnd(w, j, job, status, outputValid)
  {
    hide ResumeParent, ResumeCalls, Play;
    var ended := job.(status := if status == Finished && !outputValid then Failed else status);
    var first := ResumeCalls(w, j, job.current);
    ResumePlayed(w, j, job.current);
    PlayBoth(w, first, [SaveCall(j, ended)]);
    PlayOne(ResumeParent(w, j, job.current), SaveCall(j, ended));
    var saved := Save(ResumeParent(w, j, job.current), j, ended);
    PlayBoth(w, first + [SaveCall(j, ended)], ResumeCalls(saved, j, job.current));
    ResumePlayed(saved, j, job.current);
  }

  lemma FailPlayed(c: Config, w: World, j: JobId, job: Job)
    ensures Play(w, FailCalls(c, w, j, job)) == FailHandler(c, w, j, job)
  {
    hide ResumeParent, ResumeCalls, Play, ReachEnd, EndCalls;
    if job.retryCount < c.maxRetries {
      PlayTwo(w, FailCalls(c, w, j, job)[0], FailCalls(c, w, j, job)[1]);
    } else {
      var first := EndCalls(w, j, job, Quarantined, true);
      EndPlayed(w, j, job, Quarantined, true);
      PlayBoth(w, first, [QuarantineCall(j)]);
      PlayOne(ReachEnd(w, j, job, Quarantined, true), QuarantineCall(j));
      var ended := Quarantine(ReachEnd(w, j, job, Quarantined, true), j);
      PlayBoth(w, first + [QuarantineCall(j)], ResumeCalls(ended, j, job.current));
      ResumePlayed(ended, j, job.current);
    }
  }

  lemma BranchWatched(w: World, j: JobId, info: TaskInfo, b: TaskId, worker: WorkerId)
    requires j in w.jobs && b in w.jobs[j].active
    ensures var w' := Dispatch(w, j, BranchTask(info, b), worker);
      w'.jobs[j].active == w.jobs[j].active && Watch(w', BranchKey(j, b)) == w'
  {}

  lemma {:induction false} BranchesPlayed(w: World, j: JobId, tasks: seq<TaskInfo>, ids: seq<TaskId>,
                                          workers: seq<WorkerId>, n: nat)
    requires j in w.jobs && n <= |tasks| == |ids| && n <= |workers| && w.jobs[j].active == ids
    ensures Play(w, BranchCalls(w, j, tasks, ids, workers, n)) == DispatchBranches(w, j, tasks, ids, workers, n)
    ensures DispatchBranches(w, j, tasks, ids, workers, n).jobs[j].active == ids
  {
    hide Play, Dispatch, ChunkCalls;
    if n == 0 {
      PlayNone(w);
    } else {
      BranchesPlayed(w, j, tasks, ids, workers, n - 1);
      var before := DispatchBranches(w, j, tasks, ids, workers, n - 1);
      ChunkPlayed(before, j, tasks[n - 1], ids[n - 1], workers[n - 1]);
      PlayBoth(w, BranchCalls(w, j, tasks, ids, workers, n - 1),
               ChunkCalls(before, j, tasks[n - 1], ids[n - 1], workers[n - 1]));
    }
  }

  /** Watching the branch once more makes no difference. */
  lemma ChunkPlayed(w: World, j: JobId, info: TaskInfo, b: TaskId, worker: WorkerId)
    requires j in w.jobs && b in w.jobs[j].active
    ensures var w' := Dispatch(w, j, BranchTask(info, b), worker);
      Play(w, ChunkCalls(w, j, info, b, worker)) == w' && j in w'.jobs && w'.jobs[j].active == w.jobs[j].active
  {
    BranchWatched(w, j, info, b, worker);
    hide Play, Dispatch, DispatchCalls;
    var w' := Dispatch(w, j, BranchTask(info, b), worker);
    DispatchPlayed(w, j, BranchTask(info, b), worker);
    PlayBoth(w, DispatchCalls(w, j, BranchTask(info, b), worker), [WatchCall(BranchKey(j, b))]);
    PlayOne(w', WatchCall(BranchKey(j, b)));
  }

  lemma PlayNone(w: World)
    ensures Play(w, []) == w
  {}

  lemma FanOutPlayed(c: Config, w: World, j: JobId, job: Job, tasks: seq<TaskInfo>, into: State, workers: seq<WorkerId>)
    ensures Play(w, FanOutCalls(c, w, j, job, tasks, into, workers)) == FanOutStep(c, w, j, job, tasks, into, workers)
  {
    hide Play, DispatchBranches, BranchCalls, FailCalls, FailHandler;
    var ids := FreshIds(w.nextTask, |tasks|);
    var started := StartFanOut(w, j, job, into, |tasks|);
    var n := if |workers| < |tasks| then |workers| else |tasks|;
    var opening := [DrawTasksCall(|tasks|), SaveCall(j, FanOutJob(job, into, ids))];
    PlayTwo(w, opening[0], opening[1]);
    var middle := BranchCalls(started, j, tasks, ids, workers, n);
    BranchesPlayed(started, j, tasks, ids, workers, n);
    PlayBoth(w, opening, middle);
    var done := DispatchBranches(started, j, tasks, ids, workers, n);
    if |workers| < |tasks| {
      var held := done.jobs[j].(branchInfo := done.jobs[j].branchInfo[ids[n] := BranchTask(tasks[n], ids[n])]);
      FailPlayed(c, done, j, held);
      PlayBoth(w, opening + middle, FailCalls(c, done, j, held));
    } else {
      assert opening + middle + [] == opening + middle;
    }
  }

  lemma CreatePlayed(w: World, start: State, watched: bool, parent: Option<JobId>)
    ensures Play(w, CreateCalls(w, start, watched, parent)) == CreateJob(w, start, watched, parent)
  {
    hide Play;
    var j := w.nextJob;
    var opening := [DrawJobCall(parent), SaveCall(j, NewJob(start))];
    PlayTwo(w, opening[0], opening[1]);
    var saved := Save(DrawJob(w, parent), j, NewJob(start));
    if watched {
      PlayBoth(w, opening, [WatchCall(JobKey(j))]);
      PlayOne(saved, WatchCall(JobKey(j)));
      PlayBoth(w, opening + [WatchCall(JobKey(j))], [EnqueueCall(j)]);
      PlayOne(Watch(saved, JobKey(j)), EnqueueCall(j));
    } else {
      assert opening + [] == opening;
      PlayBoth(w, opening, [EnqueueCall(j)]);
      PlayOne(saved, EnqueueCall(j));
    }
  }

  lemma TaskPlayed(c: Config, w: World, j: JobId, job: Job, info: TaskInfo, worker: Option<WorkerId>)
    ensures Play(w, TaskCalls(c, w, j, job, info, worker)) == Settle(c, w, j, job, DispatchTask(info, worker))
  {
    hide Play, Dispatch, DispatchCalls, FailCalls, FailHandler;
    var opening := [SaveCall(j, TaskJob(job, info)), WatchCall(JobKey(j))];
    var waiting := Watch(Save(w, j, TaskJob(job, info)), JobKey(j));
    PlayTwo(w, opening[0], opening[1]);
    if worker.Some? {
      DispatchPlayed(waiting, j, info, worker.value);
      PlayBoth(w, opening, DispatchCalls(waiting, j, info, worker.value));
    } else {
      FailPlayed(c, waiting, j, TaskJob(job, info));
      PlayBoth(w, opening, FailCalls(c, waiting, j, TaskJob(job, info)));
    }
  }

  lemma SettlePlayed(c: Config, w: World, j: JobId, job: Job, outcome: Outcome)
    ensures Play(w, SettleCalls(c, w, j, job, outcome)) == Settle(c, w, j, job, outcome)
  {
    PlayNone(w);
    hide Play, FailCalls, FailHandler, EndCalls, ReachEnd, FanOutCalls, FanOutStep, TaskCalls, CreateJob, CreateCalls;
    match outcome
    case Raised => FailPlayed(c, w, j, job);
    case GoTo(next) => PlayTwo(w, SettleCalls(c, w, j, job, outcome)[0], SettleCalls(c, w, j, job, outcome)[1]);
    case DispatchTask(info, worker) => TaskPlayed(c, w, j, job, info, worker);
    case AwaitHuman(transitions) => PlayOne(w, SettleCalls(c, w, j, job, outcome)[0]);
    case FanOut(tasks, into, workers) => FanOutPlayed(c, w, j, job, tasks, into, workers);
    case RunBlueprint(transitions, start, watched, created) =>
      if created {
        var last := SaveCall(j, job.(status := WaitingForSubJob, child := Some(w.nextJob), transitions := transitions));
        CreatePlayed(w, start, watched, Some(j));
        PlayBoth(w, CreateCalls(w, start, watched, Some(j)), [last]);
        PlayOne(CreateJob(w, start, watched, Some(j)), last);
      } else {
        FailPlayed(c, w, j, job);
      }
    case NoAction(_, outputValid) =>
      EndPlayed(w, j, job, if job.current == "finished" then Finished else Failed, outputValid);
  }

  /** Carried out to the end, the executor's calls make its step. */
  lemma ProcessPlayed(c: Config, w: World, j: JobId, run: HandlerRun)
    ensures Play(w, BodyCalls(c, w, j, run)) == ProcessBody(c, w, j, run)
    ensures Play(w, ProcessCalls(c, w, j, run)) == Process(c, w, j, run)
  {
    BodyPlayed(c, w, j, run);
    hide Play, BodyCalls, ProcessBody;
    PlayBoth(w, BodyCalls(c, w, j, run), [AckCall(j)]);
    PlayOne(ProcessBody(c, w, j, run), AckCall(j));
  }

  lemma BodyPlayed(c: Config, w: World, j: JobId, run: HandlerRun)
    ensures Play(w, BodyCalls(c, w, j, run)) == ProcessBody(c, w, j, run)
  {
    PlayNone(w);
    hide Play, FailCalls, FailHandler, SettleCalls, Settle;
    if j in w.jobs && !Terminal(w.jobs[j].status) {
      var job := w.jobs[j];
      if job.transitionCount + 1 > c.maxTransitions {
        PlayOne(w, SaveCall(j, job.(status := Failed)));
      } else {
        match run
        case NoHandler => FailPlayed(c, w, j, Counted(job));
        case Ran(updates, outcome) =>
          var job1 := if outcome.Raised? then Counted(job)
                      else Counted(job).(history := job.history + updates);
          PlayBoth(w, [HandlerCall(j)], SettleCalls(c, LogHandler(w, j), j, job1, outcome));
          PlayOne(w, HandlerCall(j));
          SettlePlayed(c, LogHandler(w, j), j, job1, outcome);
      }
    }
  }

  // ---------------------------------------------------------------- kills

  /** No message is acknowledged and no watch entry removed. */
  predicate OnlyAdds(calls: seq<Call>) { forall call :: call in calls ==> !call.AckCall? && !call.UnwatchCall? }

  lemma {:induction false} BranchCallsOnlyAdd(w: World, j: JobId, tasks: seq<TaskInfo>, ids: seq<TaskId>,
                                              workers: seq<WorkerId>, n: nat)
    requires j in w.jobs && n <= |tasks| == |ids| && n <= |workers|
    ensures OnlyAdds(BranchCalls(w, j, tasks, ids, workers, n))
  {
    if n > 0 {
      BranchCallsOnlyAdd(w, j, tasks, ids, workers, n - 1);
    }
  }

  lemma FailCallsOnlyAdd(c: Config, w: World, j: JobId, job: Job)
    ensures OnlyAdds(FailCalls(c, w, j, job))
  {}

  lemma FanOutCallsOnlyAdd(c: Config, w: World, j: JobId, job: Job, tasks: seq<TaskInfo>, into: State,
                           workers: seq<WorkerId>)
    ensures OnlyAdds(FanOutCalls(c, w, j, job, tasks, into, workers))
  {
    hide FailCalls, BranchCalls;
    var ids := FreshIds(w.nextTask, |tasks|);
    var started := StartFanOut(w, j, job, into, |tasks|);
    var n := if |workers| < |tasks| then |workers| else |tasks|;
    BranchCallsOnlyAdd(started, j, tasks, ids, workers, n);
    var done := DispatchBranches(started, j, tasks, ids, workers, n);
    if |workers| < |tasks| {
      FailCallsOnlyAdd(c, done, j,
        done.jobs[j].(branchInfo := done.jobs[j].branchInfo[ids[n] := BranchTask(tasks[n], ids[n])]));
    }
  }

  lemma SettleCallsOnlyAdd(c: Config, w: World, j: JobId, job: Job, outcome: Outcome)
    ensures OnlyAdds(SettleCalls(c, w, j, job, outcome))
  {
    hide FailCalls, FanOutCalls;
    match outcome
    case FanOut(tasks, into, workers) => FanOutCallsOnlyAdd(c, w, j, job, tasks, into, workers);
    case DispatchTask(info, _) => FailCallsOnlyAdd(c, Watch(Save(w, j, TaskJob(job, info)), JobKey(j)), j,
        TaskJob(job, info));
    case _ => FailCallsOnlyAdd(c, w, j, job);
  }

  /** Nothing is acknowledged before the last call. */
  lemma BodyCallsOnlyAdd(c: Config, w: World, j: JobId, run: HandlerRun)
    ensures OnlyAdds(BodyCalls(c, w, j, run))
  {
    hide FailCalls, SettleCalls;
    if j in w.jobs {
      var job := w.jobs[j];
      FailCallsOnlyAdd(c, w, j, Counted(job));
      if run.Ran? {
        SettleCallsOnlyAdd(c, LogHandler(w, j), j,
          if run.outcome.Raised? then Counted(job) else Counted(job).(history := job.history + run.updates),
              run.outcome);
      }
    }
  }

  ghost predicate NothingGone(w: World, w': World) { w.messages <= w'.messages && w.jobs.Keys <= w'.jobs.Keys }

  lemma {:induction false} AddingLosesNothing(w: World, calls: seq<Call>)
    requires OnlyAdds(calls)
    ensures NothingGone(w, Play(w, calls))
    decreases |calls|
  {
    if |calls| > 0 {
      assert calls[0] in calls;
      AddingLosesNothing(Apply(w, calls[0]), calls[1..]);
    }
  }

  /** The store after a process died that had carried out `done` calls of the list. */
  function Kill(c: Config, w: World, j: JobId, run: HandlerRun, done: nat): World
    requires done <= |BodyCalls(c, w, j, run)|
  {
    Play(w, ProcessCalls(c, w, j, run)[..done])
  }

  /** A kill between any two storage calls leaves every message, the one being handled
      included, unacknowledged, and every job stored. */
  lemma KillLosesNothing(c: Config, w: World, j: JobId, run: HandlerRun, done: nat)
    requires done <= |BodyCalls(c, w, j, run)|
    ensures NothingGone(w, Kill(c, w, j, run, done))
  {
    var body := BodyCalls(c, w, j, run);
    assert ProcessCalls(c, w, j, run)[..done] == body[..done];
    BodyCallsOnlyAdd(c, w, j, run);
    AddingLosesNothing(w, body[..done]);
  }

  // ---------------------------------------------------------------- what an acknowledgement leaves behind

  /** A fan-out has tasks. */
  predicate Full(run: HandlerRun) { run.Ran? && run.outcome.FanOut? ==> run.outcome.tasks != [] }

  /** Whatever the job now waits for is there, not counting the message in hand. */
  ghost predicate Awake(w: World, w': World, j: JobId) {
    && j in w'.jobs
    && var job := w'.jobs[j];
    && (NoLoss.Ready(job.status) ==> w'.messages[j] > w.messages[j])
    && (job.status == WaitingForWorker ==> JobKey(j) in w'.watch)
    && (job.status == WaitingForParallel ==>
          job.active != [] && forall b :: b in job.active ==> BranchKey(j, b) in w'.watch)
  }

  lemma ResumeAwake(w: World, j: JobId, end: State)
    ensures var w' := ResumeParent(w, j, end);
      && w.messages <= w'.messages
      && (j in w.jobs && Terminal(w.jobs[j].status) ==> Awake(w, w', j))
  {}

  lemma EndAwake(w: World, j: JobId, job: Job, status: Status, outputValid: bool)
    requires Terminal(status)
    ensures Awake(w, ReachEnd(w, j, job, status, outputValid), j)
  {
    hide ResumeParent;
    var ended := job.(status := if status == Finished && !outputValid then Failed else status);
    ResumeAwake(w, j, job.current);
    ResumeAwake(Save(ResumeParent(w, j, job.current), j, ended), j, job.current);
  }

  /** The job has ended, or a child of itself woke it. */
  ghost predicate Over(w: World, w': World, j: JobId) {
    j in w'.jobs && w.messages <= w'.messages
    && (Terminal(w'.jobs[j].status) || (w'.jobs[j].status == Running && w'.messages[j] > w.messages[j]))
  }

  lemma ResumeOver(w: World, w1: World, j: JobId, end: State)
    requires Over(w, w1, j)
    ensures Over(w, ResumeParent(w1, j, end), j)
  {}

  lemma EndOver(w: World, j: JobId, job: Job, status: Status, outputValid: bool)
    requires Terminal(status)
    ensures Over(w, ReachEnd(w, j, job, status, outputValid), j)
  {
    hide ResumeParent;
    var ended := job.(status := if status == Finished && !outputValid then Failed else status);
    ResumeAwake(w, j, job.current);
    ResumeOver(w, Save(ResumeParent(w, j, job.current), j, ended), j, job.current);
  }

  lemma FailAwake(c: Config, w: World, j: JobId, job: Job)
    ensures Awake(w, FailHandler(c, w, j, job), j)
  {
    hide ReachEnd, ResumeParent;
    if job.retryCount >= c.maxRetries {
      EndOver(w, j, job, Quarantined, true);
      ResumeOver(w, Quarantine(ReachEnd(w, j, job, Quarantined, true), j), j, job.current);
    }
  }

  lemma DispatchAwake(w: World, j: JobId, info: TaskInfo, worker: WorkerId)
    requires j in w.jobs && w.jobs[j].status == WaitingForWorker && JobKey(j) in w.watch
    ensures Awake(w, Dispatch(w, j, info, worker), j)
  {}

  lemma TaskAwake(c: Config, w: World, j: JobId, job: Job, info: TaskInfo, worker: Option<WorkerId>)
    ensures Awake(w, Settle(c, w, j, job, DispatchTask(info, worker)), j)
  {
    hide FailHandler, Dispatch;
    var waiting := Watch(Save(w, j, TaskJob(job, info)), JobKey(j));
    if worker.Some? {
      DispatchAwake(waiting, j, info, worker.value);
    } else {
      FailAwake(c, waiting, j, TaskJob(job, info));
    }
  }

  lemma FanOutAwake(c: Config, w: World, j: JobId, job: Job, tasks: seq<TaskInfo>, into: State, workers: seq<WorkerId>)
    requires tasks != []
    ensures Awake(w, FanOutStep(c, w, j, job, tasks, into, workers), j)
  {
    hide DispatchBranches, FailHandler, Awake, NoLoss.Dispatched;
    var ids := FreshIds(w.nextTask, |tasks|);
    var started := StartFanOut(w, j, job, into, |tasks|);
    var n := if |workers| < |tasks| then |workers| else |tasks|;
    NoLoss.BranchesDispatched(started, j, tasks, ids, workers, n);
    var done := DispatchBranches(started, j, tasks, ids, workers, n);
    if |workers| < |tasks| {
      FailAwake(c, done, j,
          done.jobs[j].(branchInfo := done.jobs[j].branchInfo[ids[n] := BranchTask(tasks[n], ids[n])]));
      AwakeAfter(w, started, done, FanOutStep(c, w, j, job, tasks, into, workers), j, ids[..n]);
    } else {
      assert ids[..n] == ids;
      AllAwake(w, started, done, j, ids);
    }
  }

  lemma AwakeAfter(w: World, started: World, done: World, w': World, j: JobId, ids: seq<TaskId>)
    requires j in started.jobs && started.messages == w.messages && NoLoss.Dispatched(started, done, j, ids)
    requires Awake(done, w', j)
    ensures Awake(w, w', j)
  {}

  lemma AllAwake(w: World, started: World, done: World, j: JobId, ids: seq<TaskId>)
    requires j in started.jobs && started.messages == w.messages && NoLoss.Dispatched(started, done, j, ids)
    requires started.jobs[j].status == WaitingForParallel && started.jobs[j].active == ids && ids != []
    ensures Awake(w, done, j)
  {}

  lemma SettleAwake(c: Config, w: World, j: JobId, job: Job, outcome: Outcome)
    requires Acts(Ran(map[], outcome)) && Full(Ran(map[], outcome))
    ensures Awake(w, Settle(c, w, j, job, outcome), j)
  {
    hide FailHandler, FanOutStep, ReachEnd, Dispatch;
    match outcome
    case DispatchTask(info, worker) => TaskAwake(c, w, j, job, info, worker);
    case FanOut(tasks, into, workers) => FanOutAwake(c, w, j, job, tasks, into, workers);
    case NoAction(_, outputValid) => EndAwake(w, j, job, if job.current == "finished" then Finished else Failed,
        outputValid);
    case _ => FailAwake(c, w, j, job);
  }

  lemma BodyAwake(c: Config, w: World, j: JobId, run: HandlerRun)
    requires j in w.jobs && Acts(run) && Full(run)
    ensures Awake(w, ProcessBody(c, w, j, run), j)
  {
    hide FailHandler, Settle;
    var job := w.jobs[j];
    if run.Ran? {
      SettleAwake(c, LogHandler(w, j), j,
        if run.outcome.Raised? then Counted(job) else Counted(job).(history := job.history + run.updates), run.outcome);
    } else {
      FailAwake(c, w, j, Counted(job));
    }
  }

  /** Once a message has been acknowledged its job's next wake-up is there, whatever store
      the handling began in: one that a kill left half way, too. */
  lemma AcknowledgedJobIsWired(c: Config, w: World, j: JobId, run: HandlerRun)
    requires j in w.jobs && j in w.messages && Acts(run) && Full(run)
    ensures j in Process(c, w, j, run).jobs && NoLoss.Wired(Process(c, w, j, run), j)
  {
    hide ProcessBody;
    BodyAwake(c, w, j, run);
  }

  // ---------------------------------------------------------------- interrupted, yet acknowledged

  /** The `finally` acknowledges also when the handling is cancelled, or when a storage call raises
      outside the handler's own try block: the calls so far, and then the acknowledgement. */
  function Interrupt(c: Config, w: World, j: JobId, run: HandlerRun, done: nat): World
    requires done <= |BodyCalls(c, w, j, run)|
  {
    Ack(Kill(c, w, j, run, done), j)
  }

  /** The record of j after the calls, which find `before`. */
  function LastSaved(calls: seq<Call>, j: JobId, before: Option<Job>): Option<Job>
    decreases |calls|
  {
    if |calls| == 0 then before
    else LastSaved(calls[1..], j, if calls[0].SaveCall? && calls[0].job == j then Some(calls[0].record) else before)
  }

  function Enqueues(calls: seq<Call>, j: JobId): nat
    decreases |calls|
  {
    if |calls| == 0 then 0 else (if calls[0] == EnqueueCall(j) then 1 else 0) + Enqueues(calls[1..], j)
  }

  /** Read off the calls done: whatever the last saved record of j waits for was there before or
      is among them, not counting the message in hand. */
  ghost predicate Provided(w: World, calls: seq<Call>, j: JobId) { Supplied(w, calls, j, 1) }

  /** The same for an actor that has `inHand` messages of the job in its hands. */
  ghost predicate Supplied(w: World, calls: seq<Call>, j: JobId, inHand: nat) {
    var saved := LastSaved(calls, j, Find(w.jobs, j));
    saved.Some?
    && var job := saved.value;
    && (NoLoss.Ready(job.status) ==> w.messages[j] + Enqueues(calls, j) > inHand)
    && (job.status == WaitingForWorker ==> JobKey(j) in w.watch || WatchCall(JobKey(j)) in calls)
    && (job.status == WaitingForParallel ==>
          job.active != []
          && forall b :: b in job.active ==> BranchKey(j, b) in w.watch || WatchCall(BranchKey(j, b)) in calls)
  }

  lemma {:induction false} PlayedStore(w: World, calls: seq<Call>, j: JobId)
    requires OnlyAdds(calls)
    ensures Find(Play(w, calls).jobs, j) == LastSaved(calls, j, Find(w.jobs, j))
    ensures Play(w, calls).messages[j] == w.messages[j] + Enqueues(calls, j)
    ensures forall k: WatchKey :: k in Play(w, calls).watch <==> k in w.watch || WatchCall(k) in calls
    decreases |calls|
  {
    if |calls| > 0 {
      var first, rest := calls[0], calls[1..];
      assert calls == [first] + rest && first in calls;
      PlayedFirst(w, first, j);
      PlayedStore(Apply(w, first), rest, j);
      hide Apply;
    }
  }

  lemma PlayedFirst(w: World, call: Call, j: JobId)
    requires !call.AckCall? && !call.UnwatchCall?
    ensures Find(Apply(w, call).jobs, j)
         == if call.SaveCall? && call.job == j then Some(call.record) else Find(w.jobs, j)
    ensures Apply(w, call).messages[j] == w.messages[j] + if call == EnqueueCall(j) then 1 else 0
    ensures forall k: WatchKey :: k in Apply(w, call).watch <==> k in w.watch || call == WatchCall(k)
  {}

  /** Calls that only add leave the job wired if and only if they supply what it waits for. */
  lemma AddedWiredExactly(w: World, calls: seq<Call>, j: JobId)
    requires j in w.jobs && OnlyAdds(calls)
    ensures j in Play(w, calls).jobs && (NoLoss.Wired(Play(w, calls), j) <==> Supplied(w, calls, j, 0))
  {
    AddingLosesNothing(w, calls);
    hide Play;
    PlayedStore(w, calls, j);
  }

  /** An interrupted handling leaves its job wired if and only if the calls it made provide for it. */
  lemma InterruptedWiredExactly(c: Config, w: World, j: JobId, run: HandlerRun, done: nat)
    requires j in w.jobs && j in w.messages && done <= |BodyCalls(c, w, j, run)|
    ensures var w' := Interrupt(c, w, j, run, done);
      j in w'.jobs && (NoLoss.Wired(w', j) <==> Provided(w, BodyCalls(c, w, j, run)[..done], j))
  {
    var body := BodyCalls(c, w, j, run);
    assert ProcessCalls(c, w, j, run)[..done] == body[..done];
    BodyCallsOnlyAdd(c, w, j, run);
    KillLosesNothing(c, w, j, run, done);
    hide BodyCalls, Play;
    PlayedStore(w, body[..done], j);
  }

  /** Job j is ready and its only message is in hand. */
  predicate OnlyMessage(c: Config, w: World, j: JobId) {
    j in w.jobs && NoLoss.Ready(w.jobs[j].status) && w.messages[j] == 1 && w.jobs[j].transitionCount < c.maxTransitions
  }

  /** A transition survives an interruption if and only if the job was already queued again:
      saving the new state alone loses the job. */
  lemma InterruptedTransition(c: Config, w: World, j: JobId, updates: map<string, Data>, next: State, done: nat)
    requires OnlyMessage(c, w, j)
    ensures |BodyCalls(c, w, j, Ran(updates, GoTo(next)))| == 3
    ensures done <= 3 ==> var w' := Interrupt(c, w, j, Ran(updates, GoTo(next)), done);
      j in w'.jobs && (NoLoss.Wired(w', j) <==> done == 3)
  {
    var calls := BodyCalls(c, w, j, Ran(updates, GoTo(next)));
    assert |calls| == 3;
    var job := Counted(w.jobs[j]).(history := w.jobs[j].history + updates);
    var saved := job.(retryCount := 0, current := next, status := Running);
    assert calls == [HandlerCall(j), SaveCall(j, saved), EnqueueCall(j)];
    if done <= 3 {
      InterruptedWiredExactly(c, w, j, Ran(updates, GoTo(next)), done);
      hide Interrupt, NoLoss.Wired, BodyCalls;
      TransitionProvided(w, j, calls, saved, done);
    }
  }

  lemma TransitionProvided(w: World, j: JobId, calls: seq<Call>, saved: Job, done: nat)
    requires j in w.jobs && NoLoss.Ready(w.jobs[j].status) && w.messages[j] == 1 && saved.status == Running && done <= 3
    requires calls == [HandlerCall(j), SaveCall(j, saved), EnqueueCall(j)]
    ensures Provided(w, calls[..done], j) <==> done == 3
  {
    var handler, save, enqueue := HandlerCall(j), SaveCall(j, saved), EnqueueCall(j);
    var before := Find(w.jobs, j);
    assert LastSaved([], j, before) == before && LastSaved([], j, Some(saved)) == Some(saved) && Enqueues([], j) == 0;
    FirstCall(enqueue, [], j, Some(saved));
    FirstCall(save, [], j, before);
    FirstCall(save, [enqueue], j, before);
    FirstCall(handler, [], j, before);
    FirstCall(handler, [save], j, before);
    FirstCall(handler, [save, enqueue], j, before);
    assert [enqueue] + [] == [enqueue] && [save] + [] == [save] && [handler] + [] == [handler];
    assert [save] + [enqueue] == [save, enqueue] && [handler] + [save] == [handler, save];
    assert calls[..0] == [] && calls[..1] == [handler] && calls[..2] == [handler, save];
    assert calls[..3] == [handler] + [save, enqueue];
    hide LastSaved, Enqueues;
  }

  lemma FirstCall(call: Call, rest: seq<Call>, j: JobId, before: Option<Job>)
    ensures LastSaved([call] + rest, j, before)
         == LastSaved(rest, j, if call.SaveCall? && call.job == j then Some(call.record) else before)
    ensures Enqueues([call] + rest, j) == (if call == EnqueueCall(j) then 1 else 0) + Enqueues(rest, j)
  {
    assert ([call] + rest)[1..] == rest;
  }

  // ---------------------------------------------------------------- positions

  lemma {:induction false} ReadBoth(a: seq<Call>, b: seq<Call>, j: JobId, before: Option<Job>)
    ensures LastSaved(a + b, j, before) == LastSaved(b, j, LastSaved(a, j, before))
    ensures Enqueues(a + b, j) == Enqueues(a, j) + Enqueues(b, j)
    decreases |a|
  {
    if |a| == 0 {
      assert a + b == b;
    } else {
      assert (a + b)[1..] == a[1..] + b;
      ReadBoth(a[1..], b, j, if a[0].SaveCall? && a[0].job == j then Some(a[0].record) else before);
    }
  }

  /** The saves of j keep this status and these branches. */
  predicate SavesLike(calls: seq<Call>, j: JobId, status: Status, active: seq<TaskId>) {
    forall call :: call in calls && call.SaveCall? && call.job == j ==>
      call.record.status == status && call.record.active == active
  }

  predicate IsLike(job: Option<Job>, status: Status, active: seq<TaskId>) {
    job.Some? && job.value.status == status && job.value.active == active
  }

  lemma {:induction false} LastSavedLike(calls: seq<Call>, j: JobId, before: Option<Job>, status: Status,
                                         active: seq<TaskId>)
    requires SavesLike(calls, j, status, active) && IsLike(before, status, active)
    ensures IsLike(LastSaved(calls, j, before), status, active)
    decreases |calls|
  {
    if |calls| > 0 {
      assert calls[0] in calls;
      LastSavedLike(calls[1..], j, if calls[0].SaveCall? && calls[0].job == j then Some(calls[0].record) else before,
                    status, active);
    }
  }

  /** A dispatch saves the record with its status and branches as they were. */
  lemma DispatchSavesLike(w: World, j: JobId, info: TaskInfo, worker: WorkerId)
    requires j in w.jobs
    ensures |DispatchCalls(w, j, info, worker)| == 3
    ensures SavesLike(DispatchCalls(w, j, info, worker), j, w.jobs[j].status, w.jobs[j].active)
  {}

  /** Before the first save of j nothing has changed; after it, and before its watch entry, the job
      waits for a worker and only an old entry helps. */
  lemma EarlyPrefix(w: World, j: JobId, save: Call, rest: seq<Call>, done: nat)
    requires j in w.jobs && NoLoss.Ready(w.jobs[j].status) && w.messages[j] == 1
    requires save.SaveCall? && save.job == j && done <= 2
    ensures var calls := [HandlerCall(j), save] + rest;
      && (done <= 1 ==> !Provided(w, calls[..done], j))
      && (done == 2 ==>
            && LastSaved(calls[..done], j, Find(w.jobs, j)) == Some(save.record)
            && Enqueues(calls[..done], j) == 0 && calls[..done] == [HandlerCall(j), save])
  {
    var calls, before := [HandlerCall(j), save] + rest, Find(w.jobs, j);
    FirstCall(HandlerCall(j), [], j, before);
    FirstCall(save, [], j, before);
    FirstCall(HandlerCall(j), [save], j, before);
    assert [HandlerCall(j)] + [] == [HandlerCall(j)] && [save] + [] == [save];
    assert [HandlerCall(j)] + [save] == [HandlerCall(j), save];
    assert calls[..0] == [] && calls[..1] == [HandlerCall(j)] && calls[..2] == [HandlerCall(j), save];
  }

  /** A dispatch survives an interruption if and only if its watch entry was set, or was there
      before and the record saved. */
  lemma InterruptedDispatch(c: Config, w: World, j: JobId, updates: map<string, Data>, info: TaskInfo,
                            worker: WorkerId, done: nat)
    requires OnlyMessage(c, w, j)
    ensures |BodyCalls(c, w, j, Ran(updates, DispatchTask(info, Some(worker))))| == 6
    ensures done <= 6 ==> var w' := Interrupt(c, w, j, Ran(updates, DispatchTask(info, Some(worker))), done);
      j in w'.jobs && (NoLoss.Wired(w', j) <==> done >= 3 || (done == 2 && JobKey(j) in w.watch))
  {
    var run := Ran(updates, DispatchTask(info, Some(worker)));
    var calls := BodyCalls(c, w, j, run);
    var job := Counted(w.jobs[j]).(history := w.jobs[j].history + updates);
    var logged := LogHandler(w, j);
    var waiting := Watch(Save(logged, j, TaskJob(job, info)), JobKey(j));
    var rest := DispatchCalls(waiting, j, info, worker);
    var save, watch := SaveCall(j, TaskJob(job, info)), WatchCall(JobKey(j));
    assert TaskCalls(c, logged, j, job, info, Some(worker)) == [save, watch] + rest;
    assert calls == [HandlerCall(j)] + ([save, watch] + rest);
    assert [HandlerCall(j)] + ([save, watch] + rest) == [HandlerCall(j), save] + ([watch] + rest);
    DispatchSavesLike(waiting, j, info, worker);
    assert waiting.jobs[j] == TaskJob(job, info) && TaskJob(job, info).status == WaitingForWorker;
    hide BodyCalls, DispatchCalls, SavesLike, TaskCalls, SettleCalls, TaskJob, Counted, LogHandler;
    if done <= 6 {
      InterruptedWiredExactly(c, w, j, run, done);
      hide Interrupt, NoLoss.Wired;
      DispatchProvided(w, j, save, rest, done);
    }
  }

  lemma DispatchProvided(w: World, j: JobId, save: Call, rest: seq<Call>, done: nat)
    requires j in w.jobs && NoLoss.Ready(w.jobs[j].status) && w.messages[j] == 1 && |rest| == 3 && done <= 6
    requires save.SaveCall? && save.job == j && save.record.status == WaitingForWorker
    requires SavesLike(rest, j, WaitingForWorker, save.record.active)
    ensures Provided(w, ([HandlerCall(j), save] + ([WatchCall(JobKey(j))] + rest))[..done], j)
       <==> done >= 3 || (done == 2 && JobKey(j) in w.watch)
  {
    var watch := WatchCall(JobKey(j));
    var calls := [HandlerCall(j), save] + ([watch] + rest);
    if done <= 2 {
      EarlyPrefix(w, j, save, [watch] + rest, done);
    } else {
      EarlyPrefix(w, j, save, [watch] + rest, 2);
      var opening, tail := [HandlerCall(j), save], ([watch] + rest)[..done - 2];
      assert calls[..2] == opening && calls[..done] == opening + tail;
      ReadBoth(opening, tail, j, Find(w.jobs, j));
      assert forall call :: call in tail ==> call == watch || call in rest;
      assert SavesLike(tail, j, WaitingForWorker, save.record.active);
      LastSavedLike(tail, j, Some(save.record), WaitingForWorker, save.record.active);
      assert tail[0] == watch && watch in calls[..done];
      hide LastSaved, Enqueues;
    }
  }

  /** A dispatch that finds no worker survives an interruption while the record waits under its
      watch entry, and again once the job is queued; between the retry's save and its queueing
      it is lost. */
  lemma InterruptedFailedDispatch(c: Config, w: World, j: JobId, updates: map<string, Data>, info: TaskInfo, done: nat)
    requires OnlyMessage(c, w, j) && w.jobs[j].retryCount < c.maxRetries
    ensures |BodyCalls(c, w, j, Ran(updates, DispatchTask(info, None)))| == 5
    ensures done <= 5 ==> var w' := Interrupt(c, w, j, Ran(updates, DispatchTask(info, None)), done);
      j in w'.jobs && (NoLoss.Wired(w', j) <==> done == 3 || done == 5 || (done == 2 && JobKey(j) in w.watch))
  {
    var run := Ran(updates, DispatchTask(info, None));
    var job := Counted(w.jobs[j]).(history := w.jobs[j].history + updates);
    var saved := TaskJob(job, info);
    var failed := saved.(retryCount := saved.retryCount + 1, status := AwaitingRetry);
    var save, watch := SaveCall(j, saved), WatchCall(JobKey(j));
    var rest := [SaveCall(j, failed), EnqueueCall(j)];
    var calls := BodyCalls(c, w, j, run);
    assert calls == [HandlerCall(j)] + ([save, watch] + rest);
    assert [HandlerCall(j)] + ([save, watch] + rest) == [HandlerCall(j), save] + ([watch] + rest);
    assert saved.status == WaitingForWorker;
    hide BodyCalls, TaskCalls, SettleCalls, FailCalls, TaskJob, Counted;
    if done <= 5 {
      InterruptedWiredExactly(c, w, j, run, done);
      hide Interrupt, NoLoss.Wired;
      FailedDispatchProvided(w, j, saved, failed, done);
    }
  }

  lemma FailedDispatchProvided(w: World, j: JobId, saved: Job, failed: Job, done: nat)
    requires j in w.jobs && NoLoss.Ready(w.jobs[j].status) && w.messages[j] == 1 && done <= 5
    requires saved.status == WaitingForWorker && failed.status == AwaitingRetry
    ensures var rest := [SaveCall(j, failed), EnqueueCall(j)];
      Provided(w, ([HandlerCall(j), SaveCall(j, saved)] + ([WatchCall(JobKey(j))] + rest))[..done], j)
      <==> done == 3 || done == 5 || (done == 2 && JobKey(j) in w.watch)
  {
    var save, watch := SaveCall(j, saved), WatchCall(JobKey(j));
    var more := [watch] + [SaveCall(j, failed), EnqueueCall(j)];
    var calls := [HandlerCall(j), save] + more;
    if done <= 2 {
      EarlyPrefix(w, j, save, more, done);
    } else {
      EarlyPrefix(w, j, save, more, 2);
      var opening, tail := [HandlerCall(j), save], more[..done - 2];
      assert calls[..2] == opening && calls[..done] == opening + tail;
      assert tail[0] == watch && watch in calls[..done];
      ReadBoth(opening, tail, j, Find(w.jobs, j));
      hide LastSaved, Enqueues;
      RetryRead(j, saved, failed, done - 2);
    }
  }

  /** What the watch entry, the retry's save and its queueing make of the record. */
  lemma RetryRead(j: JobId, saved: Job, failed: Job, q: nat)
    requires 1 <= q <= 3
    ensures var tail := ([WatchCall(JobKey(j))] + [SaveCall(j, failed), EnqueueCall(j)])[..q];
      && LastSaved(tail, j, Some(saved)) == Some(if q == 1 then saved else failed)
      && Enqueues(tail, j) == if q == 3 then 1 else 0
  {
    var watch, save, enqueue := WatchCall(JobKey(j)), SaveCall(j, failed), EnqueueCall(j);
    var more := [watch] + [save, enqueue];
    FirstCall(watch, [], j, Some(saved));
    FirstCall(watch, [save], j, Some(saved));
    FirstCall(watch, [save, enqueue], j, Some(saved));
    FirstCall(save, [], j, Some(saved));
    FirstCall(save, [enqueue], j, Some(saved));
    FirstCall(enqueue, [], j, Some(failed));
    assert [watch] + [] == [watch] && [watch] + [save] == [watch, save] && [save] + [enqueue] == [save, enqueue];
    assert [save] + [] == [save] && [enqueue] + [] == [enqueue];
    assert more[..1] == [watch] && more[..2] == [watch, save] && more[..3] == [watch] + [save, enqueue];
  }

  // ------------------------------------------------ a fan-out

  lemma LastBranch(w: World, j: JobId, tasks: seq<TaskInfo>, ids: seq<TaskId>, workers: seq<WorkerId>, n: nat)
    returns (before: World)
    requires j in w.jobs && 0 < n <= |tasks| == |ids| && n <= |workers| && w.jobs[j].active == ids
    ensures before == DispatchBranches(w, j, tasks, ids, workers, n - 1)
    ensures j in before.jobs && before.jobs[j].active == ids
    ensures BranchCalls(w, j, tasks, ids, workers, n)
         == BranchCalls(w, j, tasks, ids, workers, n - 1)
            + ChunkCalls(before, j, tasks[n - 1], ids[n - 1], workers[n - 1])
    ensures DispatchBranches(w, j, tasks, ids, workers, n)
         == Dispatch(before, j, BranchTask(tasks[n - 1], ids[n - 1]), workers[n - 1])
  {
    hide Dispatch, DispatchCalls, BranchTask, Play;
    before := DispatchBranches(w, j, tasks, ids, workers, n - 1);
    BranchesPlayed(w, j, tasks, ids, workers, n - 1);
  }

  /** Each branch takes four calls, of which the third sets its watch entry and the others none but
      the same; all keep the record's status and branches. */
  lemma {:induction false} BranchPositions(w: World, j: JobId, tasks: seq<TaskInfo>, ids: seq<TaskId>,
                                           workers: seq<WorkerId>, n: nat, i: nat)
    requires j in w.jobs && n <= |tasks| == |ids| && n <= |workers| && w.jobs[j].active == ids && i < n
    requires w.jobs[j].status == WaitingForParallel && forall x, y :: 0 <= x < y < |ids| ==> ids[x] != ids[y]
    ensures var calls := BranchCalls(w, j, tasks, ids, workers, n);
      && |calls| == 4 * n && calls[4 * i + 2] == WatchCall(BranchKey(j, ids[i]))
      && forall x :: 0 <= x < 4 * i + 2 ==> calls[x] != WatchCall(BranchKey(j, ids[i]))
  {
    hide BranchCalls, DispatchBranches, ChunkCalls;
    var before := LastBranch(w, j, tasks, ids, workers, n);
    var earlier := BranchCalls(w, j, tasks, ids, workers, n - 1);
    ChunkShape(before, j, tasks[n - 1], ids[n - 1], workers[n - 1]);
    BranchLength(w, j, tasks, ids, workers, n - 1);
    if i < n - 1 {
      BranchPositions(w, j, tasks, ids, workers, n - 1, i);
    } else {
      assert ids[i] !in ids[..n - 1];
      forall x | 0 <= x < |earlier| ensures earlier[x] != WatchCall(BranchKey(j, ids[i])) {
        OthersWatched(w, j, tasks, ids, workers, n - 1, ids[i], earlier[x]);
      }
    }
  }

  lemma ChunkShape(w: World, j: JobId, info: TaskInfo, b: TaskId, worker: WorkerId)
    requires j in w.jobs && b in w.jobs[j].active
    ensures var calls := ChunkCalls(w, j, info, b, worker);
      && |calls| == 4 && !calls[0].WatchCall? && !calls[1].WatchCall?
      && calls[2] == calls[3] == WatchCall(BranchKey(j, b))
  {}

  lemma {:induction false} BranchLength(w: World, j: JobId, tasks: seq<TaskInfo>, ids: seq<TaskId>,
                                        workers: seq<WorkerId>, n: nat)
    requires j in w.jobs && n <= |tasks| == |ids| && n <= |workers|
    ensures |BranchCalls(w, j, tasks, ids, workers, n)| == 4 * n
  {
    if n > 0 {
      BranchLength(w, j, tasks, ids, workers, n - 1);
    }
  }

  /** The first n branches watch no other branch. */
  lemma {:induction false} OthersWatched(w: World, j: JobId, tasks: seq<TaskInfo>, ids: seq<TaskId>,
                                         workers: seq<WorkerId>, n: nat, b: TaskId, call: Call)
    requires j in w.jobs && n <= |tasks| == |ids| && n <= |workers| && w.jobs[j].active == ids
    requires b !in ids[..n] && call in BranchCalls(w, j, tasks, ids, workers, n)
    ensures call != WatchCall(BranchKey(j, b))
  {
    if n > 0 {
      hide BranchCalls, DispatchBranches, ChunkCalls;
      assert ids[..n] == ids[..n - 1] + [ids[n - 1]];
      var before := LastBranch(w, j, tasks, ids, workers, n);
      ChunkShape(before, j, tasks[n - 1], ids[n - 1], workers[n - 1]);
      if call in BranchCalls(w, j, tasks, ids, workers, n - 1) {
        OthersWatched(w, j, tasks, ids, workers, n - 1, b, call);
      }
    }
  }

  lemma {:induction false} BranchSavesLike(w: World, j: JobId, tasks: seq<TaskInfo>, ids: seq<TaskId>,
                                           workers: seq<WorkerId>, n: nat)
    requires j in w.jobs && n <= |tasks| == |ids| && n <= |workers| && w.jobs[j].active == ids
    ensures SavesLike(BranchCalls(w, j, tasks, ids, workers, n), j, w.jobs[j].status, ids)
    ensures DispatchBranches(w, j, tasks, ids, workers, n).jobs[j].status == w.jobs[j].status
  {
    hide SavesLike, Dispatch, ChunkCalls, BranchTask;
    if n == 0 {
      NoSaves(j, w.jobs[j].status, ids);
    } else {
      hide BranchCalls, DispatchBranches;
      var before := LastBranch(w, j, tasks, ids, workers, n);
      BranchSavesLike(w, j, tasks, ids, workers, n - 1);
      ChunkSavesLike(before, j, tasks[n - 1], ids[n - 1], workers[n - 1]);
      SavesLikeBoth(BranchCalls(w, j, tasks, ids, workers, n - 1),
                    ChunkCalls(before, j, tasks[n - 1], ids[n - 1], workers[n - 1]), j, w.jobs[j].status, ids);
    }
  }

  lemma ChunkSavesLike(w: World, j: JobId, info: TaskInfo, b: TaskId, worker: WorkerId)
    requires j in w.jobs
    ensures SavesLike(ChunkCalls(w, j, info, b, worker), j, w.jobs[j].status, w.jobs[j].active)
    ensures Dispatch(w, j, BranchTask(info, b), worker).jobs[j].status == w.jobs[j].status
  {
    DispatchSavesLike(w, j, BranchTask(info, b), worker);
    hide DispatchCalls;
  }

  lemma NoSaves(j: JobId, status: Status, active: seq<TaskId>)
    ensures SavesLike([], j, status, active)
  {}

  lemma SavesLikeBoth(a: seq<Call>, b: seq<Call>, j: JobId, status: Status, active: seq<TaskId>)
    requires SavesLike(a, j, status, active) && SavesLike(b, j, status, active)
    ensures SavesLike(a + b, j, status, active)
  {}

  /** A fan-out of m tasks, all with workers, survives an interruption if and only if the last
      branch was dispatched up to its watch entry. */
  lemma InterruptedFanOut(c: Config, w: World, j: JobId, updates: map<string, Data>, tasks: seq<TaskInfo>, into: State,
                          workers: seq<WorkerId>, done: nat)
    requires OnlyMessage(c, w, j) && tasks != [] && |tasks| <= |workers|
    requires forall b: TaskId :: BranchKey(j, b) in w.watch ==> b < w.nextTask
    ensures |BodyCalls(c, w, j, Ran(updates, FanOut(tasks, into, workers)))| == 4 * |tasks| + 3
    ensures done <= 4 * |tasks| + 3 ==> var w' := Interrupt(c, w, j, Ran(updates, FanOut(tasks, into, workers)), done);
      j in w'.jobs && (NoLoss.Wired(w', j) <==> done >= 4 * |tasks| + 2)
  {
    var run, m := Ran(updates, FanOut(tasks, into, workers)), |tasks|;
    var ids := FreshIds(w.nextTask, m);
    var started, save := FanOutBody(c, w, j, updates, tasks, into, workers);
    var branches := BranchCalls(started, j, tasks, ids, workers, m);
    BranchLength(started, j, tasks, ids, workers, m);
    BranchSavesLike(started, j, tasks, ids, workers, m);
    forall i | 0 <= i < m
      ensures branches[4 * i + 2] == WatchCall(BranchKey(j, ids[i]))
      ensures forall x :: 0 <= x < 4 * i + 2 ==> branches[x] != WatchCall(BranchKey(j, ids[i]))
      ensures BranchKey(j, ids[i]) !in w.watch
    {
      BranchPositions(started, j, tasks, ids, workers, m, i);
    }
    hide BodyCalls, BranchCalls, SavesLike, FreshIds;
    if done <= 4 * m + 3 {
      InterruptedWiredExactly(c, w, j, run, done);
      hide Interrupt, NoLoss.Wired;
      FanOutProvided(w, j, save, m, branches, ids, done);
    }
  }

  /** The calls of a message whose handler fans out. */
  lemma FanOutBody(c: Config, w: World, j: JobId, updates: map<string, Data>, tasks: seq<TaskInfo>, into: State,
                   workers: seq<WorkerId>) returns (started: World, save: Call)
    requires OnlyMessage(c, w, j) && |tasks| <= |workers|
    ensures var m, ids := |tasks|, FreshIds(w.nextTask, |tasks|);
      && j in started.jobs && IsLike(Some(started.jobs[j]), WaitingForParallel, ids)
      && save == SaveCall(j, started.jobs[j])
      && BodyCalls(c, w, j, Ran(updates, FanOut(tasks, into, workers)))
         == [HandlerCall(j), DrawTasksCall(m), save] + BranchCalls(started, j, tasks, ids, workers, m)
  {
    var m, ids := |tasks|, FreshIds(w.nextTask, |tasks|);
    var job := Counted(w.jobs[j]).(history := w.jobs[j].history + updates);
    var logged := LogHandler(w, j);
    started := StartFanOut(logged, j, job, into, m);
    save := SaveCall(j, FanOutJob(job, into, ids));
    hide BranchCalls, DispatchBranches;
    var branches := BranchCalls(started, j, tasks, ids, workers, m);
    assert FanOutCalls(c, logged, j, job, tasks, into, workers) == [DrawTasksCall(m), save] + branches + [];
    assert [HandlerCall(j)] + ([DrawTasksCall(m), save] + branches + [])
        == [HandlerCall(j), DrawTasksCall(m), save] + branches;
  }

  lemma FanOutProvided(w: World, j: JobId, save: Call, m: nat, branches: seq<Call>, ids: seq<TaskId>, done: nat)
    requires j in w.jobs && NoLoss.Ready(w.jobs[j].status) && w.messages[j] == 1
    requires |branches| == 4 * m && m == |ids| > 0
    requires save.SaveCall? && save.job == j && IsLike(Some(save.record), WaitingForParallel, ids)
    requires SavesLike(branches, j, WaitingForParallel, ids) && done <= 4 * m + 3
    requires forall i :: 0 <= i < m ==> BranchKey(j, ids[i]) !in w.watch
    requires forall i :: 0 <= i < m ==> branches[4 * i + 2] == WatchCall(BranchKey(j, ids[i]))
    requires forall i, x :: 0 <= i < m && 0 <= x < 4 * i + 2 ==> branches[x] != WatchCall(BranchKey(j, ids[i]))
    ensures Provided(w, ([HandlerCall(j), DrawTasksCall(m), save] + branches)[..done], j) <==> done >= 4 * m + 2
  {
    var opening := [HandlerCall(j), DrawTasksCall(m), save];
    var before := Find(w.jobs, j);
    FirstCall(HandlerCall(j), [], j, before);
    FirstCall(HandlerCall(j), [DrawTasksCall(m)], j, before);
    FirstCall(HandlerCall(j), [DrawTasksCall(m), save], j, before);
    FirstCall(DrawTasksCall(m), [], j, before);
    FirstCall(DrawTasksCall(m), [save], j, before);
    FirstCall(save, [], j, before);
    assert [HandlerCall(j)] + [] == [HandlerCall(j)] && [DrawTasksCall(m)] + [] == [DrawTasksCall(m)];
    assert [save] + [] == [save];
    assert [HandlerCall(j)] + [DrawTasksCall(m)] == [HandlerCall(j), DrawTasksCall(m)];
    assert [DrawTasksCall(m)] + [save] == [DrawTasksCall(m), save];
    assert [HandlerCall(j)] + [DrawTasksCall(m), save] == opening;
    var calls := opening + branches;
    if done <= 2 {
      assert calls[..0] == [] && calls[..1] == [HandlerCall(j)] && calls[..2] == [HandlerCall(j), DrawTasksCall(m)];
    } else {
      var tail := branches[..done - 3];
      assert calls[..done] == opening + tail;
      ReadBoth(opening, tail, j, before);
      assert SavesLike(tail, j, WaitingForParallel, ids);
      LastSavedLike(tail, j, Some(save.record), WaitingForParallel, ids);
      hide LastSaved, Enqueues, SavesLike;
      WatchedPrefix(w, j, m, opening, branches, ids, done - 3);
    }
  }

  /** All branches are watched after q of the branch calls if and only if the last one is. */
  lemma WatchedPrefix(w: World, j: JobId, m: nat, opening: seq<Call>, branches: seq<Call>, ids: seq<TaskId>, q: nat)
    requires |branches| == 4 * m && m == |ids| > 0 && q <= 4 * m && forall call :: call in opening ==> !call.WatchCall?
    requires forall i :: 0 <= i < m ==> BranchKey(j, ids[i]) !in w.watch
    requires forall i :: 0 <= i < m ==> branches[4 * i + 2] == WatchCall(BranchKey(j, ids[i]))
    requires forall i, x :: 0 <= i < m && 0 <= x < 4 * i + 2 ==> branches[x] != WatchCall(BranchKey(j, ids[i]))
    ensures q >= 4 * m - 1
       <==> forall b :: b in ids ==> BranchKey(j, b) in w.watch || WatchCall(BranchKey(j, b)) in opening + branches[..q]
  {
    if q >= 4 * m - 1 {
      forall b | b in ids ensures WatchCall(BranchKey(j, b)) in opening + branches[..q] {
        var i :| 0 <= i < m && ids[i] == b;
        assert branches[..q][4 * i + 2] == WatchCall(BranchKey(j, b));
      }
    } else {
      var b := ids[m - 1];
      assert b in ids && BranchKey(j, b) !in w.watch;
      assert WatchCall(BranchKey(j, b)) !in branches[..q];
    }
  }

  // ---------------------------------------------------------------- runs with kills

  /** Interrupted: the handling stopped after some calls and acknowledged all the same. */
  datatype Happening =
    | Done(action: Action)
    | Killed(job: JobId, run: HandlerRun, done: nat)
    | Interrupted(job: JobId, run: HandlerRun, done: nat)

  ghost predicate Possible(c: Config, w: World, h: Happening) {
    match h
    case Done(a) => Enabled(w, a)
    case Killed(j, run, done) => j in w.messages && done <= |BodyCalls(c, w, j, run)|
    case Interrupted(j, run, done) => j in w.messages && done <= |BodyCalls(c, w, j, run)|
  }

  function After(c: Config, w: World, h: Happening): World
    requires Possible(c, w, h)
  {
    match h
    case Done(a) => Step(c, w, a)
    case Killed(j, run, done) => Kill(c, w, j, run, done)
    case Interrupted(j, run, done) => Interrupt(c, w, j, run, done)
  }

  /** The step that handles a message of job j to its end. */
  predicate Handles(h: Happening, j: JobId) { h.Done? && h.action.AProcess? && h.action.job == j }

  /** A message of job j is acknowledged. */
  predicate Acks(h: Happening, j: JobId) { Handles(h, j) || (h.Interrupted? && h.job == j) }

  lemma ProcessLosesOne(c: Config, w: World, j: JobId, run: HandlerRun, k: JobId)
    requires k != j
    ensures k in w.messages ==> k in Process(c, w, j, run).messages
    ensures k in w.jobs ==> k in Process(c, w, j, run).jobs
    ensures j in w.jobs ==> j in Process(c, w, j, run).jobs
  {
    BodyPlayed(c, w, j, run);
    BodyCallsOnlyAdd(c, w, j, run);
    AddingLosesNothing(w, BodyCalls(c, w, j, run));
    hide ProcessBody, BodyCalls, Play;
  }

  lemma FailTaskLosesNothing(c: Config, w: World, j: JobId, job: Job, t: TaskRef, worker: Option<WorkerId>)
    ensures NothingGone(w, FailTask(c, w, j, job, t, worker))
  {}

  lemma ResultLosesNothing(c: Config, w: World, r: Report, retry: Option<WorkerId>)
    ensures NothingGone(w, Result(c, w, r, retry))
  {
    hide SettleResult, RecordBranch;
    if r.job in w.jobs {
      var job := w.jobs[r.job];
      SettleResultLosesNothing(c, Unwatch(w, JobKey(r.job)),
        if r.picked && r.task !in job.active then job.(pickedUp := true) else job, r, retry);
    }
  }

  lemma SettleResultLosesNothing(c: Config, w: World, job: Job, r: Report, retry: Option<WorkerId>)
    ensures NothingGone(w, SettleResult(c, w, job, r, retry))
  {
    hide FailTask;
    FailTaskLosesNothing(c, w, r.job, job, Task(r.task), retry);
  }

  lemma FireLosesNothing(c: Config, w: World, k: WatchKey, worker: Option<WorkerId>)
    ensures NothingGone(w, Fire(c, w, k, worker))
  {
    hide FailTask;
    if k.job in w.jobs {
      var job := w.jobs[k.job];
      FailTaskLosesNothing(c, Unwatch(w, k), k.job, job, if k.JobKey? then job.currentTask else Task(k.task), worker);
    }
  }

  lemma StaysPending(c: Config, w: World, h: Happening, j: JobId)
    requires Possible(c, w, h) && j in w.messages && j in w.jobs && !Acks(h, j)
    ensures j in After(c, w, h).messages && j in After(c, w, h).jobs
  {
    hide Process, Result, Fire, Kill, BodyCalls;
    match h
    case Killed(k, run, done) => KillLosesNothing(c, w, k, run, done);
    case Interrupted(k, run, done) => KillLosesNothing(c, w, k, run, done);
    case Done(a) =>
      match a
      case AProcess(k, run) => ProcessLosesOne(c, w, k, run, j);
      case AResult(r, retry) => ResultLosesNothing(c, w, r, retry);
      case AFire(k, retry) => FireLosesNothing(c, w, k, retry);
      case _ =>
  }

  ghost predicate IsCrashRun(c: Config, run: seq<World>, hs: seq<Happening>) {
    && |run| == |hs| + 1
    && forall i :: 0 <= i < |hs| ==> Possible(c, run[i], hs[i]) && run[i + 1] == After(c, run[i], hs[i])
  }

  /** Redelivery is at least once and never zero. Let processes die between any two of
      their storage calls, any number of times, with steps of every other actor in between.
      A job with a message keeps one until some process has handled it to the end, and that
      handling leaves the job wired; or until a handling was interrupted and acknowledged all
      the same, and then the job is wired if and only if the calls made provide for it. */
  lemma {:induction false} HandledAtLeastOnce(c: Config, run: seq<World>, hs: seq<Happening>, n: nat, m: nat, j: JobId)
      returns (k: nat)
    requires IsCrashRun(c, run, hs) && n <= m < |run|
    requires j in run[n].jobs && j in run[n].messages && j !in run[m].messages
    requires forall i :: n <= i < m && Handles(hs[i], j) ==> Acts(hs[i].action.run) && Full(hs[i].action.run)
    ensures n <= k < m && Acks(hs[k], j)
    ensures forall i :: n <= i <= k ==> j in run[i].messages
    ensures j in run[k].jobs && j in run[k + 1].jobs
    ensures Handles(hs[k], j) ==> NoLoss.Wired(run[k + 1], j)
    ensures hs[k].Interrupted? ==>
      && hs[k].done <= |BodyCalls(c, run[k], j, hs[k].run)|
      && (NoLoss.Wired(run[k + 1], j) <==> Provided(run[k], BodyCalls(c, run[k], j, hs[k].run)[..hs[k].done], j))
  {
    hide After, NoLoss.Wired, Provided, BodyCalls, Enabled;
    k := n;
    while !Acks(hs[k], j)
      invariant n <= k < m && j in run[k].jobs
      invariant forall i :: n <= i <= k ==> j in run[i].messages
      decreases m - k
    {
      StaysPending(c, run[k], hs[k], j);
      k := k + 1;
    }
    if hs[k].Interrupted? {
      InterruptedIsExact(c, run[k], hs[k], j);
    } else {
      HandledIsWired(c, run[k], hs[k], j);
    }
  }

  lemma InterruptedIsExact(c: Config, w: World, h: Happening, j: JobId)
    requires Possible(c, w, h) && h.Interrupted? && h.job == j && j in w.jobs
    ensures j in After(c, w, h).jobs
    ensures NoLoss.Wired(After(c, w, h), j) <==> Provided(w, BodyCalls(c, w, j, h.run)[..h.done], j)
  {
    hide Interrupt, NoLoss.Wired, Provided, BodyCalls;
    InterruptedWiredExactly(c, w, j, h.run, h.done);
  }

  lemma HandledIsWired(c: Config, w: World, h: Happening, j: JobId)
    requires Possible(c, w, h) && Handles(h, j) && j in w.jobs
    requires Acts(h.action.run) && Full(h.action.run)
    ensures j in After(c, w, h).jobs && NoLoss.Wired(After(c, w, h), j)
  {
    hide Process, NoLoss.Wired;
    AcknowledgedJobIsWired(c, w, j, h.action.run);
  }
}
