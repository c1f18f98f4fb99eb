/** What a handled message leaves in the store, told field by field and without the functions
    that define the step: each lemma gives the whole store after `Process` as an update of the
    store before it. */
module Writes {
  import opened Basics
  import opened Lifecycle
  import Crash

  /** A message of job j makes a handler run: the job is stored and not over, and transitions are left. */
  predicate Works(c: Config, w: World, j: JobId) {
    && j in w.jobs && w.jobs[j].status !in {Finished, Failed, Error, Quarantined}
    && w.jobs[j].transitionCount < c.maxTransitions
  }

  /** The record once the transition is counted and the handler's data are merged. */
  function Merged(job: Job, u: map<string, Data>): Job {
    job.(transitionCount := job.transitionCount + 1, history := job.history + u)
  }

  lemma Handled(c: Config, w: World, j: JobId, u: map<string, Data>, outcome: Outcome)
    requires Works(c, w, j) && !outcome.Raised?
    ensures Process(c, w, j, Ran(u, outcome))
         == Ack(Settle(c, LogHandler(w, j), j, Merged(w.jobs[j], u), outcome), j)
  {
    hide Settle;
  }

  /** A message of a job that is gone or over is acknowledged and no more; one of a job without
      transitions left fails it. */
  lemma IdleWrites(c: Config, w: World, j: JobId, run: HandlerRun)
    requires !Works(c, w, j)
    ensures Process(c, w, j, run)
         == if j !in w.jobs || w.jobs[j].status in {Finished, Failed, Error, Quarantined}
            then w.(messages := w.messages - multiset{j})
            else w.(messages := w.messages - multiset{j}, jobs := w.jobs[j := w.jobs[j].(status := Failed)])
  {}

  /** The state that the handler names is the job's, which is queued again. */
  lemma GoToWrites(c: Config, w: World, j: JobId, u: map<string, Data>, next: State)
    requires Works(c, w, j)
    ensures var job := w.jobs[j];
      Process(c, w, j, Ran(u, GoTo(next)))
      == w.(jobs := w.jobs[j := job.(current := next, status := Running, retryCount := 0,
                                     transitionCount := job.transitionCount + 1, history := job.history + u)],
            messages := w.messages + multiset{j} - multiset{j}, log := w.log + [HandlerRan(j)])
  {
    hide Process, FailHandler, FanOutStep, ReachEnd, Dispatch, CreateJob;
    Handled(c, w, j, u, GoTo(next));
  }

  lemma HumanWrites(c: Config, w: World, j: JobId, u: map<string, Data>, transitions: map<string, State>)
    requires Works(c, w, j)
    ensures var job := w.jobs[j];
      Process(c, w, j, Ran(u, AwaitHuman(transitions)))
      == w.(jobs := w.jobs[j := job.(status := WaitingForHuman, transitions := transitions,
                                     transitionCount := job.transitionCount + 1, history := job.history + u)],
            messages := w.messages - multiset{j}, log := w.log + [HandlerRan(j)])
  {
    hide Process, FailHandler, FanOutStep, ReachEnd, Dispatch, CreateJob;
    Handled(c, w, j, u, AwaitHuman(transitions));
  }

  /** A single task goes out under a new id. */
  lemma TaskWrites(c: Config, w: World, j: JobId, u: map<string, Data>, info: TaskInfo, worker: WorkerId)
    requires Works(c, w, j) && info.taskId.None? && w.nextTask !in w.jobs[j].active
    ensures var job, t := w.jobs[j], w.nextTask;
      Process(c, w, j, Ran(u, DispatchTask(info, Some(worker))))
      == w.(jobs := w.jobs[j := job.(status := WaitingForWorker, taskInfo := Some(info), currentTask := Task(t),
                                     assignee := Some(worker), transitions := info.transitions,
                                     eventTransitions := info.eventTransitions,
                                     transitionCount := job.transitionCount + 1, history := job.history + u)],
            messages := w.messages - multiset{j}, watch := w.watch + {JobKey(j)}, nextTask := t + 1,
            log := w.log + [HandlerRan(j)] + [TaskEnqueued(worker, j, t, false)])
  {
    hide Process;
    Handled(c, w, j, u, DispatchTask(info, Some(worker)));
  }

  /** The child is stored, linked and queued; its parent waits. */
  lemma ChildWrites(c: Config, w: World, j: JobId, u: map<string, Data>, transitions: map<string, State>,
                    start: State, watched: bool)
    requires Works(c, w, j)
    ensures var job, kid := w.jobs[j], w.nextJob;
      Process(c, w, j, Ran(u, RunBlueprint(transitions, start, watched, true)))
      == w.(jobs := w.jobs[kid := Job(Pending, start, 0, 0, NoTask, None, false, None, map[], map[], [], None, map[],
                                      map[], map[], map[], map[], None)]
                          [j := job.(status := WaitingForSubJob, child := Some(kid), transitions := transitions,
                                     transitionCount := job.transitionCount + 1, history := job.history + u)],
            parents := w.parents[kid := j], nextJob := kid + 1,
            messages := w.messages + multiset{kid} - multiset{j},
            watch := if watched then w.watch + {JobKey(kid)} else w.watch,
            log := w.log + [HandlerRan(j)])
  {
    hide Process;
    Handled(c, w, j, u, RunBlueprint(transitions, start, watched, true));
  }

  // ---------------------------------------------------------------- ends

  /** Somebody waits for the job to end, and it is not the job itself. */
  predicate HasParent(w: World, j: JobId) { j in w.parents && w.parents[j] in w.jobs && w.parents[j] != j }

  predicate Orphan(w: World, j: JobId) { j !in w.parents || w.parents[j] !in w.jobs }

  /** The parent goes on by the child's outcome: "success" if the child stood in the state
      "finished", else "failure", and to the state "failed" if it has no transition for that. */
  ghost predicate Resumed(parent: Job, child: Job, resumed: Job) {
    var outcome := if child.current == "finished" then "success" else "failure";
    var next := if outcome in parent.transitions then parent.transitions[outcome] else "failed";
    resumed == parent.(status := Running, current := next, history := parent.history["sub_job_result" := outcome])
  }

  /** From w to w' the parent of job j, if it has one, was sent on because the child ended in `end`. */
  ghost predicate SentOn(w: World, w': World, j: JobId, end: State) {
    if Orphan(w, j) then w' == w
    else
      var p, outcome := w.parents[j], if end == "finished" then "success" else "failure";
      var parent := w.jobs[p];
      var next := if outcome in parent.transitions then parent.transitions[outcome] else "failed";
      var sent := parent.(status := Running, current := next, history := parent.history["sub_job_result" := outcome]);
      w' == w.(jobs := w.jobs[p := sent], messages := w.messages + multiset{p})
  }

  lemma ResumeWrites(w: World, j: JobId, job: Job)
    ensures Orphan(w, j) ==> ResumeParent(w, j, job.current) == w
    ensures HasParent(w, j) ==>
      var p, w' := w.parents[j], ResumeParent(w, j, job.current);
      && p in w'.jobs && Resumed(w.jobs[p], job, w'.jobs[p])
      && w' == w.(jobs := w.jobs[p := w'.jobs[p]], messages := w.messages + multiset{p})
  {}

  /** Resumed a second time, the parent is where the first time left it. */
  lemma ResumedAgain(parent: Job, child: Job, once: Job, twice: Job)
    requires Resumed(parent, child, once) && Resumed(once, child, twice)
    ensures twice == once
  {}

  lemma EndWritesAlone(w: World, j: JobId, job: Job, status: Status, valid: bool)
    requires Orphan(w, j) && !(j in w.parents && w.parents[j] == j)
    ensures ReachEnd(w, j, job, status, valid)
         == w.(jobs := w.jobs[j := job.(status := if status == Finished && !valid then Failed else status)])
  {
    hide ResumeParent;
    var ended := job.(status := if status == Finished && !valid then Failed else status);
    ResumeWrites(w, j, job);
    ResumeWrites(Save(w, j, ended), j, job);
  }

  lemma EndWritesBoth(w: World, j: JobId, job: Job, status: Status, valid: bool)
    requires HasParent(w, j)
    ensures var p, w' := w.parents[j], ReachEnd(w, j, job, status, valid);
      && p in w'.jobs && Resumed(w.jobs[p], job, w'.jobs[p])
      && w' == w.(jobs := w.jobs[p := w'.jobs[p]]
                                [j := job.(status := if status == Finished && !valid then Failed else status)],
                  messages := w.messages + multiset{p} + multiset{p})
  {
    hide ResumeParent, Resumed;
    var p, ended := w.parents[j], job.(status := if status == Finished && !valid then Failed else status);
    var w1 := ResumeParent(w, j, job.current);
    ResumeWrites(w, j, job);
    var w2 := Save(w1, j, ended);
    ResumeWrites(w2, j, job);
    var w3 := ResumeParent(w2, j, job.current);
    ResumedAgain(w.jobs[p], job, w1.jobs[p], w3.jobs[p]);
    assert w3.jobs == w.jobs[p := w1.jobs[p]][j := ended];
  }

  lemma LastHandled(c: Config, w: World, j: JobId, u: map<string, Data>, valid: bool)
    requires Works(c, w, j)
    ensures var job := Merged(w.jobs[j], u);
      Process(c, w, j, Ran(u, NoAction(true, valid)))
      == Ack(ReachEnd(LogHandler(w, j), j, job, if job.current == "finished" then Finished else Failed, valid), j)
  {
    hide Process, ReachEnd, FailHandler, FanOutStep, Dispatch, CreateJob;
    Handled(c, w, j, u, NoAction(true, valid));
  }

  /** Only the child's state counts. */
  lemma ResumedLike(parent: Job, child: Job, other: Job)
    requires other.current == child.current
    ensures forall resumed :: Resumed(parent, child, resumed) <==> Resumed(parent, other, resumed)
  {}

  /** A handler in an end state that chose nothing: the job finishes in the state "finished", if
      its output is valid, and fails in every other. */
  lemma LastMessageAlone(c: Config, w: World, j: JobId, u: map<string, Data>, valid: bool)
    requires Works(c, w, j) && Orphan(w, j)
    ensures var job := w.jobs[j];
      Process(c, w, j, Ran(u, NoAction(true, valid)))
      == w.(jobs := w.jobs[j := job.(status := if job.current == "finished" && valid then Finished else Failed,
                                     transitionCount := job.transitionCount + 1, history := job.history + u)],
            messages := w.messages - multiset{j}, log := w.log + [HandlerRan(j)])
  {
    hide Process, ReachEnd;
    var job, status := Merged(w.jobs[j], u), if w.jobs[j].current == "finished" then Finished else Failed;
    LastHandled(c, w, j, u, valid);
    EndWritesAlone(LogHandler(w, j), j, job, status, valid);
  }

  lemma LastMessageBoth(c: Config, w: World, j: JobId, u: map<string, Data>, valid: bool)
    requires Works(c, w, j) && HasParent(w, j)
    ensures var job, p, w' := w.jobs[j], w.parents[j], Process(c, w, j, Ran(u, NoAction(true, valid)));
      && p in w'.jobs && Resumed(w.jobs[p], job, w'.jobs[p])
      && w' == w.(jobs := w.jobs[p := w'.jobs[p]]
                    [j := job.(status := if job.current == "finished" && valid then Finished else Failed,
                               transitionCount := job.transitionCount + 1, history := job.history + u)],
                  messages := w.messages + multiset{p} + multiset{p} - multiset{j}, log := w.log + [HandlerRan(j)])
  {
    hide Process, ReachEnd, Resumed;
    var job, status := Merged(w.jobs[j], u), if w.jobs[j].current == "finished" then Finished else Failed;
    LastHandled(c, w, j, u, valid);
    EndWritesBoth(LogHandler(w, j), j, job, status, valid);
    ResumedLike(w.jobs[w.parents[j]], job, w.jobs[j]);
  }

  /** Outside the end states a handler that chose nothing saves nothing, its own data included. */
  lemma NothingChosenWrites(c: Config, w: World, j: JobId, u: map<string, Data>, valid: bool)
    requires Works(c, w, j)
    ensures Process(c, w, j, Ran(u, NoAction(false, valid)))
         == w.(messages := w.messages - multiset{j}, log := w.log + [HandlerRan(j)])
  {
    hide Process, ReachEnd, FailHandler, FanOutStep, Dispatch, CreateJob;
    Handled(c, w, j, u, NoAction(false, valid));
  }

  // ---------------------------------------------------------------- failures

  /** The handling fails before anything but the transition is settled. */
  predicate Fails(run: HandlerRun) {
    run.NoHandler? || run.outcome.Raised?
    || (run.outcome.DispatchTask? && run.outcome.worker.None?)
    || (run.outcome.RunBlueprint? && !run.outcome.created)
  }

  /** The record that is then in the executor's hands: a handler that raised leaves no data, a
      task without a worker has been written down already. */
  function Held(job: Job, run: HandlerRun): Job
    requires Fails(run)
  {
    var counted := job.(transitionCount := job.transitionCount + 1);
    match run
    case Ran(u, DispatchTask(info, _)) =>
      counted.(history := job.history + u, status := WaitingForWorker, taskInfo := Some(info),
               transitions := info.transitions, eventTransitions := info.eventTransitions)
    case Ran(u, RunBlueprint(_, _, _, _)) => counted.(history := job.history + u)
    case _ => counted
  }

  /** The store at the moment of the failure. */
  function Base(w: World, j: JobId, run: HandlerRun): World
    requires j in w.jobs && Fails(run)
  {
    if run.NoHandler? then w
    else if run.outcome.DispatchTask? then
      w.(jobs := w.jobs[j := Held(w.jobs[j], run)], watch := w.watch + {JobKey(j)}, log := w.log + [HandlerRan(j)])
    else w.(log := w.log + [HandlerRan(j)])
  }

  lemma FailureHandled(c: Config, w: World, j: JobId, run: HandlerRun)
    requires Works(c, w, j) && Fails(run)
    ensures Process(c, w, j, run) == Ack(FailHandler(c, Base(w, j, run), j, Held(w.jobs[j], run)), j)
  {
    hide FailHandler;
  }

  lemma BaseLike(w: World, j: JobId, run: HandlerRun)
    requires j in w.jobs && Fails(run)
    ensures var base := Base(w, j, run);
      && base.parents == w.parents && base.messages == w.messages && base.quarantine == w.quarantine
      && base.jobs == w.jobs[j := base.jobs[j]] && Held(w.jobs[j], run).current == w.jobs[j].current
      && Held(w.jobs[j], run).retryCount == w.jobs[j].retryCount
  {
    assert w.jobs == w.jobs[j := w.jobs[j]];
  }

  /** While retries are left the job is queued once more, one retry fewer. */
  lemma RetryWrites(c: Config, w: World, j: JobId, run: HandlerRun)
    requires Works(c, w, j) && Fails(run) && w.jobs[j].retryCount < c.maxRetries
    ensures var job, base := w.jobs[j], Base(w, j, run);
      Process(c, w, j, run)
      == base.(jobs := w.jobs[j := Held(job, run).(status := AwaitingRetry, retryCount := job.retryCount + 1)],
               messages := w.messages + multiset{j} - multiset{j})
  {
    hide Process, ReachEnd, Base, Held;
    FailureHandled(c, w, j, run);
    BaseLike(w, j, run);
    var base, job := Base(w, j, run), w.jobs[j];
    var again := Held(job, run).(status := AwaitingRetry, retryCount := job.retryCount + 1);
    assert base.jobs[j := again] == w.jobs[j := again];
  }

  lemma QuarantineWritesAlone(c: Config, w: World, j: JobId, run: HandlerRun)
    requires Works(c, w, j) && Fails(run) && w.jobs[j].retryCount >= c.maxRetries && Orphan(w, j)
    ensures var job, base := w.jobs[j], Base(w, j, run);
      Process(c, w, j, run)
      == base.(jobs := w.jobs[j := Held(job, run).(status := Quarantined)], messages := w.messages - multiset{j},
               quarantine := w.quarantine + [j])
  {
    hide Process, ReachEnd, ResumeParent, Base, Held;
    FailureHandled(c, w, j, run);
    BaseLike(w, j, run);
    var base, held := Base(w, j, run), Held(w.jobs[j], run);
    var ended := held.(status := Quarantined);
    EndWritesAlone(base, j, held, Quarantined, true);
    ResumeWrites(Quarantine(Save(base, j, ended), j), j, held);
    assert base.jobs[j := ended] == w.jobs[j := ended];
  }

  /** The parent is told three times. */
  lemma QuarantineWritesBoth(c: Config, w: World, j: JobId, run: HandlerRun)
    requires Works(c, w, j) && Fails(run) && w.jobs[j].retryCount >= c.maxRetries && HasParent(w, j)
    ensures var job, p, base, w' := w.jobs[j], w.parents[j], Base(w, j, run), Process(c, w, j, run);
      && p in w'.jobs && Resumed(w.jobs[p], job, w'.jobs[p])
      && w' == base.(jobs := w.jobs[p := w'.jobs[p]][j := Held(job, run).(status := Quarantined)],
                     messages := w.messages + multiset{p} + multiset{p} + multiset{p} - multiset{j},
                     quarantine := w.quarantine + [j])
  {
    hide Process, ReachEnd, ResumeParent, Resumed, Base, Held;
    FailureHandled(c, w, j, run);
    BaseLike(w, j, run);
    var p, base, held := w.parents[j], Base(w, j, run), Held(w.jobs[j], run);
    var ended := held.(status := Quarantined);
    EndWritesBoth(base, j, held, Quarantined, true);
    var w1 := Quarantine(ReachEnd(base, j, held, Quarantined, true), j);
    ResumeWrites(w1, j, held);
    var w2 := ResumeParent(w1, j, held.current);
    ResumedAgain(w.jobs[p], held, w1.jobs[p], w2.jobs[p]);
    ResumedLike(w.jobs[p], held, w.jobs[j]);
    assert w2.jobs == w.jobs[p := w1.jobs[p]][j := ended];
  }

  // ---------------------------------------------------------------- fan-out

  /** The first n branches are out: each task was queued for its worker under its branch's id,
      which is written down with its worker and watched; the rest of the store is as it was. */
  ghost predicate Out(w: World, w': World, j: JobId, tasks: seq<TaskInfo>, ids: seq<TaskId>, workers: seq<WorkerId>,
                      n: nat)
    requires j in w.jobs && n <= |tasks| == |ids| && n <= |workers|
  {
    && j in w'.jobs
    && Noted(w.jobs[j], w'.jobs[j], tasks, ids, workers, n)
    && (forall k :: k in w'.watch <==> k in w.watch || (k.BranchKey? && k.job == j && k.task in ids[..n]))
    && w'.log == w.log + seq(n, i requires 0 <= i < n => TaskEnqueued(workers[i], j, ids[i], true))
    && w' == w.(jobs := w.jobs[j := w'.jobs[j]], watch := w'.watch, log := w'.log)
  }

  ghost predicate Noted(job: Job, job': Job, tasks: seq<TaskInfo>, ids: seq<TaskId>, workers: seq<WorkerId>, n: nat)
    requires n <= |tasks| == |ids| && n <= |workers|
  {
    && job' == job.(branchInfo := job'.branchInfo, branchWorkers := job'.branchWorkers,
                    currentTask := if n == 0 then job.currentTask else Task(ids[n - 1]))
    && InfosNoted(job.branchInfo, job'.branchInfo, tasks, ids, n)
    && OwnersNoted(job.branchWorkers, job'.branchWorkers, workers, ids, n)
  }

  ghost predicate InfosNoted(infos: map<TaskId, TaskInfo>, infos': map<TaskId, TaskInfo>, tasks: seq<TaskInfo>,
                             ids: seq<TaskId>, n: nat)
    requires n <= |tasks| == |ids|
  {
    && (forall b :: b in infos' <==> b in infos || b in ids[..n])
    && (forall i :: 0 <= i < n ==> infos'[ids[i]] == tasks[i].(taskId := Some(ids[i])))
    && (forall b :: b in infos && b !in ids[..n] ==> infos'[b] == infos[b])
  }

  ghost predicate OwnersNoted(owners: map<TaskId, WorkerId>, owners': map<TaskId, WorkerId>, workers: seq<WorkerId>,
                              ids: seq<TaskId>, n: nat)
    requires n <= |ids| && n <= |workers|
  {
    && (forall b :: b in owners' <==> b in owners || b in ids[..n])
    && (forall i :: 0 <= i < n ==> owners'[ids[i]] == workers[i])
    && (forall b :: b in owners && b !in ids[..n] ==> owners'[b] == owners[b])
  }

  lemma OneMoreInfo(infos: map<TaskId, TaskInfo>, before: map<TaskId, TaskInfo>, tasks: seq<TaskInfo>,
                    ids: seq<TaskId>, n: nat)
    requires n < |tasks| == |ids| && forall i, k :: 0 <= i < k < |ids| ==> ids[i] != ids[k]
    requires InfosNoted(infos, before, tasks, ids, n)
    ensures InfosNoted(infos, before[ids[n] := tasks[n].(taskId := Some(ids[n]))], tasks, ids, n + 1)
  {
    assert ids[..n + 1] == ids[..n] + [ids[n]];
  }

  lemma OneMoreOwner(owners: map<TaskId, WorkerId>, before: map<TaskId, WorkerId>, workers: seq<WorkerId>,
                     ids: seq<TaskId>, n: nat)
    requires n < |ids| && n < |workers| && forall i, k :: 0 <= i < k < |ids| ==> ids[i] != ids[k]
    requires OwnersNoted(owners, before, workers, ids, n)
    ensures OwnersNoted(owners, before[ids[n] := workers[n]], workers, ids, n + 1)
  {
    assert ids[..n + 1] == ids[..n] + [ids[n]];
  }

  lemma OneBranchWrites(w: World, j: JobId, info: TaskInfo, b: TaskId, worker: WorkerId)
    requires j in w.jobs && b in w.jobs[j].active
    ensures var job := w.jobs[j];
      Dispatch(w, j, BranchTask(info, b), worker)
      == w.(jobs := w.jobs[j := job.(branchInfo := job.branchInfo[b := info.(taskId := Some(b))],
                                     branchWorkers := job.branchWorkers[b := worker], currentTask := Task(b))],
            watch := w.watch + {BranchKey(j, b)}, log := w.log + [TaskEnqueued(worker, j, b, true)])
  {}

  lemma OneMoreNoted(job: Job, before: Job, tasks: seq<TaskInfo>, ids: seq<TaskId>, workers: seq<WorkerId>, n: nat)
    requires n < |tasks| == |ids| && n < |workers| && forall i, k :: 0 <= i < k < |ids| ==> ids[i] != ids[k]
    requires Noted(job, before, tasks, ids, workers, n)
    ensures Noted(job, before.(branchInfo := before.branchInfo[ids[n] := tasks[n].(taskId := Some(ids[n]))],
                               branchWorkers := before.branchWorkers[ids[n] := workers[n]],
                               currentTask := Task(ids[n])), tasks, ids, workers, n + 1)
  {
    hide InfosNoted, OwnersNoted;
    OneMoreInfo(job.branchInfo, before.branchInfo, tasks, ids, n);
    OneMoreOwner(job.branchWorkers, before.branchWorkers, workers, ids, n);
  }

  lemma OneMoreOut(w: World, before: World, j: JobId, tasks: seq<TaskInfo>, ids: seq<TaskId>, workers: seq<WorkerId>,
                   n: nat)
    requires j in w.jobs && n < |tasks| == |ids| && n < |workers|
    requires forall i, k :: 0 <= i < k < |ids| ==> ids[i] != ids[k]
    requires Out(w, before, j, tasks, ids, workers, n) && ids[n] in before.jobs[j].active
    ensures Out(w, Dispatch(before, j, BranchTask(tasks[n], ids[n]), workers[n]), j, tasks, ids, workers, n + 1)
  {
    hide Dispatch, BranchTask, Noted;
    OneMoreNoted(w.jobs[j], before.jobs[j], tasks, ids, workers, n);
    OneBranchWrites(before, j, tasks[n], ids[n], workers[n]);
    assert ids[..n + 1] == ids[..n] + [ids[n]];
  }

  lemma NoneOut(w: World, j: JobId, tasks: seq<TaskInfo>, ids: seq<TaskId>, workers: seq<WorkerId>)
    requires j in w.jobs && |tasks| == |ids|
    ensures Out(w, w, j, tasks, ids, workers, 0)
  {
    assert w.jobs[j := w.jobs[j]] == w.jobs;
  }

  /** The loop over the branches. */
  lemma {:induction false} BranchesWrite(w: World, j: JobId, tasks: seq<TaskInfo>, ids: seq<TaskId>,
                                         workers: seq<WorkerId>, n: nat)
    requires j in w.jobs && n <= |tasks| == |ids| && n <= |workers| && w.jobs[j].active == ids
    requires forall i, k :: 0 <= i < k < |ids| ==> ids[i] != ids[k]
    ensures Out(w, DispatchBranches(w, j, tasks, ids, workers, n), j, tasks, ids, workers, n)
  {
    hide Out, Noted, Dispatch, BranchTask;
    if n == 0 {
      NoneOut(w, j, tasks, ids, workers);
    } else {
      BranchesWrite(w, j, tasks, ids, workers, n - 1);
      StillActive(w, DispatchBranches(w, j, tasks, ids, workers, n - 1), j, tasks, ids, workers, n - 1);
      OneMoreOut(w, DispatchBranches(w, j, tasks, ids, workers, n - 1), j, tasks, ids, workers, n - 1);
    }
  }

  lemma StillActive(w: World, w': World, j: JobId, tasks: seq<TaskInfo>, ids: seq<TaskId>, workers: seq<WorkerId>,
                    n: nat)
    requires j in w.jobs && n <= |tasks| == |ids| && n <= |workers| && Out(w, w', j, tasks, ids, workers, n)
    ensures j in w'.jobs && w'.jobs[j].active == w.jobs[j].active
  {}

  /** What is saved before the first branch goes out. */
  ghost predicate Announced(w: World, w': World, j: JobId, u: map<string, Data>, m: nat, into: State) {
    && j in w.jobs
    && w' == w.(jobs := w.jobs[j := w.jobs[j].(status := WaitingForParallel, current := into, target := Some(into),
                                               active := seq(m, i => w.nextTask + i), results := map[],
                                               branchInfo := map[], history := w.jobs[j].history + u,
                                               transitionCount := w.jobs[j].transitionCount + 1)],
                log := w.log + [HandlerRan(j)], nextTask := w.nextTask + m)
  }

  lemma StartWrites(w: World, j: JobId, u: map<string, Data>, into: State, m: nat)
    requires j in w.jobs
    ensures Announced(w, StartFanOut(LogHandler(w, j), j, Merged(w.jobs[j], u), into, m), j, u, m, into)
  {
    assert FreshIds(w.nextTask, m) == seq(m, i => w.nextTask + i);
  }

  lemma FanOutHandled(c: Config, w: World, j: JobId, u: map<string, Data>, tasks: seq<TaskInfo>, into: State,
                      workers: seq<WorkerId>)
    requires Works(c, w, j)
    ensures var ids, n := FreshIds(w.nextTask, |tasks|), if |workers| < |tasks| then |workers| else |tasks|;
      var started := StartFanOut(LogHandler(w, j), j, Merged(w.jobs[j], u), into, |tasks|);
      var done := DispatchBranches(started, j, tasks, ids, workers, n);
      Process(c, w, j, Ran(u, FanOut(tasks, into, workers)))
      == Ack(if n == |tasks| then done
             else FailHandler(c, done, j,
                    done.jobs[j].(branchInfo := done.jobs[j].branchInfo[ids[n] := BranchTask(tasks[n], ids[n])])), j)
  {
    hide Process, Settle, FanOutStep, FailHandler, StartFanOut, DispatchBranches, BranchTask, Merged;
    Handled(c, w, j, u, FanOut(tasks, into, workers));
    FanOutSettled(c, LogHandler(w, j), j, Merged(w.jobs[j], u), tasks, into, workers);
    FanOutUnfolded(c, LogHandler(w, j), j, Merged(w.jobs[j], u), tasks, into, workers);
  }

  lemma FanOutSettled(c: Config, w: World, j: JobId, job: Job, tasks: seq<TaskInfo>, into: State,
                      workers: seq<WorkerId>)
    ensures Settle(c, w, j, job, FanOut(tasks, into, workers)) == FanOutStep(c, w, j, job, tasks, into, workers)
  {
    hide FanOutStep;
  }

  lemma FanOutUnfolded(c: Config, w: World, j: JobId, job: Job, tasks: seq<TaskInfo>, into: State,
                       workers: seq<WorkerId>)
    ensures var ids, n := FreshIds(w.nextTask, |tasks|), if |workers| < |tasks| then |workers| else |tasks|;
      var done := DispatchBranches(StartFanOut(w, j, job, into, |tasks|), j, tasks, ids, workers, n);
      FanOutStep(c, w, j, job, tasks, into, workers)
      == if n == |tasks| then done
         else FailHandler(c, done, j,
                done.jobs[j].(branchInfo := done.jobs[j].branchInfo[ids[n] := BranchTask(tasks[n], ids[n])]))
  {
    hide FailHandler, DispatchBranches, BranchTask;
  }

  /** A fan-out that finds a worker for every branch. */
  lemma FanOutWrites(c: Config, w: World, j: JobId, u: map<string, Data>, tasks: seq<TaskInfo>, into: State,
                     workers: seq<WorkerId>)
    returns (started: World, done: World)
    requires Works(c, w, j) && |tasks| <= |workers|
    ensures Announced(w, started, j, u, |tasks|, into)
    ensures Out(started, done, j, tasks, seq(|tasks|, i => w.nextTask + i), workers, |tasks|)
    ensures Process(c, w, j, Ran(u, FanOut(tasks, into, workers))) == done.(messages := w.messages - multiset{j})
  {
    hide Process, DispatchBranches, FailHandler, StartFanOut, BranchTask;
    var ids := FreshIds(w.nextTask, |tasks|);
    assert ids == seq(|tasks|, i => w.nextTask + i);
    FanOutHandled(c, w, j, u, tasks, into, workers);
    StartWrites(w, j, u, into, |tasks|);
    started := StartFanOut(LogHandler(w, j), j, Merged(w.jobs[j], u), into, |tasks|);
    BranchesWrite(started, j, tasks, ids, workers, |tasks|);
    done := DispatchBranches(started, j, tasks, ids, workers, |tasks|);
  }

  /** A fan-out whose next branch finds no worker, with retries left: the branches before it are
      out, the job is queued again, and it stands in the aggregator's state already. */
  lemma BrokenFanOutWrites(c: Config, w: World, j: JobId, u: map<string, Data>, tasks: seq<TaskInfo>, into: State,
                           workers: seq<WorkerId>)
    returns (started: World, done: World)
    requires Works(c, w, j) && |tasks| > |workers| && w.jobs[j].retryCount < c.maxRetries
    ensures Announced(w, started, j, u, |tasks|, into)
    ensures Out(started, done, j, tasks, seq(|tasks|, i => w.nextTask + i), workers, |workers|)
    ensures var n, job := |workers|, done.jobs[j];
      Process(c, w, j, Ran(u, FanOut(tasks, into, workers)))
      == done.(jobs := done.jobs[j := job.(status := AwaitingRetry, retryCount := w.jobs[j].retryCount + 1,
          branchInfo := job.branchInfo[w.nextTask + n := tasks[n].(taskId := Some(w.nextTask + n))])],
          messages := w.messages + multiset{j} - multiset{j})
  {
    hide Process, DispatchBranches, StartFanOut, FailHandler, Noted;
    var ids := FreshIds(w.nextTask, |tasks|);
    assert ids == seq(|tasks|, i => w.nextTask + i);
    FanOutHandled(c, w, j, u, tasks, into, workers);
    StartWrites(w, j, u, into, |tasks|);
    started := StartFanOut(LogHandler(w, j), j, Merged(w.jobs[j], u), into, |tasks|);
    BranchesWrite(started, j, tasks, ids, workers, |workers|);
    done := DispatchBranches(started, j, tasks, ids, workers, |workers|);
    OutKeeps(started, done, j, tasks, ids, workers, |workers|);
    var n := |workers|;
    var held := done.jobs[j].(branchInfo := done.jobs[j].branchInfo[ids[n] := BranchTask(tasks[n], ids[n])]);
    HandlerRetried(c, done, j, held);
  }

  lemma OutKeeps(w: World, w': World, j: JobId, tasks: seq<TaskInfo>, ids: seq<TaskId>, workers: seq<WorkerId>, n: nat)
    requires j in w.jobs && n <= |tasks| == |ids| && n <= |workers| && Out(w, w', j, tasks, ids, workers, n)
    ensures j in w'.jobs && w'.messages == w.messages && w'.jobs[j].retryCount == w.jobs[j].retryCount
  {}

  lemma HandlerRetried(c: Config, w: World, j: JobId, job: Job)
    requires job.retryCount < c.maxRetries
    ensures FailHandler(c, w, j, job)
         == w.(jobs := w.jobs[j := job.(status := AwaitingRetry, retryCount := job.retryCount + 1)],
               messages := w.messages + multiset{j})
  {}

  // ---------------------------------------------------------------- the executor's message

  /** The transition is counted and the handler's data are in the history. */
  predicate Tallied(job: Job, after: Job, u: map<string, Data>) {
    after.transitionCount == job.transitionCount + 1 && after.history == job.history + u
  }

  /** From w to w' a message of job j was handled: what happened to the fields, case by case. */
  ghost predicate Told(c: Config, w: World, w': World, j: JobId, run: HandlerRun) {
    if j !in w.jobs then w'.jobs == w.jobs && w'.messages == w.messages - multiset{j}
    else
      && j in w'.jobs
      && var job, after := w.jobs[j], w'.jobs[j];
      if job.status in {Finished, Failed, Error, Quarantined} then
        w'.jobs == w.jobs && w'.messages == w.messages - multiset{j}
      else if job.transitionCount >= c.maxTransitions then
        w'.jobs == w.jobs[j := job.(status := Failed)] && w'.log == w.log && w'.messages == w.messages - multiset{j}
      else
        match run
        // The named state is saved, and the handled message is replaced by a new one.
        case Ran(u, GoTo(next)) =>
          && after.current == next && after.status == Running && after.retryCount == 0 && Tallied(job, after, u)
          && w'.messages == w.messages + multiset{j} - multiset{j} && w'.watch == w.watch
        // The task goes out under a new id; the job waits where it is, under its watch entry.
        case Ran(u, DispatchTask(info, Some(worker))) =>
          info.taskId.None? && w.nextTask !in job.active ==>
            && after.current == job.current && after.status == WaitingForWorker && Tallied(job, after, u)
            && after.currentTask == Task(w.nextTask) && after.assignee == Some(worker)
            && after.taskInfo == Some(info) && after.transitions == info.transitions
            && w'.messages == w.messages - multiset{j} && w'.watch == w.watch + {JobKey(j)}
        // The job stays where it is until a decision names one of the transitions.
        case Ran(u, AwaitHuman(transitions)) =>
          && after.current == job.current && after.status == WaitingForHuman && Tallied(job, after, u)
          && after.transitions == transitions && w'.messages == w.messages - multiset{j} && w'.watch == w.watch
        // Each branch goes out under its own new id; the job stands in the aggregator's state.
        case Ran(u, FanOut(tasks, into, workers)) =>
          |tasks| <= |workers| ==>
            && after.current == into && after.status == WaitingForParallel && Tallied(job, after, u)
            && after.target == Some(into) && after.results == map[] && w'.messages == w.messages - multiset{j}
            && |after.active| == |tasks|
            && forall i :: 0 <= i < |tasks| ==>
                 && after.active[i] == w.nextTask + i && BranchKey(j, after.active[i]) in w'.watch
                 && Find(after.branchWorkers, after.active[i]) == Some(workers[i])
                 && Find(after.branchInfo, after.active[i]) == Some(tasks[i].(taskId := Some(after.active[i])))
        // The child is queued in its start state, and its parent waits for it.
        case Ran(u, RunBlueprint(transitions, start, watched, true)) =>
          && after.current == job.current && after.status == WaitingForSubJob && Tallied(job, after, u)
          && after.transitions == transitions && after.child == Some(w.nextJob)
          && w'.parents == w.parents[w.nextJob := j] && w'.messages == w.messages + multiset{w.nextJob} - multiset{j}
          && (w.nextJob != j ==> w.nextJob in w'.jobs && w'.jobs[w.nextJob].current == start)
        // Finished, or failed when the state is another or the output is not valid.
        case Ran(u, NoAction(true, valid)) =>
          j !in w.parents ==>
            && after.current == job.current && Tallied(job, after, u) && w'.messages == w.messages - multiset{j}
            && after.status == if job.current == "finished" && valid then Finished else Failed
        case Ran(_, NoAction(false, _)) => w'.jobs == w.jobs && w'.messages == w.messages - multiset{j}
        // No handler, one that raised, a task without a worker, a child that could not be made.
        case _ =>
          && (job.retryCount < c.maxRetries ==>
                && after.current == job.current && after.status == AwaitingRetry
                && after.retryCount == job.retryCount + 1 && after.transitionCount == job.transitionCount + 1
                && w'.messages == w.messages + multiset{j} - multiset{j})
          && (job.retryCount >= c.maxRetries && j !in w.parents ==>
                && after.current == job.current && after.status == Quarantined
                && w'.quarantine == w.quarantine + [j] && w'.messages == w.messages - multiset{j})
  }

  lemma ChoiceTold(c: Config, w: World, j: JobId, u: map<string, Data>, outcome: Outcome)
    requires Works(c, w, j) && (outcome.GoTo? || outcome.AwaitHuman? || outcome.NoAction?)
    ensures Told(c, w, Process(c, w, j, Ran(u, outcome)), j, Ran(u, outcome))
  {
    hide Process;
    match outcome
    case GoTo(next) => GoToWrites(c, w, j, u, next);
    case AwaitHuman(transitions) => HumanWrites(c, w, j, u, transitions);
    case NoAction(isEnd, valid) =>
      if !isEnd {
        NothingChosenWrites(c, w, j, u, valid);
      } else if j !in w.parents {
        LastMessageAlone(c, w, j, u, valid);
      } else {
        StaysStored(c, w, j, Ran(u, outcome));
      }
  }

  lemma TaskTold(c: Config, w: World, j: JobId, u: map<string, Data>, info: TaskInfo, worker: WorkerId)
    requires Works(c, w, j)
    ensures var run := Ran(u, DispatchTask(info, Some(worker))); Told(c, w, Process(c, w, j, run), j, run)
  {
    hide Process;
    StaysStored(c, w, j, Ran(u, DispatchTask(info, Some(worker))));
    if info.taskId.None? && w.nextTask !in w.jobs[j].active { TaskWrites(c, w, j, u, info, worker); }
  }

  lemma ChildTold(c: Config, w: World, j: JobId, u: map<string, Data>, outcome: Outcome)
    requires Works(c, w, j) && outcome.RunBlueprint? && outcome.created
    ensures Told(c, w, Process(c, w, j, Ran(u, outcome)), j, Ran(u, outcome))
  {
    hide Process;
    ChildWrites(c, w, j, u, outcome.transitions, outcome.start, outcome.watched);
  }

  lemma FanOutTold(c: Config, w: World, j: JobId, u: map<string, Data>, outcome: Outcome)
    requires Works(c, w, j) && outcome.FanOut?
    ensures Told(c, w, Process(c, w, j, Ran(u, outcome)), j, Ran(u, outcome))
  {
    hide Process, Out, Noted;
    StaysStored(c, w, j, Ran(u, outcome));
    if |outcome.tasks| <= |outcome.workers| {
      var started, done := FanOutWrites(c, w, j, u, outcome.tasks, outcome.into, outcome.workers);
      OutTold(started, done, j, outcome.tasks, started.jobs[j].active, outcome.workers);
    }
  }

  lemma OutTold(w: World, w': World, j: JobId, tasks: seq<TaskInfo>, ids: seq<TaskId>, workers: seq<WorkerId>)
    requires j in w.jobs && |tasks| == |ids| <= |workers| && Out(w, w', j, tasks, ids, workers, |tasks|)
    ensures j in w'.jobs
    ensures var job := w'.jobs[j];
      && job == w.jobs[j].(branchInfo := job.branchInfo, branchWorkers := job.branchWorkers,
                           currentTask := job.currentTask)
      && (forall i :: 0 <= i < |ids| ==> BranchKey(j, ids[i]) in w'.watch)
      && (forall i :: 0 <= i < |ids| ==> Find(job.branchWorkers, ids[i]) == Some(workers[i]))
      && (forall i :: 0 <= i < |ids| ==> Find(job.branchInfo, ids[i]) == Some(tasks[i].(taskId := Some(ids[i]))))
  {
    assert ids[..|tasks|] == ids;
  }

  lemma FailureTold(c: Config, w: World, j: JobId, run: HandlerRun)
    requires Works(c, w, j) && Fails(run)
    ensures Told(c, w, Process(c, w, j, run), j, run)
  {
    hide Process;
    StaysStored(c, w, j, run);
    if w.jobs[j].retryCount < c.maxRetries {
      RetryWrites(c, w, j, run);
    } else if j !in w.parents {
      QuarantineWritesAlone(c, w, j, run);
    }
  }

  lemma StaysStored(c: Config, w: World, j: JobId, run: HandlerRun)
    requires j in w.jobs
    ensures j in Process(c, w, j, run).jobs
  {
    Crash.ProcessLosesOne(c, w, j, run, j + 1);
  }

  /** Every handled message, whatever the handler does, leaves the store as told. */
  lemma ProcessTold(c: Config, w: World, j: JobId, run: HandlerRun)
    ensures Told(c, w, Process(c, w, j, run), j, run)
  {
    hide Process, Told, Works, Fails;
    if !Works(c, w, j) {
      IdleTold(c, w, j, run);
    } else if Fails(run) {
      FailureTold(c, w, j, run);
    } else {
      RanOrFails(run);
      var u, outcome := run.updates, run.outcome;
      if outcome.DispatchTask? {
        TaskTold(c, w, j, u, outcome.info, outcome.worker.value);
      } else if outcome.RunBlueprint? {
        ChildTold(c, w, j, u, outcome);
      } else if outcome.FanOut? {
        FanOutTold(c, w, j, u, outcome);
      } else {
        ChoiceTold(c, w, j, u, outcome);
      }
    }
  }

  lemma RanOrFails(run: HandlerRun)
    requires !Fails(run)
    ensures run.Ran? && !run.outcome.Raised? && (run.outcome.DispatchTask? ==> run.outcome.worker.Some?)
    ensures run.outcome.RunBlueprint? ==> run.outcome.created
  {}

  lemma IdleTold(c: Config, w: World, j: JobId, run: HandlerRun)
    requires !Works(c, w, j)
    ensures Told(c, w, Process(c, w, j, run), j, run)
  {
    hide Process;
    IdleWrites(c, w, j, run);
  }

  // ---------------------------------------------------------------- results

  /** The sender is the one the task, or branch, is assigned to, if anybody is; the result is for
      the current task, unless there is none or branches are awaited; and the job is not over. */
  predicate Admits(job: Job, t: TaskId, worker: WorkerId) {
    && (if t in job.active then t in job.branchWorkers ==> job.branchWorkers[t] == worker
        else job.assignee.None? || job.assignee.value == worker)
    && (job.status == WaitingForParallel || job.currentTask == NoTask || job.currentTask == Task(t))
    && job.status !in {Finished, Failed, Error, Quarantined}
  }

  lemma AdmittedExactly(c: Config, w: World, r: Report, retry: Option<WorkerId>)
    ensures r.job in w.jobs ==> (Accepts(w.jobs[r.job], r.task, r.worker) <==> Admits(w.jobs[r.job], r.task, r.worker))
    ensures r.job !in w.jobs || !Admits(w.jobs[r.job], r.task, r.worker) ==> Result(c, w, r, retry) == w
  {}

  /** A result of a single task is taken up. */
  predicate Takes(w: World, r: Report) {
    r.job in w.jobs && Admits(w.jobs[r.job], r.task, r.worker) && w.jobs[r.job].status != WaitingForParallel
  }

  /** The record with what the result says about its pick-up. */
  function Picked(job: Job, r: Report): Job {
    job.(pickedUp := job.pickedUp || (r.picked && r.task !in job.active))
  }

  lemma ResultHandled(c: Config, w: World, r: Report, retry: Option<WorkerId>)
    requires Takes(w, r)
    ensures Result(c, w, r, retry)
         == SettleResult(c, Unwatch(w, JobKey(r.job)), Picked(w.jobs[r.job], r), r, retry)
  {
    hide SettleResult;
    assert w.jobs[r.job].(pickedUp := w.jobs[r.job].pickedUp) == w.jobs[r.job];
  }

  /** The blueprint names a next state for this status; an empty name is none. */
  predicate Leads(job: Job, status: string) { status in job.transitions && job.transitions[status] != "" }

  /** A success whose output breaks the skill's contract does not count as one. */
  predicate Broken(r: Report) { r.status == Reported("success") && !r.outputValid }

  /** A success or a custom status with a transition: the worker's data go into the history, every
      key of theirs and no other, and the job is queued in the transition's target. */
  lemma ReportWrites(c: Config, w: World, r: Report, retry: Option<WorkerId>)
    requires Takes(w, r) && r.status.Reported? && !Broken(r)
    ensures var j, job := r.job, Picked(w.jobs[r.job], r);
      Result(c, w, r, retry)
      == if Leads(job, r.status.name)
         then w.(jobs := w.jobs[j := job.(current := job.transitions[r.status.name], status := Running,
                                          history := job.history + r.data)],
                 messages := w.messages + multiset{j}, watch := w.watch - {JobKey(j)})
         else w.(jobs := w.jobs[j := job.(status := Failed)], watch := w.watch - {JobKey(j)})
  {
    hide SettleFailure;
    ResultHandled(c, w, r, retry);
  }

  /** A cancelled task: its job goes on by the transition for that, or is cancelled itself. */
  lemma CancelledWrites(c: Config, w: World, r: Report, retry: Option<WorkerId>)
    requires Takes(w, r) && r.status.TaskCancelled?
    ensures var j, job := r.job, Picked(w.jobs[r.job], r);
      Result(c, w, r, retry)
      == if Leads(job, "cancelled")
         then w.(jobs := w.jobs[j := job.(current := job.transitions["cancelled"], status := Running)],
                 messages := w.messages + multiset{j}, watch := w.watch - {JobKey(j)})
         else w.(jobs := w.jobs[j := job.(status := Cancelled)], watch := w.watch - {JobKey(j)})
  {
    hide SettleFailure;
    ResultHandled(c, w, r, retry);
    var job := Picked(w.jobs[r.job], r);
    assert job.history + map[] == job.history;
  }

  /** What the result reports as an error, its broken contract included. */
  predicate FailsWith(r: Report, code: ErrorCode) {
    r.status == Failure(code) || (code == ContractViolation && Broken(r))
  }

  /** Errors that no retry will mend end the job: invalid input and corrupted data fail it, the
      others quarantine it. */
  lemma ErrorWrites(c: Config, w: World, r: Report, code: ErrorCode, retry: Option<WorkerId>)
    requires Takes(w, r) && FailsWith(r, code) && code != Transient
    ensures var j, job := r.job, Picked(w.jobs[r.job], r);
      Result(c, w, r, retry)
      == if code == InvalidInput || code == IntegrityMismatch
         then w.(jobs := w.jobs[j := job.(status := Failed)], watch := w.watch - {JobKey(j)})
         else w.(jobs := w.jobs[j := job.(status := Quarantined)], watch := w.watch - {JobKey(j)},
                 quarantine := w.quarantine + [j])
  {
    hide FailTask;
    ResultHandled(c, w, r, retry);
  }

  // ---------------------------------------------------------------- retries of tasks

  /** A single task without retries left quarantines its job; without its description it fails it. */
  lemma SingleEnds(c: Config, w: World, j: JobId, job: Job, worker: Option<WorkerId>)
    requires job.retryCount >= c.maxRetries || job.taskInfo.None?
    ensures FailSingle(c, w, j, job, worker)
         == if job.retryCount >= c.maxRetries
            then w.(jobs := w.jobs[j := job.(status := Quarantined)], quarantine := w.quarantine + [j])
            else w.(jobs := w.jobs[j := job.(status := Failed, retryCount := job.retryCount + 1)])
  {}

  /** A retry counts, waits under a watch entry, and goes out under a new id if a worker is found. */
  lemma SingleAgain(c: Config, w: World, j: JobId, job: Job, worker: Option<WorkerId>)
    requires job.retryCount < c.maxRetries && job.taskInfo.Some? && job.taskInfo.value.taskId.None?
    requires w.nextTask !in job.active
    ensures var t, again := w.nextTask, job.(status := WaitingForWorker, retryCount := job.retryCount + 1);
      FailSingle(c, w, j, job, worker)
      == if worker.Some?
         then w.(jobs := w.jobs[j := again.(currentTask := Task(t), assignee := worker)],
                 watch := w.watch + {JobKey(j)}, nextTask := t + 1,
                 log := w.log + [TaskEnqueued(worker.value, j, t, false)])
         else w.(jobs := w.jobs[j := again], watch := w.watch + {JobKey(j)})
  {
    var again := job.(status := WaitingForWorker, retryCount := job.retryCount + 1);
    assert again.(taskInfo := Some(job.taskInfo.value)) == again;
    assert worker.Some? ==> Some(worker.value) == worker;
  }

  /** A branch has its own count of retries and keeps its id. */
  lemma BranchAgain(c: Config, w: World, j: JobId, job: Job, t: TaskId, worker: Option<WorkerId>)
    requires t in job.active && t in job.branchInfo && job.branchInfo[t].taskId == Some(t)
    ensures var done := if t in job.branchRetries then job.branchRetries[t] else 0;
      var again := job.(status := WaitingForParallel, branchRetries := job.branchRetries[t := done + 1]);
      FailBranch(c, w, j, job, t, worker)
      == if done >= c.maxRetries
         then w.(jobs := w.jobs[j := job.(status := Quarantined)], quarantine := w.quarantine + [j])
         else if worker.None? then w.(jobs := w.jobs[j := again], watch := w.watch + {BranchKey(j, t)})
         else w.(jobs := w.jobs[j := again.(currentTask := Task(t),
                                            branchWorkers := job.branchWorkers[t := worker.value])],
                 watch := w.watch + {BranchKey(j, t)}, log := w.log + [TaskEnqueued(worker.value, j, t, true)])
  {
    assert job.branchInfo[t := job.branchInfo[t]] == job.branchInfo;
  }

  /** From w to w' the task or branch t of job j, whose record is `job`, has failed and may be
      retried; `retry` is the worker found for it. Blueprints do not choose task ids. */
  ghost predicate TaskFailed(c: Config, w: World, w': World, j: JobId, job: Job, t: TaskRef, retry: Option<WorkerId>) {
    if job.status in {Finished, Failed, Error, Quarantined} then w' == w
    else if t.Task? && t.id in job.active then BranchFailed(c, w, w', j, job, t.id, retry)
    else SingleFailed(c, w, w', j, job, retry)
  }

  /** A branch counts its own retries and keeps its id. */
  ghost predicate BranchFailed(c: Config, w: World, w': World, j: JobId, job: Job, b: TaskId, retry: Option<WorkerId>) {
    var done := if b in job.branchRetries then job.branchRetries[b] else 0;
    var again := job.(status := WaitingForParallel, branchRetries := job.branchRetries[b := done + 1]);
    if done >= c.maxRetries
    then w' == w.(jobs := w.jobs[j := job.(status := Quarantined)], quarantine := w.quarantine + [j])
    else if b !in job.branchInfo then w' == w
    else if retry.None? then w' == w.(jobs := w.jobs[j := again], watch := w.watch + {BranchKey(j, b)})
    else
      && j in w'.jobs && w'.jobs[j].status == WaitingForParallel && w'.jobs[j].active == job.active
      && w'.jobs[j].branchRetries == again.branchRetries && BranchKey(j, b) in w'.watch && w'.messages == w.messages
      && (job.branchInfo[b].taskId == Some(b) ==>
            w' == w.(jobs := w.jobs[j := again.(currentTask := Task(b),
                                                branchWorkers := job.branchWorkers[b := retry.value])],
                     watch := w.watch + {BranchKey(j, b)}, log := w.log + [TaskEnqueued(retry.value, j, b, true)]))
  }

  /** A single task goes out under a new id. */
  ghost predicate SingleFailed(c: Config, w: World, w': World, j: JobId, job: Job, retry: Option<WorkerId>) {
    var again := job.(status := WaitingForWorker, retryCount := job.retryCount + 1);
    if job.retryCount >= c.maxRetries
    then w' == w.(jobs := w.jobs[j := job.(status := Quarantined)], quarantine := w.quarantine + [j])
    else if job.taskInfo.None? then w' == w.(jobs := w.jobs[j := again.(status := Failed)])
    else if retry.None? then w' == w.(jobs := w.jobs[j := again], watch := w.watch + {JobKey(j)})
    else
      && j in w'.jobs && w'.jobs[j].status == WaitingForWorker && w'.jobs[j].retryCount == job.retryCount + 1
      && JobKey(j) in w'.watch && w'.messages == w.messages
      && (job.taskInfo.value.taskId.None? && w.nextTask !in job.active ==>
            w' == w.(jobs := w.jobs[j := again.(currentTask := Task(w.nextTask), assignee := retry)],
                     watch := w.watch + {JobKey(j)}, nextTask := w.nextTask + 1,
                     log := w.log + [TaskEnqueued(retry.value, j, w.nextTask, false)]))
  }

  lemma DispatchLike(w: World, j: JobId, info: TaskInfo, worker: WorkerId)
    requires j in w.jobs
    ensures var job, w' := w.jobs[j], Dispatch(w, j, info, worker);
      && j in w'.jobs && w'.jobs[j].status == job.status && w'.jobs[j].active == job.active
      && w'.jobs[j].retryCount == job.retryCount && w'.jobs[j].branchRetries == job.branchRetries
      && w'.messages == w.messages && w.watch <= w'.watch
  {}

  lemma BranchFailureTold(c: Config, w: World, j: JobId, job: Job, b: TaskId, retry: Option<WorkerId>)
    requires b in job.active
    ensures BranchFailed(c, w, FailBranch(c, w, j, job, b, retry), j, job, b, retry)
  {
    hide Dispatch;
    if retry.Some? && b in job.branchInfo {
      DispatchLike(Save(Watch(w, BranchKey(j, b)), j, RetriedBranch(job, b)), j, job.branchInfo[b], retry.value);
    }
    if retry.Some? && b in job.branchInfo && job.branchInfo[b].taskId == Some(b) {
      BranchAgain(c, w, j, job, b, retry);
    }
  }

  lemma SingleFailureTold(c: Config, w: World, j: JobId, job: Job, retry: Option<WorkerId>)
    ensures SingleFailed(c, w, FailSingle(c, w, j, job, retry), j, job, retry)
  {
    hide Dispatch;
    if retry.Some? && job.taskInfo.Some? {
      DispatchLike(Save(Watch(w, JobKey(j)), j, RetriedSingle(job)), j, job.taskInfo.value, retry.value);
    }
    if retry.Some? && job.retryCount < c.maxRetries && job.taskInfo.Some? && job.taskInfo.value.taskId.None?
       && w.nextTask !in job.active {
      SingleAgain(c, w, j, job, retry);
    }
  }

  lemma TaskFailureTold(c: Config, w: World, j: JobId, job: Job, t: TaskRef, retry: Option<WorkerId>)
    ensures TaskFailed(c, w, FailTask(c, w, j, job, t, retry), j, job, t, retry)
  {
    hide FailBranch, FailSingle, BranchFailed, SingleFailed;
    SingleFailureTold(c, w, j, job, retry);
    if IsBranch(job, t) { BranchFailureTold(c, w, j, job, t.id, retry); }
  }

  /** From w to w' the result of a branch was recorded. */
  ghost predicate Recorded(w: World, w': World, r: Report)
    requires r.job in w.jobs
  {
    var j, t, job := r.job, r.task, w.jobs[r.job];
    && j in w'.jobs && w'.watch == w.watch - {BranchKey(j, t)}
    && var after := w'.jobs[j];
    && after.results == job.results[t := r.payload]
    && multiset(after.active) == multiset(job.active) - multiset{t}
    && (if after.active == []
        then w'.messages == w.messages + multiset{j}
             && (job.target.Some? ==> after.status == Running && after.current == job.target.value)
        else w'.messages == w.messages && after.status == job.status && after.current == job.current)
  }

  /** From w to w' the result r came in; `retry` is the worker found should the task be retried. */
  ghost predicate Heard(c: Config, w: World, w': World, r: Report, retry: Option<WorkerId>) {
    if r.job !in w.jobs || !Admits(w.jobs[r.job], r.task, r.worker) then w' == w
    else if w.jobs[r.job].status == WaitingForParallel then Recorded(w, w', r)
    else
      var j, job, left := r.job, Picked(w.jobs[r.job], r), w.(watch := w.watch - {JobKey(r.job)});
      match r.status
      case Reported(name) =>
        // A broken contract ends the job; the worker's data go into the history, every key of
        // theirs and no other, and the job is queued in the transition's target.
        if Broken(r) then
          w' == left.(jobs := w.jobs[j := job.(status := Quarantined)], quarantine := w.quarantine + [j])
        else if Leads(job, name) then
          w' == left.(jobs := w.jobs[j := job.(current := job.transitions[name], status := Running,
                                               history := job.history + r.data)],
                      messages := w.messages + multiset{j})
        else w' == left.(jobs := w.jobs[j := job.(status := Failed)])
      case TaskCancelled =>
        if Leads(job, "cancelled") then
          w' == left.(jobs := w.jobs[j := job.(current := job.transitions["cancelled"], status := Running)],
                      messages := w.messages + multiset{j})
        else w' == left.(jobs := w.jobs[j := job.(status := Cancelled)])
      case Failure(Transient) => TaskFailed(c, left, w', j, job, Task(r.task), retry)
      case Failure(InvalidInput) => w' == left.(jobs := w.jobs[j := job.(status := Failed)])
      case Failure(IntegrityMismatch) => w' == left.(jobs := w.jobs[j := job.(status := Failed)])
      case Failure(_) =>
        w' == left.(jobs := w.jobs[j := job.(status := Quarantined)], quarantine := w.quarantine + [j])
  }

  lemma {:induction false} RemoveOne(s: seq<TaskId>, t: TaskId)
    ensures multiset(Remove(s, t)) == multiset(s) - multiset{t}
  {
    if s != [] {
      assert s == [s[0]] + s[1..];
      if s[0] != t { RemoveOne(s[1..], t); }
    }
  }

  lemma BranchTold(c: Config, w: World, r: Report, retry: Option<WorkerId>)
    requires r.job in w.jobs && Admits(w.jobs[r.job], r.task, r.worker) && w.jobs[r.job].status == WaitingForParallel
    ensures Recorded(w, Result(c, w, r, retry), r)
  {
    hide SettleResult, RecordBranch, Accepts, Admits;
    AdmittedExactly(c, w, r, retry);
    RecordTold(w.jobs[r.job], r.task, r.payload);
  }

  lemma RecordTold(job: Job, t: TaskId, payload: Data)
    ensures var after := RecordBranch(job, t, payload);
      && after.results == job.results[t := payload]
      && multiset(after.active) == multiset(job.active) - multiset{t}
      && (if after.active == [] then job.target.Some? ==> after.status == Running && after.current == job.target.value
          else after.status == job.status && after.current == job.current)
  {
    RecordedFields(job, t, payload);
    hide RecordBranch;
    RemoveOne(job.active, t);
  }

  lemma RecordedFields(job: Job, t: TaskId, payload: Data)
    ensures var after := RecordBranch(job, t, payload);
      && after.results == job.results[t := payload] && after.active == Remove(job.active, t)
      && (if after.active == [] then job.target.Some? ==> after.status == Running && after.current == job.target.value
          else after.status == job.status && after.current == job.current)
  {
    var rest, after := Remove(job.active, t), RecordBranch(job, t, payload);
    hide Remove;
    if rest == [] && job.target.Some? {
      assert after == job.(results := after.results, active := rest, status := Running, current := job.target.value);
    } else {
      assert after == job.(results := after.results, active := rest);
    }
  }

  lemma TransientTold(c: Config, w: World, r: Report, retry: Option<WorkerId>)
    requires Takes(w, r) && r.status == Failure(Transient)
    ensures Heard(c, w, Result(c, w, r, retry), r, retry)
  {
    hide Result, FailTask, TaskFailed, Admits;
    ResultHandled(c, w, r, retry);
    TaskFailureTold(c, Unwatch(w, JobKey(r.job)), r.job, Picked(w.jobs[r.job], r), Task(r.task), retry);
  }

  lemma ErrorTold(c: Config, w: World, r: Report, code: ErrorCode, retry: Option<WorkerId>)
    requires Takes(w, r) && FailsWith(r, code) && code != Transient
    ensures Heard(c, w, Result(c, w, r, retry), r, retry)
  {
    hide Result, TaskFailed, Admits;
    ErrorWrites(c, w, r, code, retry);
  }

  lemma ReportTold(c: Config, w: World, r: Report, retry: Option<WorkerId>)
    requires Takes(w, r) && (r.status.TaskCancelled? || (r.status.Reported? && !Broken(r)))
    ensures Heard(c, w, Result(c, w, r, retry), r, retry)
  {
    hide Result, TaskFailed, Admits, Broken;
    if r.status.Reported? { ReportWrites(c, w, r, retry); } else { CancelledWrites(c, w, r, retry); }
  }

  /** Every result, from whomever and whenever, leaves the store as told. */
  lemma ResultTold(c: Config, w: World, r: Report, retry: Option<WorkerId>)
    ensures Heard(c, w, Result(c, w, r, retry), r, retry)
  {
    hide Result;
    AdmittedExactly(c, w, r, retry);
    if Takes(w, r) {
      hide Admits, Heard;
      if Broken(r) {
        ErrorTold(c, w, r, ContractViolation, retry);
      } else if r.status == Failure(Transient) {
        TransientTold(c, w, r, retry);
      } else if r.status.Failure? {
        ErrorTold(c, w, r, r.status.code, retry);
      } else {
        ReportTold(c, w, r, retry);
      }
    } else if r.job in w.jobs && Admits(w.jobs[r.job], r.task, r.worker) {
      BranchTold(c, w, r, retry);
    }
  }
}
