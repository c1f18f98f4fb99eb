/** What a branch's timeout undoes when a result comes in between. The watcher pops the entry and
    reads the record; the retry then saves that whole record, with the branches as read. A
    result recorded in the meantime is overwritten: its branch is outstanding again, its watch
    entry is gone, and nobody will send the result again. */
module StaleRecord {
  import opened Basics
  import opened Lifecycle
  import opened NoLoss
  import F = FanIn

  /** The record that a branch's retry saves has the fan-in's fields as they were read. */
  lemma RetryMindsFanIn(job: Job, t: TaskId)
    requires job.status == WaitingForParallel
    ensures F.Minds(job, RetriedBranch(job, t))
  {}

  /** Job j awaits branches t and u, among others, and t may be sent out again. */
  ghost predicate AwaitsBoth(c: Config, w: World, j: JobId, t: TaskId, u: TaskId) {
    && j in w.jobs && j !in w.messages && t != u
    && (var job := w.jobs[j];
        && job.status == WaitingForParallel && job.child.None? && t in job.active && u in job.active
        && (forall i, k :: 0 <= i < k < |job.active| ==> job.active[i] != job.active[k])
        && t in job.branchInfo && job.branchInfo[t].taskId == Some(t) && RetriesOf(job, t) < c.maxRetries)
  }

  lemma ResultRecorded(c: Config, w: World, j: JobId, t: TaskId, u: TaskId, r: Report)
    requires AwaitsBoth(c, w, j, t, u) && r.job == j && r.task == u && Accepts(w.jobs[j], u, r.worker)
    ensures var w' := Result(c, w, r, None);
      && w' == Save(Unwatch(w, BranchKey(j, u)), j, RecordBranch(w.jobs[j], u, r.payload))
      && u !in w'.jobs[j].active && u in w'.jobs[j].results && w'.jobs[j].results[u] == r.payload
  {
    RemoveKeepsOrder(w.jobs[j].active, u);
    assert t in Remove(w.jobs[j].active, u);
  }

  /** The branch goes out again with the record that was read. */
  lemma StaleRetry(c: Config, w: World, j: JobId, read: Job, t: TaskId, worker: Option<WorkerId>)
    requires j in w.jobs && read.status == WaitingForParallel && t in read.active && t in read.branchInfo
    requires read.branchInfo[t].taskId == Some(t) && RetriesOf(read, t) < c.maxRetries
    ensures var w' := FailTask(c, w, j, read, Task(t), worker);
      && j in w'.jobs && w'.jobs[j].status == WaitingForParallel && w'.jobs[j].active == read.active
      && w'.jobs[j].results == read.results && w'.jobs[j].child == read.child
      && w'.messages == w.messages && w'.watch == w.watch + {BranchKey(j, t)}
  {}

  /** Branch t times out and its record is read; the result of branch u is recorded; the retry of
      t saves what was read. The result is gone, u is outstanding and unwatched, and no message
      is left: the job is lost. This needs no crash and no fault of a worker. */
  lemma StaleTimeoutLosesResult(c: Config, w: World, j: JobId, t: TaskId, u: TaskId, r: Report,
                                worker: Option<WorkerId>)
    requires AwaitsBoth(c, w, j, t, u) && r.job == j && r.task == u && Accepts(w.jobs[j], u, r.worker)
    ensures var popped := Unwatch(w, BranchKey(j, t));
      var recorded := Result(c, popped, r, None);
      && j in recorded.jobs && u !in recorded.jobs[j].active && u in recorded.jobs[j].results
      && var w' := FailTask(c, recorded, j, popped.jobs[j], Task(t), worker);
      && j in w'.jobs && w'.jobs[j].results == w.jobs[j].results
      && u in w'.jobs[j].active && BranchKey(j, u) !in w'.watch && j !in w'.messages && !Wired(w', j)
  {
    var popped := Unwatch(w, BranchKey(j, t));
    assert AwaitsBoth(c, popped, j, t, u);
    ResultRecorded(c, popped, j, t, u, r);
    var recorded := Result(c, popped, r, None);
    hide Result, FailTask, Accepts, RecordBranch;
    StaleRetry(c, recorded, j, popped.jobs[j], t, worker);
  }

  /** The same two steps without the race: a timeout handled before or after the result keeps the
      job wired, as every step does. */
  lemma UndisturbedTimeoutIsHarmless(c: Config, w: World, j: JobId, t: TaskId, r: Report, worker: Option<WorkerId>)
    requires Inv(w) && BranchKey(j, t) in w.watch
    ensures Inv(Result(c, Fire(c, w, BranchKey(j, t), worker), r, None))
    ensures Inv(Fire(c, Result(c, w, r, None), BranchKey(j, t), worker))
  {
    hide Inv, Fire, Result;
    FireKeeps(c, w, BranchKey(j, t), worker);
    ResultKeeps(c, Fire(c, w, BranchKey(j, t), worker), r, None);
    ResultKeeps(c, w, r, None);
    FireKeeps(c, Result(c, w, r, None), BranchKey(j, t), worker);
  }

  /** A fan-out of two that reaches the race. */
  lemma TwoBranchesOut(c: Config, first: TaskInfo, second: TaskInfo, into: State, a: WorkerId, b: WorkerId)
    returns (run: seq<World>, acts: seq<Action>)
    requires c.maxTransitions >= 1 && c.maxRetries >= 1
    ensures IsRun(c, run, acts) && |run| == 3 && run[0] == EMPTY && AwaitsBoth(c, run[2], 0, 1, 0)
    ensures Find(run[2].jobs[0].branchWorkers, 0) == Some(a)
  {
    var w1 := CreateJob(EMPTY, "start", false, None);
    var out := Ran(map[], FanOut([first, second], into, [a, b]));
    TwoSent(c, first, second, into, a, b);
    hide Process, CreateJob, AwaitsBoth;
    run := [EMPTY, w1, Process(c, w1, 0, out)];
    acts := [ACreate("start", false), AProcess(0, out)];
  }

  lemma TwoSent(c: Config, first: TaskInfo, second: TaskInfo, into: State, a: WorkerId, b: WorkerId)
    requires c.maxTransitions >= 1 && c.maxRetries >= 1
    ensures var w1 := CreateJob(EMPTY, "start", false, None);
      var w2 := Process(c, w1, 0, Ran(map[], FanOut([first, second], into, [a, b])));
      0 in w1.messages && AwaitsBoth(c, w2, 0, 1, 0) && Find(w2.jobs[0].branchWorkers, 0) == Some(a)
  {
    var started := TwoStarted(c, first, second, into, a, b);
    hide Process, CreateJob;
    TwoAwaited(c, started, first, second, a, b);
  }

  /** The first message, up to the dispatches of its two branches. */
  lemma TwoStarted(c: Config, first: TaskInfo, second: TaskInfo, into: State, a: WorkerId, b: WorkerId)
    returns (started: World)
    requires c.maxTransitions >= 1
    ensures 0 in started.jobs && started.messages == multiset{0}
    ensures started.jobs[0] == FanOutJob(Counted(NewJob("start")), into, [0, 1])
    ensures var w1 := CreateJob(EMPTY, "start", false, None);
      && 0 in w1.messages
      && Process(c, w1, 0, Ran(map[], FanOut([first, second], into, [a, b])))
         == Ack(DispatchBranches(started, 0, [first, second], [0, 1], [a, b], 2), 0)
  {
    var w1 := CreateJob(EMPTY, "start", false, None);
    var job := Counted(w1.jobs[0]).(history := w1.jobs[0].history + map[]);
    assert job == Counted(NewJob("start")) && FreshIds(0, 2) == [0, 1];
    started := StartFanOut(LogHandler(w1, 0), 0, job, into, 2);
    hide DispatchBranches;
  }

  lemma TwoAwaited(c: Config, w: World, first: TaskInfo, second: TaskInfo, a: WorkerId, b: WorkerId)
    requires c.maxRetries >= 1 && 0 in w.jobs && w.messages == multiset{0}
    requires exists into :: w.jobs[0] == FanOutJob(Counted(NewJob("start")), into, [0, 1])
    ensures var w2 := Ack(DispatchBranches(w, 0, [first, second], [0, 1], [a, b], 2), 0);
      AwaitsBoth(c, w2, 0, 1, 0) && Find(w2.jobs[0].branchWorkers, 0) == Some(a)
  {
    TwoDispatched(w, first, second, a, b);
    hide DispatchBranches;
    assert w.jobs[0].active[0] == 0 && w.jobs[0].active[1] == 1;
  }

  lemma TwoDispatched(w: World, first: TaskInfo, second: TaskInfo, a: WorkerId, b: WorkerId)
    requires 0 in w.jobs && w.jobs[0].active == [0, 1]
    ensures var w' := DispatchBranches(w, 0, [first, second], [0, 1], [a, b], 2);
      && 0 in w'.jobs && w'.messages == w.messages
      && (var job' := w'.jobs[0];
          && job' == w.jobs[0].(branchWorkers := w.jobs[0].branchWorkers[0 := a][1 := b],
                                branchInfo := w.jobs[0].branchInfo[0 := BranchTask(first, 0)]
                                                                  [1 := BranchTask(second, 1)],
                                currentTask := Task(1)))
  {
    BranchDispatched(w, 0, first, 0, a);
    assert DispatchBranches(w, 0, [first, second], [0, 1], [a, b], 0) == w;
    var one := DispatchBranches(w, 0, [first, second], [0, 1], [a, b], 1);
    assert one == Dispatch(w, 0, BranchTask(first, 0), a);
    BranchDispatched(one, 0, second, 1, b);
    assert DispatchBranches(w, 0, [first, second], [0, 1], [a, b], 2) == Dispatch(one, 0, BranchTask(second, 1), b);
    hide Dispatch, DispatchBranches;
  }

  /** From the empty store: a fan-out of two, the timeout of branch 1, the result of branch 0 from
      its worker in between. */
  lemma RaceLosesJob(c: Config, first: TaskInfo, second: TaskInfo, into: State, a: WorkerId, b: WorkerId,
                     payload: Data, worker: Option<WorkerId>)
    returns (run: seq<World>, acts: seq<Action>)
    requires c.maxTransitions >= 1 && c.maxRetries >= 1
    ensures IsRun(c, run, acts) && |run| == 3 && run[0] == EMPTY && 0 in run[2].jobs
    ensures var popped := Unwatch(run[2], BranchKey(0, 1));
      var r := Report(a, 0, 0, Reported("success"), map[], payload, false, true);
      var w' := FailTask(c, Result(c, popped, r, None), 0, popped.jobs[0], Task(1), worker);
      0 in w'.jobs && 0 !in w'.messages && !Wired(w', 0)
  {
    run, acts := TwoBranchesOut(c, first, second, into, a, b);
    var r := Report(a, 0, 0, Reported("success"), map[], payload, false, true);
    assert Accepts(run[2].jobs[0], 0, a);
    StaleTimeoutLosesResult(c, run[2], 0, 1, 0, r, worker);
  }
}
