/** What a kill of the watcher, or of the handling of a result, leaves behind. Both remove the
    watch entry first, and nothing in the orchestrator brings it back: the pop is not repeated,
    and a result is handled again only if its worker sends it again. The storage calls are
    listed as for the executor, and for every prefix of them it is said whether the job is
    still wired. */
module HalfDone {
  import opened Basics
  import opened Lifecycle
  import opened Crash
  import NoLoss

  // ---------------------------------------------------------------- the calls

  function RedispatchCalls(w: World, k: WatchKey, j: JobId, job: Job, info: TaskInfo,
                           worker: Option<WorkerId>): seq<Call>
  {
    [WatchCall(k), SaveCall(j, job)]
    + if worker.Some? then DispatchCalls(Save(Watch(w, k), j, job), j, info, worker.value) else []
  }

  function GiveUpCalls(j: JobId, job: Job): seq<Call> {
    [SaveCall(j, job.(status := Quarantined)), QuarantineCall(j)]
  }

  /** A branch's watch entry is removed and set again. */
  function FailBranchCalls(c: Config, w: World, j: JobId, job: Job, t: TaskId, worker: Option<WorkerId>): seq<Call> {
    if RetriesOf(job, t) >= c.maxRetries then GiveUpCalls(j, job)
    else if t !in job.branchInfo then []
    else
      var k := BranchKey(j, t);
      [UnwatchCall(k)] + RedispatchCalls(Unwatch(w, k), k, j, RetriedBranch(job, t), job.branchInfo[t], worker)
  }

  function FailSingleCalls(c: Config, w: World, j: JobId, job: Job, worker: Option<WorkerId>): seq<Call> {
    if job.retryCount >= c.maxRetries then GiveUpCalls(j, job)
    else if job.taskInfo.None? then [SaveCall(j, job.(retryCount := job.retryCount + 1, status := Failed))]
    else RedispatchCalls(w, JobKey(j), j, RetriedSingle(job), job.taskInfo.value, worker)
  }

  function FailTaskCalls(c: Config, w: World, j: JobId, job: Job, t: TaskRef, worker: Option<WorkerId>): seq<Call> {
    if Terminal(job.status) then []
    else if IsBranch(job, t) then FailBranchCalls(c, w, j, job, t.id, worker)
    else FailSingleCalls(c, w, j, job, worker)
  }

  function TimeOutCalls(c: Config, w: World, j: JobId, job: Job, worker: Option<WorkerId>): seq<Call> {
    if Terminal(job.status) then []
    else if job.pickedUp then FailTaskCalls(c, w, j, job, job.currentTask, worker)
    else [SaveCall(j, job.(status := Failed))]
  }

  /** The pop, and the handling of the entry. */
  function FireCalls(c: Config, w: World, k: WatchKey, worker: Option<WorkerId>): seq<Call> {
    [UnwatchCall(k)]
    + if k.job !in w.jobs then []
      else match k
        case BranchKey(j, t) => FailTaskCalls(c, Unwatch(w, k), j, w.jobs[j], Task(t), worker)
        case JobKey(j) => TimeOutCalls(c, Unwatch(w, k), j, w.jobs[j], worker)
  }

  function SettleFailureCalls(c: Config, w: World, j: JobId, job: Job, t: TaskId, code: ErrorCode,
                              worker: Option<WorkerId>): seq<Call> {
    match code
    case Transient => FailTaskCalls(c, w, j, job, Task(t), worker)
    case InvalidInput => [SaveCall(j, job.(status := Failed))]
    case IntegrityMismatch => [SaveCall(j, job.(status := Failed))]
    case _ => GiveUpCalls(j, job)
  }

  function MoveOnCalls(j: JobId, job: Job, next: Option<State>, data: map<string, Data>): seq<Call> {
    if next.Some?
    then [SaveCall(j, job.(history := job.history + data, current := next.value, status := Running)), EnqueueCall(j)]
    else [SaveCall(j, job.(status := Failed))]
  }

  /** A cancelled task's job is saved as cancelled before it moves on. */
  function CancelledCalls(j: JobId, job: Job, next: Option<State>): seq<Call> {
    [SaveCall(j, job.(status := Cancelled))]
    + if next.Some? then [SaveCall(j, job.(current := next.value, status := Running)), EnqueueCall(j)] else []
  }

  function SettleResultCalls(c: Config, w: World, job: Job, r: Report, retry: Option<WorkerId>): seq<Call> {
    match Effective(r)
    case Failure(code) => SettleFailureCalls(c, w, r.job, job, r.task, code, retry)
    case TaskCancelled => CancelledCalls(r.job, job, Truthy(job.transitions, "cancelled"))
    case Reported(name) => MoveOnCalls(r.job, job, Truthy(job.transitions, name), r.data)
  }

  function BranchResultCalls(w: World, j: JobId, t: TaskId, payload: Data): seq<Call>
    requires j in w.jobs
  {
    var recorded := RecordBranch(w.jobs[j], t, payload);
    [UnwatchCall(BranchKey(j, t)), SaveCall(j, recorded)] + if recorded.active == [] then [EnqueueCall(j)] else []
  }

  /** What the worker's picked_up_at adds to the record. */
  function Seen(job: Job, r: Report): Job { if r.picked && r.task !in job.active then job.(pickedUp := true) else job }

  function ResultCalls(c: Config, w: World, r: Report, retry: Option<WorkerId>): seq<Call> {
    var j := r.job;
    if j !in w.jobs || !Accepts(w.jobs[j], r.task, r.worker) then []
    else if w.jobs[j].status == WaitingForParallel then BranchResultCalls(w, j, r.task, r.payload)
    else [UnwatchCall(JobKey(j))] + SettleResultCalls(c, Unwatch(w, JobKey(j)), Seen(w.jobs[j], r), r, retry)
  }

  // ---------------------------------------------------------------- the lists do what the steps do

  lemma PlayFirst(w: World, call: Call, rest: seq<Call>)
    ensures Play(w, [call] + rest) == Play(Apply(w, call), rest)
  {
    assert ([call] + rest)[1..] == rest;
  }

  lemma RedispatchPlayed(w: World, k: WatchKey, j: JobId, job: Job, info: TaskInfo, worker: Option<WorkerId>)
    ensures Play(w, RedispatchCalls(w, k, j, job, info, worker)) == Redispatch(w, k, j, job, info, worker)
  {
    hide Play, Dispatch, DispatchCalls;
    var saved := Save(Watch(w, k), j, job);
    PlayTwo(w, WatchCall(k), SaveCall(j, job));
    if worker.Some? {
      PlayBoth(w, [WatchCall(k), SaveCall(j, job)], DispatchCalls(saved, j, info, worker.value));
      DispatchPlayed(saved, j, info, worker.value);
    } else {
      assert [WatchCall(k), SaveCall(j, job)] + [] == [WatchCall(k), SaveCall(j, job)];
    }
  }

  /** Renewing a watch entry before it is set again makes no difference. */
  lemma WatchedAgain(w: World, k: WatchKey, j: JobId, job: Job, info: TaskInfo, worker: Option<WorkerId>)
    ensures Redispatch(Unwatch(w, k), k, j, job, info, worker) == Redispatch(w, k, j, job, info, worker)
  {
    assert w.watch - {k} + {k} == w.watch + {k};
  }

  lemma FailTaskPlayed(c: Config, w: World, j: JobId, job: Job, t: TaskRef, worker: Option<WorkerId>)
    ensures Play(w, FailTaskCalls(c, w, j, job, t, worker)) == FailTask(c, w, j, job, t, worker)
  {
    PlayNone(w);
    hide Play, FailBranch, FailBranchCalls, FailSingle, FailSingleCalls;
    if IsBranch(job, t) {
      FailBranchPlayed(c, w, j, job, t.id, worker);
    } else {
      FailSinglePlayed(c, w, j, job, worker);
    }
  }

  lemma GiveUpPlayed(w: World, j: JobId, job: Job)
    ensures Play(w, GiveUpCalls(j, job)) == GiveUp(w, j, job)
  {
    PlayTwo(w, SaveCall(j, job.(status := Quarantined)), QuarantineCall(j));
    hide Play;
  }

  lemma FailBranchPlayed(c: Config, w: World, j: JobId, job: Job, t: TaskId, worker: Option<WorkerId>)
    ensures Play(w, FailBranchCalls(c, w, j, job, t, worker)) == FailBranch(c, w, j, job, t, worker)
  {
    PlayNone(w);
    GiveUpPlayed(w, j, job);
    hide Play, Redispatch, RedispatchCalls, GiveUpCalls, GiveUp;
    if t in job.branchInfo {
      var k, info, again := BranchKey(j, t), job.branchInfo[t], RetriedBranch(job, t);
      PlayFirst(w, UnwatchCall(k), RedispatchCalls(Unwatch(w, k), k, j, again, info, worker));
      RedispatchPlayed(Unwatch(w, k), k, j, again, info, worker);
      WatchedAgain(w, k, j, again, info, worker);
    }
  }

  lemma FailSinglePlayed(c: Config, w: World, j: JobId, job: Job, worker: Option<WorkerId>)
    ensures Play(w, FailSingleCalls(c, w, j, job, worker)) == FailSingle(c, w, j, job, worker)
  {
    GiveUpPlayed(w, j, job);
    PlayOne(w, SaveCall(j, job.(retryCount := job.retryCount + 1, status := Failed)));
    hide Play, Redispatch, RedispatchCalls, GiveUpCalls, GiveUp;
    if job.taskInfo.Some? {
      RedispatchPlayed(w, JobKey(j), j, RetriedSingle(job), job.taskInfo.value, worker);
    }
  }

  /** Carried out to the end, the watcher's calls make its step. */
  lemma FirePlayed(c: Config, w: World, k: WatchKey, worker: Option<WorkerId>)
    ensures Play(w, FireCalls(c, w, k, worker)) == Fire(c, w, k, worker)
  {
    var popped := Unwatch(w, k);
    PlayNone(popped);
    assert [UnwatchCall(k)] + [] == [UnwatchCall(k)];
    PlayOne(w, UnwatchCall(k));
    if k.job in w.jobs {
      var job := w.jobs[k.job];
      PlayOne(popped, SaveCall(k.job, job.(status := Failed)));
      FailTaskPlayed(c, popped, k.job, job, if k.JobKey? then job.currentTask else Task(k.task), worker);
      hide Play, FailTask, FailTaskCalls;
      PlayFirst(w, UnwatchCall(k), FireCalls(c, w, k, worker)[1..]);
    }
  }

  lemma SettleFailurePlayed(c: Config, w: World, j: JobId, job: Job, t: TaskId, code: ErrorCode,
                            worker: Option<WorkerId>)
    ensures Play(w, SettleFailureCalls(c, w, j, job, t, code, worker)) == SettleFailure(c, w, j, job, t, code, worker)
  {
    PlayTwo(w, SaveCall(j, job.(status := Quarantined)), QuarantineCall(j));
    PlayOne(w, SaveCall(j, job.(status := Failed)));
    FailTaskPlayed(c, w, j, job, Task(t), worker);
    hide Play, FailTask, FailTaskCalls;
  }

  lemma MoveOnPlayed(w: World, j: JobId, job: Job, next: Option<State>, data: map<string, Data>)
    ensures Play(w, MoveOnCalls(j, job, next, data)) == MoveOn(w, j, job, next, data, Failed)
  {
    hide Play;
    if next.Some? {
      PlayTwo(w, MoveOnCalls(j, job, next, data)[0], EnqueueCall(j));
    } else {
      PlayOne(w, MoveOnCalls(j, job, next, data)[0]);
    }
  }

  lemma CancelledPlayed(w: World, j: JobId, job: Job, next: Option<State>)
    ensures Play(w, CancelledCalls(j, job, next)) == MoveOn(w, j, job, next, map[], Cancelled)
  {
    var cancelled := job.(status := Cancelled);
    PlayOne(w, SaveCall(j, cancelled));
    assert [SaveCall(j, cancelled)] + [] == [SaveCall(j, cancelled)];
    if next.Some? {
      var running := job.(current := next.value, status := Running);
      assert job.history + map[] == job.history;
      PlayFirst(w, SaveCall(j, cancelled), [SaveCall(j, running), EnqueueCall(j)]);
      PlayTwo(Save(w, j, cancelled), SaveCall(j, running), EnqueueCall(j));
      assert w.jobs[j := cancelled][j := running] == w.jobs[j := running];
      hide Play;
    }
  }

  lemma BranchResultPlayed(w: World, j: JobId, t: TaskId, payload: Data)
    requires j in w.jobs
    ensures var recorded := RecordBranch(w.jobs[j], t, payload);
      var saved := Save(Unwatch(w, BranchKey(j, t)), j, recorded);
      Play(w, BranchResultCalls(w, j, t, payload)) == if recorded.active == [] then Enqueue(saved, j) else saved
  {
    var recorded := RecordBranch(w.jobs[j], t, payload);
    var first, second := UnwatchCall(BranchKey(j, t)), SaveCall(j, recorded);
    var saved := Save(Unwatch(w, BranchKey(j, t)), j, recorded);
    PlayTwo(w, first, second);
    PlayOne(saved, EnqueueCall(j));
    hide Play, RecordBranch;
    if recorded.active == [] {
      PlayBoth(w, [first, second], [EnqueueCall(j)]);
    } else {
      assert [first, second] + [] == [first, second];
    }
  }

  /** Carried out to the end, the calls for a result make its step. */
  lemma ResultPlayed(c: Config, w: World, r: Report, retry: Option<WorkerId>)
    ensures Play(w, ResultCalls(c, w, r, retry)) == Result(c, w, r, retry)
  {
    PlayNone(w);
    hide Play, SettleFailure, SettleFailureCalls, MoveOn, MoveOnCalls, CancelledCalls;
    hide RecordBranch, BranchResultCalls, Accepts;
    var j := r.job;
    if j in w.jobs && Accepts(w.jobs[j], r.task, r.worker) {
      if w.jobs[j].status == WaitingForParallel {
        BranchResultPlayed(w, j, r.task, r.payload);
      } else {
        var popped, job := Unwatch(w, JobKey(j)), Seen(w.jobs[j], r);
        PlayFirst(w, UnwatchCall(JobKey(j)), SettleResultCalls(c, popped, job, r, retry));
        match Effective(r)
        case Failure(code) => SettleFailurePlayed(c, popped, j, job, r.task, code, retry);
        case TaskCancelled => CancelledPlayed(popped, j, job, Truthy(job.transitions, "cancelled"));
        case Reported(name) => MoveOnPlayed(popped, j, job, Truthy(job.transitions, name), r.data);
      }
    }
  }

  // ---------------------------------------------------------------- prefixes

  /** The store after a kill that left the first `done` calls of the list carried out. */
  function Cut(w: World, calls: seq<Call>, done: nat): World
    requires done <= |calls|
  {
    Play(w, calls[..done])
  }

  lemma CutFirst(w: World, call: Call, rest: seq<Call>, done: nat)
    requires done <= 1 + |rest|
    ensures Cut(w, [call] + rest, done) == if done == 0 then w else Cut(Apply(w, call), rest, done - 1)
  {
    var calls := [call] + rest;
    if done == 0 {
      assert calls[..0] == [];
    } else {
      assert calls[..done] == [call] + rest[..done - 1];
      PlayFirst(w, call, rest[..done - 1]);
    }
  }

  /** Job j waits for a worker, its watch entry gone and no message there: nothing will wake it. */
  ghost predicate Stranded(w: World, j: JobId) {
    j in w.jobs && j !in w.messages && w.jobs[j].status == WaitingForWorker && JobKey(j) !in w.watch
  }

  /** First a save that puts the job at rest, then no more saves. */
  lemma RestingCut(w: World, j: JobId, record: Job, rest: seq<Call>, done: nat)
    requires j in w.jobs && done <= 1 + |rest| && NoLoss.AtRest(record.status)
    requires forall call :: call in rest ==> call == QuarantineCall(j)
    ensures var w' := Cut(w, [SaveCall(j, record)] + rest, done);
      j in w'.jobs && (NoLoss.Wired(w', j) <==> done >= 1 || NoLoss.Wired(w, j))
  {
    CutFirst(w, SaveCall(j, record), rest, done);
    if done >= 1 {
      var tail, w1 := rest[..done - 1], Save(w, j, record);
      assert forall call :: call in tail ==> call in rest;
      assert SavesLike(tail, j, record.status, record.active);
      LastSavedLike(tail, j, Some(record), record.status, record.active);
      AddedWiredExactly(w1, tail, j);
      hide Play, NoLoss.Wired;
    }
  }

  /** The watch entry is set again before the rest, which keeps the job as it waits. */
  lemma RenewedCut(w: World, j: JobId, rest: seq<Call>, done: nat)
    requires Stranded(w, j) && done <= 1 + |rest| && OnlyAdds(rest)
    requires SavesLike(rest, j, WaitingForWorker, w.jobs[j].active)
    ensures var w' := Cut(w, [WatchCall(JobKey(j))] + rest, done);
      j in w'.jobs && (NoLoss.Wired(w', j) <==> done >= 1)
  {
    CutFirst(w, WatchCall(JobKey(j)), rest, done);
    if done >= 1 {
      var tail, w1 := rest[..done - 1], Watch(w, JobKey(j));
      assert SavesLike(tail, j, WaitingForWorker, w.jobs[j].active) && OnlyAdds(tail);
      LastSavedLike(tail, j, Some(w.jobs[j]), WaitingForWorker, w.jobs[j].active);
      AddedWiredExactly(w1, tail, j);
      hide Play, NoLoss.Wired, SavesLike, OnlyAdds, LastSaved, Enqueues;
    }
  }

  /** A save that makes the job ready, and its queueing. */
  lemma QueuedCut(w: World, j: JobId, record: Job, done: nat)
    requires j in w.jobs && j !in w.messages && !NoLoss.Wired(w, j) && NoLoss.Ready(record.status) && done <= 2
    ensures var w' := Cut(w, [SaveCall(j, record), EnqueueCall(j)], done);
      j in w'.jobs && (NoLoss.Wired(w', j) <==> done == 2)
  {
    var save, enqueue := SaveCall(j, record), EnqueueCall(j);
    assert [save, enqueue] == [save] + [enqueue];
    CutFirst(w, save, [enqueue], done);
    if done >= 1 {
      assert [enqueue] == [enqueue] + [];
      CutFirst(Save(w, j, record), enqueue, [], done - 1);
      PlayNone(Save(w, j, record));
      PlayNone(Enqueue(Save(w, j, record), j));
    }
  }

  // ---------------------------------------------------------------- single tasks

  lemma RedispatchShape(w: World, k: WatchKey, j: JobId, job: Job, info: TaskInfo, worker: Option<WorkerId>)
    ensures var calls := RedispatchCalls(w, k, j, job, info, worker);
      && |calls| >= 2 && calls == [WatchCall(k)] + calls[1..] && OnlyAdds(calls[1..])
      && SavesLike(calls[1..], j, job.status, job.active)
  {
    if worker.Some? {
      DispatchSavesLike(Save(Watch(w, k), j, job), j, info, worker.value);
    }
  }

  /** The failure of a single task, begun on a stranded job: the first call saves it. */
  lemma FailSingleCut(c: Config, w: World, j: JobId, job: Job, worker: Option<WorkerId>, done: nat)
    requires Stranded(w, j) && job.active == w.jobs[j].active && done <= |FailSingleCalls(c, w, j, job, worker)|
    ensures var w' := Cut(w, FailSingleCalls(c, w, j, job, worker), done);
      j in w'.jobs && (NoLoss.Wired(w', j) <==> done >= 1)
  {
    assert !NoLoss.Wired(w, j);
    hide RedispatchCalls, Cut, NoLoss.Wired, GiveUpCalls;
    if job.retryCount >= c.maxRetries {
      GiveUpCut(w, j, job, done);
    } else if job.taskInfo.None? {
      SavedCut(w, j, job.(retryCount := job.retryCount + 1, status := Failed), done);
    } else {
      RetryCut(w, j, RetriedSingle(job), job.taskInfo.value, worker, done);
    }
  }

  lemma GiveUpCut(w: World, j: JobId, job: Job, done: nat)
    requires j in w.jobs && !NoLoss.Wired(w, j) && done <= |GiveUpCalls(j, job)|
    ensures var w' := Cut(w, GiveUpCalls(j, job), done);
      j in w'.jobs && (NoLoss.Wired(w', j) <==> done >= 1)
  {
    assert GiveUpCalls(j, job) == [SaveCall(j, job.(status := Quarantined))] + [QuarantineCall(j)];
    hide Cut, NoLoss.Wired;
    RestingCut(w, j, job.(status := Quarantined), [QuarantineCall(j)], done);
  }

  lemma RetryCut(w: World, j: JobId, job: Job, info: TaskInfo, worker: Option<WorkerId>, done: nat)
    requires Stranded(w, j) && job.active == w.jobs[j].active && job.status == WaitingForWorker
    requires done <= |RedispatchCalls(w, JobKey(j), j, job, info, worker)|
    ensures var w' := Cut(w, RedispatchCalls(w, JobKey(j), j, job, info, worker), done);
      j in w'.jobs && (NoLoss.Wired(w', j) <==> done >= 1)
  {
    RedispatchShape(w, JobKey(j), j, job, info, worker);
    var calls := RedispatchCalls(w, JobKey(j), j, job, info, worker);
    hide RedispatchCalls, Cut, SavesLike, OnlyAdds, NoLoss.Wired;
    RenewedCut(w, j, calls[1..], done);
  }

  /** Job j waits for the result of a single task, watched, with no message. */
  ghost predicate WaitsSingle(w: World, j: JobId) {
    j in w.jobs && j !in w.messages && w.jobs[j].status == WaitingForWorker && JobKey(j) in w.watch
  }

  lemma PoppedStrands(w: World, j: JobId)
    requires WaitsSingle(w, j)
    ensures NoLoss.Wired(w, j) && Stranded(Unwatch(w, JobKey(j)), j) && !NoLoss.Wired(Unwatch(w, JobKey(j)), j)
  {}

  /** A single task's timeout loses the job if and only if the watcher dies right after the pop. */
  lemma KilledTimeoutExactly(c: Config, w: World, j: JobId, worker: Option<WorkerId>, done: nat)
    requires WaitsSingle(w, j) && (w.jobs[j].pickedUp ==> !IsBranch(w.jobs[j], w.jobs[j].currentTask))
    requires done <= |FireCalls(c, w, JobKey(j), worker)|
    ensures |FireCalls(c, w, JobKey(j), worker)| >= 2
    ensures var w' := Cut(w, FireCalls(c, w, JobKey(j), worker), done);
      j in w'.jobs && (NoLoss.Wired(w', j) <==> done != 1)
  {
    PoppedStrands(w, j);
    var job, popped := w.jobs[j], Unwatch(w, JobKey(j));
    var rest := TimeOutCalls(c, popped, j, job, worker);
    CutFirst(w, UnwatchCall(JobKey(j)), rest, done);
    RestCounts(c, popped, j, job, worker);
    if done >= 1 {
      if job.pickedUp {
        FailSingleCut(c, popped, j, job, worker, done - 1);
      } else {
        assert rest == [SaveCall(j, job.(status := Failed))] + [];
        RestingCut(popped, j, job.(status := Failed), [], done - 1);
      }
    }
    hide Cut, FailSingleCalls;
  }

  lemma RestCounts(c: Config, w: World, j: JobId, job: Job, worker: Option<WorkerId>)
    ensures |FailSingleCalls(c, w, j, job, worker)| >= 1
  {}

  /** A result that ends, fails or retries the job strands it if and only if its handling is killed
      right after the watch entry was removed. A transition strands it until the job is queued;
      one that follows a cancellation is at rest in between, while saved as cancelled. */
  predicate Strands(r: Report, job: Job, done: nat) {
    match Effective(r)
    case Reported(name) => done == 1 || (done == 2 && Truthy(job.transitions, name).Some?)
    case TaskCancelled => done == 1 || (done == 3 && Truthy(job.transitions, "cancelled").Some?)
    case Failure(_) => done == 1
  }

  lemma KilledResultExactly(c: Config, w: World, r: Report, retry: Option<WorkerId>, done: nat)
    requires WaitsSingle(w, r.job) && Accepts(w.jobs[r.job], r.task, r.worker) && r.task !in w.jobs[r.job].active
    requires done <= |ResultCalls(c, w, r, retry)|
    ensures var w' := Cut(w, ResultCalls(c, w, r, retry), done);
      r.job in w'.jobs && (NoLoss.Wired(w', r.job) <==> !Strands(r, w.jobs[r.job], done))
  {
    var j := r.job;
    PoppedStrands(w, j);
    var popped, job := Unwatch(w, JobKey(j)), Seen(w.jobs[j], r);
    assert job.transitions == w.jobs[j].transitions && job.active == w.jobs[j].active && job.status == WaitingForWorker;
    var rest := SettleResultCalls(c, popped, job, r, retry);
    CutFirst(w, UnwatchCall(JobKey(j)), rest, done);
    if done >= 1 {
      hide Cut, Accepts, NoLoss.Wired;
      SettleCut(c, popped, job, r, retry, done - 1);
    }
  }

  lemma SettleCut(c: Config, w: World, job: Job, r: Report, retry: Option<WorkerId>, done: nat)
    requires Stranded(w, r.job) && job.active == w.jobs[r.job].active && r.task !in job.active
    requires !Terminal(job.status) && done <= |SettleResultCalls(c, w, job, r, retry)|
    ensures var w' := Cut(w, SettleResultCalls(c, w, job, r, retry), done);
      r.job in w'.jobs && (NoLoss.Wired(w', r.job) <==> !Strands(r, job, done + 1))
  {
    hide Cut, FailSingleCalls;
    match Effective(r)
    case Failure(code) => SettleFailureCut(c, w, r.job, job, r.task, code, retry, done);
    case TaskCancelled => CancelledCut(w, r.job, job, Truthy(job.transitions, "cancelled"), done);
    case Reported(name) => MoveOnCut(w, r.job, job, Truthy(job.transitions, name), r.data, done);
  }

  lemma SettleFailureCut(c: Config, w: World, j: JobId, job: Job, t: TaskId, code: ErrorCode, worker: Option<WorkerId>,
                         done: nat)
    requires Stranded(w, j) && job.active == w.jobs[j].active && t !in job.active && !Terminal(job.status)
    requires done <= |SettleFailureCalls(c, w, j, job, t, code, worker)|
    ensures var w' := Cut(w, SettleFailureCalls(c, w, j, job, t, code, worker), done);
      j in w'.jobs && (NoLoss.Wired(w', j) <==> done >= 1)
  {
    hide Cut, FailSingleCalls;
    match code
    case Transient => FailSingleCut(c, w, j, job, worker, done);
    case InvalidInput => SavedCut(w, j, job.(status := Failed), done);
    case IntegrityMismatch => SavedCut(w, j, job.(status := Failed), done);
    case _ => GiveUpCut(w, j, job, done);
  }

  lemma SavedCut(w: World, j: JobId, record: Job, done: nat)
    requires Stranded(w, j) && NoLoss.AtRest(record.status) && done <= 1
    ensures var w' := Cut(w, [SaveCall(j, record)], done);
      j in w'.jobs && (NoLoss.Wired(w', j) <==> done >= 1)
  {
    assert [SaveCall(j, record)] == [SaveCall(j, record)] + [];
    RestingCut(w, j, record, [], done);
  }

  lemma MoveOnCut(w: World, j: JobId, job: Job, next: Option<State>, data: map<string, Data>, done: nat)
    requires Stranded(w, j) && done <= |MoveOnCalls(j, job, next, data)|
    ensures var w' := Cut(w, MoveOnCalls(j, job, next, data), done);
      j in w'.jobs && (NoLoss.Wired(w', j) <==> if next.Some? then done == 2 else done == 1)
  {
    if next.Some? {
      QueuedCut(w, j, job.(history := job.history + data, current := next.value, status := Running), done);
    } else {
      SavedCut(w, j, job.(status := Failed), done);
    }
  }

  lemma CancelledCut(w: World, j: JobId, job: Job, next: Option<State>, done: nat)
    requires Stranded(w, j) && done <= |CancelledCalls(j, job, next)|
    ensures var w' := Cut(w, CancelledCalls(j, job, next), done);
      j in w'.jobs && (NoLoss.Wired(w', j) <==> if next.Some? then done == 1 || done == 3 else done == 1)
  {
    var cancelled := job.(status := Cancelled);
    if next.None? {
      assert [SaveCall(j, cancelled)] + [] == [SaveCall(j, cancelled)];
      SavedCut(w, j, cancelled, done);
    } else {
      var running := job.(current := next.value, status := Running);
      var save, enqueue := SaveCall(j, running), EnqueueCall(j);
      CutFirst(w, SaveCall(j, cancelled), [save, enqueue], done);
      if done >= 1 {
        var w1 := Save(w, j, cancelled);
        assert [save, enqueue] == [save] + [enqueue];
        CutFirst(w1, save, [enqueue], done - 1);
        if done >= 2 {
          assert [enqueue] == [enqueue] + [];
          CutFirst(Save(w1, j, running), enqueue, [], done - 2);
          PlayNone(Enqueue(Save(w1, j, running), j));
        }
      }
    }
  }

  // ---------------------------------------------------------------- branches

  /** Job j waits for branches, all watched, branch t among them, with no message. */
  ghost predicate WaitsBranch(w: World, j: JobId, t: TaskId) {
    && j in w.jobs && j !in w.messages && w.jobs[j].status == WaitingForParallel && t in w.jobs[j].active
    && (forall i, k :: 0 <= i < k < |w.jobs[j].active| ==> w.jobs[j].active[i] != w.jobs[j].active[k])
    && forall b :: b in w.jobs[j].active ==> BranchKey(j, b) in w.watch
  }

  lemma PoppedBranch(w: World, j: JobId, t: TaskId)
    requires WaitsBranch(w, j, t)
    ensures NoLoss.Wired(w, j) && !NoLoss.Wired(Unwatch(w, BranchKey(j, t)), j)
    ensures Unwatch(Unwatch(w, BranchKey(j, t)), BranchKey(j, t)) == Unwatch(w, BranchKey(j, t))
  {}

  /** A branch's timeout loses the job if and only if the watcher dies after the pop and before the
      retry set the entry again, or, without retries left, before the job was quarantined. */
  lemma KilledBranchTimeoutExactly(c: Config, w: World, j: JobId, t: TaskId, worker: Option<WorkerId>, done: nat)
    requires WaitsBranch(w, j, t) && done <= |FireCalls(c, w, BranchKey(j, t), worker)|
    ensures var w' := Cut(w, FireCalls(c, w, BranchKey(j, t), worker), done);
      && j in w'.jobs
      && (NoLoss.Wired(w', j) <==>
            || done == 0
            || (if RetriesOf(w.jobs[j], t) >= c.maxRetries then done >= 2 else done >= 3))
  {
    PoppedBranch(w, j, t);
    var job, k := w.jobs[j], BranchKey(j, t);
    var popped := Unwatch(w, k);
    CutFirst(w, UnwatchCall(k), FailBranchCalls(c, popped, j, job, t, worker), done);
    if done >= 1 {
      if RetriesOf(job, t) >= c.maxRetries {
        GiveUpCut(popped, j, job, done - 1);
      } else if t in job.branchInfo {
        var again, info := RetriedBranch(job, t), job.branchInfo[t];
        var calls := RedispatchCalls(popped, k, j, again, info, worker);
        CutFirst(popped, UnwatchCall(k), calls, done - 1);
        RedispatchShape(popped, k, j, again, info, worker);
        if done >= 2 {
          hide RedispatchCalls, Cut, SavesLike, OnlyAdds, NoLoss.Wired;
          RenewedBranchCut(w, j, t, calls[1..], done - 2);
        }
      } else {
        PlayNone(popped);
      }
    }
  }

  lemma RenewedBranchCut(w: World, j: JobId, t: TaskId, rest: seq<Call>, done: nat)
    requires WaitsBranch(w, j, t) && done <= 1 + |rest| && OnlyAdds(rest)
    requires SavesLike(rest, j, WaitingForParallel, w.jobs[j].active)
    ensures var popped := Unwatch(w, BranchKey(j, t));
      var w' := Cut(popped, [WatchCall(BranchKey(j, t))] + rest, done);
      j in w'.jobs && (NoLoss.Wired(w', j) <==> done >= 1)
  {
    var popped := Unwatch(w, BranchKey(j, t));
    PoppedBranch(w, j, t);
    CutFirst(popped, WatchCall(BranchKey(j, t)), rest, done);
    if done >= 1 {
      var tail, w1 := rest[..done - 1], Watch(popped, BranchKey(j, t));
      assert SavesLike(tail, j, WaitingForParallel, w.jobs[j].active) && OnlyAdds(tail);
      LastSavedLike(tail, j, Some(w.jobs[j]), WaitingForParallel, w.jobs[j].active);
      AddedWiredExactly(w1, tail, j);
      hide Play, NoLoss.Wired, SavesLike, OnlyAdds, LastSaved, Enqueues;
    }
  }

  /** A branch's result loses the job if and only if its handling is killed after the watch entry
      was removed and before the result was recorded, or, for the last branch, before the job was
      queued. */
  lemma KilledBranchResultExactly(c: Config, w: World, r: Report, retry: Option<WorkerId>, done: nat)
    requires WaitsBranch(w, r.job, r.task) && Accepts(w.jobs[r.job], r.task, r.worker) && w.jobs[r.job].target.Some?
    requires done <= |ResultCalls(c, w, r, retry)|
    ensures |ResultCalls(c, w, r, retry)| == if |w.jobs[r.job].active| == 1 then 3 else 2
    ensures var w' := Cut(w, ResultCalls(c, w, r, retry), done);
      && r.job in w'.jobs
      && (NoLoss.Wired(w', r.job) <==> done != 1 && (|w.jobs[r.job].active| == 1 ==> done != 2))
  {
    var j, t := r.job, r.task;
    var recorded := RecordBranch(w.jobs[j], t, r.payload);
    PoppedBranch(w, j, t);
    NoLoss.RemoveKeepsOrder(w.jobs[j].active, t);
    LastLeft(w.jobs[j].active, t);
    var first, save, enqueue := UnwatchCall(BranchKey(j, t)), SaveCall(j, recorded), EnqueueCall(j);
    var tail := if recorded.active == [] then [enqueue] else [];
    assert ResultCalls(c, w, r, retry) == [first] + ([save] + tail);
    CutFirst(w, first, [save] + tail, done);
    var popped := Unwatch(w, BranchKey(j, t));
    if done >= 1 {
      CutFirst(popped, save, tail, done - 1);
      var saved := Save(popped, j, recorded);
      if done >= 2 {
        PlayNone(saved);
        RecordedWired(w, j, t, r.payload);
        if recorded.active == [] {
          assert [enqueue] == [enqueue] + [];
          CutFirst(saved, enqueue, [], done - 2);
          PlayNone(Enqueue(saved, j));
        }
      }
    }
  }

  lemma LastLeft(s: seq<TaskId>, t: TaskId)
    requires t in s
    ensures |Remove(s, t)| == |s| - 1
  {
    if s[0] != t {
      LastLeft(s[1..], t);
    }
  }

  lemma RecordedWired(w: World, j: JobId, t: TaskId, payload: Data)
    requires WaitsBranch(w, j, t) && w.jobs[j].target.Some? && t !in Remove(w.jobs[j].active, t)
    ensures var recorded := RecordBranch(w.jobs[j], t, payload);
      var saved := Save(Unwatch(w, BranchKey(j, t)), j, recorded);
      if recorded.active == [] then !NoLoss.Wired(saved, j) && NoLoss.Wired(Enqueue(saved, j), j)
      else NoLoss.Wired(saved, j)
  {}
}
