/** The orchestrator as it is written: classes whose methods read a job's record, change
    it field by field and send it back to a store that changes in place. Every method is
    proved to make exactly one step of module Lifecycle, so that what is proved about
    runs of those steps holds of these methods; the executor is proved to make, call by
    call, the list of storage calls of module Crash. */
module Actors {
  import opened Basics
  import opened Lifecycle
  import opened Crash
  import opened HalfDone
  import NoLoss
  import Ids
  import Writes

  /** The storage backend. `calls` is the history of the requests served. */
  class Store {
    var jobs: map<JobId, Job>
    var parents: map<JobId, JobId>
    var messages: multiset<JobId>
    var watch: set<WatchKey>
    var quarantine: seq<JobId>
    var nextJob: JobId
    var nextTask: TaskId
    ghost var log: seq<Effect>
    ghost var calls: seq<Call>

    ghost function World(): World
      reads this
    {
      Lifecycle.World(jobs, parents, messages, watch, quarantine, nextJob, nextTask, log)
    }

    constructor ()
      ensures World() == EMPTY && calls == []
    {
      jobs, parents, messages, watch, quarantine := map[], map[], multiset{}, {}, [];
      nextJob, nextTask, log, calls := 0, 0, [], [];
    }

    /** The request `call`, and nothing else, was served. */
    twostate predicate Served(call: Call)
      reads this
    {
      World() == Apply(old(World()), call) && calls == old(calls) + [call]
    }

    method SaveJobState(j: JobId, record: Job)
      modifies this
      ensures Served(SaveCall(j, record))
    {
      jobs := jobs[j := record];
      calls := calls + [SaveCall(j, record)];
    }

    method EnqueueJob(j: JobId)
      modifies this
      ensures Served(EnqueueCall(j))
    {
      messages := messages + multiset{j};
      calls := calls + [EnqueueCall(j)];
    }

    method AckJob(j: JobId)
      modifies this
      ensures Served(AckCall(j))
    {
      messages := messages - multiset{j};
      calls := calls + [AckCall(j)];
    }

    method AddToWatch(k: WatchKey)
      modifies this
      ensures Served(WatchCall(k))
    {
      watch := watch + {k};
      calls := calls + [WatchCall(k)];
    }

    method RemoveFromWatch(k: WatchKey)
      modifies this
      ensures Served(UnwatchCall(k))
    {
      watch := watch - {k};
      calls := calls + [UnwatchCall(k)];
    }

    method QuarantineJob(j: JobId)
      modifies this
      ensures Served(QuarantineCall(j))
    {
      quarantine := quarantine + [j];
      calls := calls + [QuarantineCall(j)];
    }

    /** `enqueue_task_for_worker`, with the id drawn by the dispatcher when the task has none. */
    method EnqueueTask(worker: WorkerId, j: JobId, given: Option<TaskId>) returns (t: TaskId)
      modifies this
      ensures Served(PushCall(worker, j, given)) && t == PushedId(old(World()), given)
    {
      if given.Some? {
        t := given.value;
      } else {
        t := nextTask;
        nextTask := nextTask + 1;
      }
      log := log + [TaskEnqueued(worker, j, t, given.Some?)];
      calls := calls + [PushCall(worker, j, given)];
    }

    method DrawTaskIds(n: nat) returns (ids: seq<TaskId>)
      modifies this
      ensures Served(DrawTasksCall(n)) && ids == FreshIds(old(nextTask), n)
    {
      ids := FreshIds(nextTask, n);
      nextTask := nextTask + n;
      calls := calls + [DrawTasksCall(n)];
    }

    method DrawJobId(parent: Option<JobId>) returns (j: JobId)
      modifies this
      ensures Served(DrawJobCall(parent)) && j == old(nextJob)
    {
      j := nextJob;
      if parent.Some? { parents := parents[j := parent.value]; }
      nextJob := nextJob + 1;
      calls := calls + [DrawJobCall(parent)];
    }

    /** Not a request: the body of a handler runs. */
    ghost method RunHandler(j: JobId)
      modifies this
      ensures Served(HandlerCall(j))
    {
      log := log + [HandlerRan(j)];
      calls := calls + [HandlerCall(j)];
    }
  }

  class Dispatcher {
    const store: Store

    constructor (store: Store)
      ensures this.store == store
    {
      this.store := store;
    }

    /** `dispatch` after its choice of a worker; the record it returns is the latest stored one. */
    method Dispatch(j: JobId, info: TaskInfo, worker: WorkerId) returns (latest: Job)
      requires j in store.jobs
      modifies store
      ensures store.World() == Lifecycle.Dispatch(old(store.World()), j, info, worker)
      ensures store.calls == old(store.calls) + DispatchCalls(old(store.World()), j, info, worker)
      ensures j in store.jobs && latest == store.jobs[j]
      // Queued, then written down, then watched, whatever the record says of branches.
      ensures var t := if info.taskId.Some? then info.taskId.value else old(store.nextTask);
        var job, branch := old(store.jobs)[j], t in old(store.jobs)[j].active;
        && latest.currentTask == Task(t)
        && (if branch then Find(latest.branchWorkers, t) == Some(worker) && Find(latest.branchInfo, t) == Some(info)
            else latest.assignee == Some(worker) && latest.taskInfo == Some(info))
        && store.watch == old(store.watch) + {if branch then BranchKey(j, t) else JobKey(j)}
        && store.log == old(store.log) + [TaskEnqueued(worker, j, t, info.taskId.Some?)]
        && store.calls == old(store.calls) + [PushCall(worker, j, info.taskId), SaveCall(j, latest),
                                              WatchCall(if branch then BranchKey(j, t) else JobKey(j))]
        && latest.status == job.status && latest.current == job.current && store.messages == old(store.messages)
    {
      var t := store.EnqueueTask(worker, j, info.taskId);
      latest := store.jobs[j];
      if t in latest.active {
        latest := latest.(branchWorkers := latest.branchWorkers[t := worker],
            branchInfo := latest.branchInfo[t := info]);
      } else {
        latest := latest.(assignee := Some(worker), taskInfo := Some(info));
      }
      latest := latest.(currentTask := Task(t));
      store.SaveJobState(j, latest);
      store.AddToWatch(if t in latest.active then BranchKey(j, t) else JobKey(j));
    }
  }

  class Engine {
    const store: Store
    const dispatcher: Dispatcher
    const config: Config

    constructor (store: Store, config: Config)
      ensures this.store == store && this.config == config && Wired()
    {
      this.store := store;
      this.config := config;
      dispatcher := new Dispatcher(store);
    }

    predicate Wired() { dispatcher.store == store }

    method CreateBackgroundJob(start: State, watched: bool, parent: Option<JobId>) returns (j: JobId)
      modifies store
      ensures j == old(store.nextJob)
      ensures store.World() == CreateJob(old(store.World()), start, watched, parent)
      ensures store.calls == old(store.calls) + CreateCalls(old(store.World()), start, watched, parent)
      ensures store.messages == old(store.messages) + multiset{j}
      ensures store.watch == if watched then old(store.watch) + {JobKey(j)} else old(store.watch)
      ensures store.parents == if parent.Some? then old(store.parents)[j := parent.value] else old(store.parents)
      ensures j in store.jobs && store.jobs == old(store.jobs)[j := store.jobs[j]]
      ensures store.calls == old(store.calls) + ([DrawJobCall(parent), SaveCall(j, store.jobs[j])]
                             + (if watched then [WatchCall(JobKey(j))] else []) + [EnqueueCall(j)])
      ensures var job := store.jobs[j];
        && job.status == Pending && job.current == start && job.transitionCount == job.retryCount == 0
        && job.history == map[] && job.currentTask == NoTask && job.assignee == None && job.child == None
    {
      j := store.DrawJobId(parent);
      store.SaveJobState(j, NewJob(start));
      ghost var saved, begun := store.World(), [DrawJobCall(parent), SaveCall(j, NewJob(start))];
      assert saved == Save(DrawJob(old(store.World()), parent), j, NewJob(start));
      assert store.calls == old(store.calls) + begun;
      assert saved.jobs[j] == NewJob(start) && NewJob(start).status == Pending && NewJob(start).current == start;
      assert saved.messages == old(store.messages) && saved.watch == old(store.watch);
      hide Save, DrawJob;
      if watched {
        store.AddToWatch(JobKey(j));
        begun := begun + [WatchCall(JobKey(j))];
      }
      assert store.calls == old(store.calls) + begun;
      store.EnqueueJob(j);
    }

    method Redispatch(k: WatchKey, j: JobId, job: Job, info: TaskInfo, worker: Option<WorkerId>)
      requires Wired()
      modifies store
      ensures store.World() == Lifecycle.Redispatch(old(store.World()), k, j, job, info, worker)
      ensures store.calls == old(store.calls) + RedispatchCalls(old(store.World()), k, j, job, info, worker)
      ensures store.messages == old(store.messages) && k in store.watch && j in store.jobs
      ensures store.jobs[j].status == job.status && store.jobs[j].retryCount == job.retryCount
    {
      store.AddToWatch(k);
      store.SaveJobState(j, job);
      if worker.Some? {
        DispatchFrame(store.World(), j, info, worker.value);
        hide Lifecycle.Dispatch, DispatchCalls;
        var _ := dispatcher.Dispatch(j, info, worker.value);
      }
    }

    /** `handle_task_failure`. */
    method HandleTaskFailure(j: JobId, record: Job, t: TaskRef, worker: Option<WorkerId>)
      requires Wired()
      modifies store
      ensures store.World() == FailTask(config, old(store.World()), j, record, t, worker)
      ensures store.calls == old(store.calls) + FailTaskCalls(config, old(store.World()), j, record, t, worker)
      ensures store.messages == old(store.messages)
      ensures Writes.TaskFailed(config, old(store.World()), store.World(), j, record, t, worker)
    {
      Writes.TaskFailureTold(config, old(store.World()), j, record, t, worker);
      hide FailBranch, FailSingle, Writes.TaskFailed;
      if Terminal(record.status) { return; }
      if t.Task? && t.id in record.active {
        HandleBranchFailure(j, record, t.id, worker);
      } else {
        HandleSingleFailure(j, record, worker);
      }
    }

    method HandleBranchFailure(j: JobId, record: Job, t: TaskId, worker: Option<WorkerId>)
      requires Wired()
      modifies store
      ensures store.World() == FailBranch(config, old(store.World()), j, record, t, worker)
      ensures store.calls == old(store.calls) + FailBranchCalls(config, old(store.World()), j, record, t, worker)
      ensures store.messages == old(store.messages)
    {
      hide Lifecycle.Redispatch, RedispatchCalls;
      var job := record;
      var retries := RetriesOf(job, t);
      if retries < config.maxRetries {
        job := job.(branchRetries := job.branchRetries[t := retries + 1]);
        if t !in job.branchInfo { return; }
        job := job.(status := WaitingForParallel);
        store.RemoveFromWatch(BranchKey(j, t));
        WatchedAgain(old(store.World()), BranchKey(j, t), j, job, job.branchInfo[t], worker);
        Redispatch(BranchKey(j, t), j, job, job.branchInfo[t], worker);
      } else {
        Quarantine(j, job);
      }
    }

    method HandleSingleFailure(j: JobId, record: Job, worker: Option<WorkerId>)
      requires Wired()
      modifies store
      ensures store.World() == FailSingle(config, old(store.World()), j, record, worker)
      ensures store.calls == old(store.calls) + FailSingleCalls(config, old(store.World()), j, record, worker)
      ensures store.messages == old(store.messages)
      ensures record.retryCount < config.maxRetries && record.taskInfo.Some? ==>
        && j in store.jobs && store.jobs[j].status == WaitingForWorker && JobKey(j) in store.watch
        && store.jobs[j].retryCount == record.retryCount + 1
    {
      hide Lifecycle.Redispatch;
      var job := record;
      if job.retryCount < config.maxRetries {
        job := job.(retryCount := job.retryCount + 1);
        if job.taskInfo.None? {
          job := job.(status := Failed);
          store.SaveJobState(j, job);
          return;
        }
        job := job.(status := WaitingForWorker);
        Redispatch(JobKey(j), j, job, job.taskInfo.value, worker);
      } else {
        Quarantine(j, job);
      }
    }

    method Quarantine(j: JobId, record: Job)
      modifies store
      ensures store.World() == GiveUp(old(store.World()), j, record)
      ensures store.calls == old(store.calls) + GiveUpCalls(j, record)
      ensures store.jobs == old(store.jobs)[j := record.(status := Quarantined)]
      ensures store.quarantine == old(store.quarantine) + [j] && store.messages == old(store.messages)
    {
      var job := record.(status := Quarantined);
      store.SaveJobState(j, job);
      store.QuarantineJob(j);
    }

    /** `handle_job_timeout`. */
    method HandleJobTimeout(j: JobId, record: Job, worker: Option<WorkerId>)
      requires Wired()
      modifies store
      ensures store.World() == TimeOut(config, old(store.World()), j, record, worker)
      ensures store.calls == old(store.calls) + TimeOutCalls(config, old(store.World()), j, record, worker)
      ensures store.messages == old(store.messages)
      // An ended job is let alone, one that nobody picked up fails, another's task has failed.
      ensures
        if record.status in {Finished, Failed, Error, Quarantined} then store.World() == old(store.World())
        else if !record.pickedUp then
          store.World() == old(store.World()).(jobs := old(store.jobs)[j := record.(status := Failed)])
        else Writes.TaskFailed(config, old(store.World()), store.World(), j, record, record.currentTask, worker)
    {
      if Terminal(record.status) { return; }
      if record.pickedUp {
        HandleTaskFailure(j, record, record.currentTask, worker);
      } else {
        store.SaveJobState(j, record.(status := Failed));
      }
    }

    /** One entry that the watcher popped. */
    method HandlePopped(k: WatchKey, worker: Option<WorkerId>)
      requires Wired()
      modifies store
      ensures store.World() == Fire(config, old(store.World()), k, worker)
      ensures store.calls == old(store.calls) + FireCalls(config, old(store.World()), k, worker)
      ensures store.messages == old(store.messages)
      // The entry is gone before anything else, and what follows is done on the record as stored.
      ensures
        var popped := old(store.World()).(watch := old(store.watch) - {k});
        && old(store.calls) + [UnwatchCall(k)] <= store.calls
        && if k.job !in old(store.jobs) then store.World() == popped
           else
             var job := old(store.jobs)[k.job];
             match k
             case BranchKey(j, t) => Writes.TaskFailed(config, popped, store.World(), j, job, Task(t), worker)
             case JobKey(j) =>
               if job.status in {Finished, Failed, Error, Quarantined} then store.World() == popped
               else if !job.pickedUp then store.World() == popped.(jobs := old(store.jobs)[j := job.(status := Failed)])
               else Writes.TaskFailed(config, popped, store.World(), j, job, job.currentTask, worker)
    {
      hide FailTask, FailTaskCalls, TimeOut, TimeOutCalls, Writes.TaskFailed;
      store.RemoveFromWatch(k);
      if k.job !in store.jobs { return; }
      var job := store.jobs[k.job];
      match k
      case BranchKey(j, t) => HandleTaskFailure(j, job, Task(t), worker);
      case JobKey(j) => HandleJobTimeout(j, job, worker);
    }

    method CancelJob(j: JobId) returns (cancelled: bool)
      modifies store
      ensures store.World() == Cancel(old(store.World()), j)
      ensures cancelled <==>
        j in old(store.jobs) && old(store.jobs)[j].status !in {Finished, Failed, Error, Quarantined}
      ensures !cancelled ==> store.World() == old(store.World())
      ensures cancelled ==> store.jobs == old(store.jobs)[j := old(store.jobs)[j].(status := Cancelled)]
      ensures store.messages == old(store.messages) && store.watch == old(store.watch)
    {
      if j !in store.jobs || Terminal(store.jobs[j].status) { return false; }
      store.SaveJobState(j, store.jobs[j].(status := Cancelled));
      cancelled := true;
    }

    /** `human_approval_webhook_handler`, with the HTTP status it answers. */
    method ApproveJob(j: JobId, decision: string) returns (status: int)
      modifies store
      ensures store.World() == Approve(old(store.World()), j, decision)
      ensures status in {200, 400, 404, 409} && (status == 200 <==> store.World() != old(store.World()))
      ensures status == 404 <==> decision != "" && j !in old(store.jobs)
      ensures status == 409 <==>
        (decision != "" && j in old(store.jobs) && old(store.jobs)[j].status !in {WaitingForWorker, WaitingForHuman})
      ensures status == 200 <==>
        (decision != "" && j in old(store.jobs) && old(store.jobs)[j].status in {WaitingForWorker, WaitingForHuman}
         && Writes.Leads(old(store.jobs)[j], decision))
      ensures status == 200 ==>
        var job := old(store.jobs)[j];
        store.World() == old(store.World()).(
          jobs := old(store.jobs)[j := job.(current := job.transitions[decision], status := Running)],
          messages := old(store.messages) + multiset{j})
        && store.calls == old(store.calls) + [SaveCall(j, store.jobs[j]), EnqueueCall(j)]
    {
      if decision == "" { return 400; }
      if j !in store.jobs { return 404; }
      var job := store.jobs[j];
      if job.status != WaitingForWorker && job.status != WaitingForHuman { return 409; }
      var next := Truthy(job.transitions, decision);
      if next.None? { return 400; }
      job := job.(current := next.value);
      job := job.(status := Running);
      store.SaveJobState(j, job);
      store.EnqueueJob(j);
      MoreMessages(old(store.messages), j);
      status := 200;
    }
  }

  lemma MoreMessages(messages: multiset<JobId>, j: JobId)
    ensures messages + multiset{j} != messages
  {
    assert (messages + multiset{j})[j] == messages[j] + 1;
  }

  /** What a dispatch leaves alone. */
  lemma DispatchFrame(w: World, j: JobId, info: TaskInfo, worker: WorkerId)
    requires j in w.jobs
    ensures var w' := Lifecycle.Dispatch(w, j, info, worker);
      && j in w'.jobs && w'.messages == w.messages && w.watch <= w'.watch
      && w'.jobs[j].status == w.jobs[j].status && w'.jobs[j].transitions == w.jobs[j].transitions
      && w'.jobs[j].retryCount == w.jobs[j].retryCount
  {}

  class JobExecutor {
    const store: Store
    const dispatcher: Dispatcher
    const engine: Engine
    const config: Config

    constructor (engine: Engine)
      requires engine.Wired()
      ensures this.store == engine.store && this.config == engine.config && this.engine == engine && Wired()
    {
      this.engine := engine;
      store, config, dispatcher := engine.store, engine.config, engine.dispatcher;
    }

    predicate Wired() { dispatcher.store == store && engine.store == store }

    /** `_check_and_resume_parent`. */
    method ResumeParent(j: JobId, end: State)
      modifies store
      ensures store.World() == Lifecycle.ResumeParent(old(store.World()), j, end)
      ensures store.calls == old(store.calls) + ResumeCalls(old(store.World()), j, end)
      ensures store.quarantine == old(store.quarantine)
      ensures Writes.SentOn(old(store.World()), store.World(), j, end)
    {
      if j !in store.parents { return; }
      var p := store.parents[j];
      if p !in store.jobs { return; }
      var parent := store.jobs[p];
      var outcome := if end == "finished" then "success" else "failure";
      parent := parent.(history := parent.history["sub_job_result" := outcome]);
      parent := parent.(current := if outcome in parent.transitions then parent.transitions[outcome] else "failed");
      parent := parent.(status := Running);
      store.SaveJobState(p, parent);
      store.EnqueueJob(p);
    }

    /** `_handle_terminal_reached`. */
    method HandleTerminalReached(j: JobId, record: Job, status: Status, outputValid: bool)
      modifies store
      ensures store.World() == ReachEnd(old(store.World()), j, record, status, outputValid)
      ensures store.calls == old(store.calls) + EndCalls(old(store.World()), j, record, status, outputValid)
      ensures store.quarantine == old(store.quarantine)
    {
      hide Lifecycle.ResumeParent, ResumeCalls, Writes.SentOn;
      var job := record.(status := status);
      ResumeParent(j, job.current);
      if status == Finished && !outputValid { job := job.(status := Failed); }
      store.SaveJobState(j, job);
      ResumeParent(j, job.current);
    }

    /** `_handle_failure`. */
    method HandleFailure(j: JobId, record: Job)
      modifies store
      ensures store.World() == FailHandler(config, old(store.World()), j, record)
      ensures store.calls == old(store.calls) + FailCalls(config, old(store.World()), j, record)
      ensures record.retryCount < config.maxRetries ==>
        && store.jobs == old(store.jobs)[j := record.(retryCount := record.retryCount + 1, status := AwaitingRetry)]
        && store.messages == old(store.messages) + multiset{j}
      ensures record.retryCount >= config.maxRetries ==> store.quarantine == old(store.quarantine) + [j]
      ensures record.retryCount >= config.maxRetries && j !in old(store.parents) ==>
        store.jobs == old(store.jobs)[j := record.(status := Quarantined)] && store.messages == old(store.messages)
    {
      hide Lifecycle.ResumeParent, ResumeCalls, ReachEnd, EndCalls, Writes.SentOn;
      if record.retryCount < config.maxRetries {
        var job := record.(retryCount := record.retryCount + 1);
        job := job.(status := AwaitingRetry);
        store.SaveJobState(j, job);
        store.EnqueueJob(j);
      } else {
        HandleTerminalReached(j, record, Quarantined, true);
        store.QuarantineJob(j);
        ResumeParent(j, record.current);
        if j !in old(store.parents) { FailAlone(config, old(store.World()), j, record); }
      }
    }

    /** `_handle_dispatch` of a task. */
    method HandleDispatch(j: JobId, record: Job, info: TaskInfo, worker: Option<WorkerId>)
      requires Wired()
      modifies store
      ensures store.World() == Settle(config, old(store.World()), j, record, DispatchTask(info, worker))
      ensures store.calls == old(store.calls) + TaskCalls(config, old(store.World()), j, record, info, worker)
      ensures worker.Some? ==>
        && j in store.jobs && store.jobs[j].status == WaitingForWorker && store.jobs[j].transitions == info.transitions
        && JobKey(j) in store.watch && store.messages == old(store.messages)
      // Saved, watched, and then sent out.
      ensures
        var waiting := record.(status := WaitingForWorker, taskInfo := Some(info), transitions := info.transitions,
                               eventTransitions := info.eventTransitions);
        old(store.calls) + [SaveCall(j, waiting), WatchCall(JobKey(j))]
            + (if worker.Some? then [PushCall(worker.value, j, info.taskId)] else []) <= store.calls
    {
      hide Lifecycle.Dispatch, DispatchCalls, FailHandler, FailCalls;
      var job := record.(status := WaitingForWorker);
      job := job.(taskInfo := Some(info));
      job := job.(transitions := info.transitions);
      job := job.(eventTransitions := info.eventTransitions);
      store.SaveJobState(j, job);
      store.AddToWatch(JobKey(j));
      if worker.Some? {
        DispatchFrame(store.World(), j, info, worker.value);
        job := dispatcher.Dispatch(j, info, worker.value);
      } else {
        HandleFailure(j, job);
      }
    }

    /** `_handle_parallel_dispatch`; a branch for which no worker is found raises. */
    method HandleParallelDispatch(j: JobId, record: Job, tasks: seq<TaskInfo>, into: State, workers: seq<WorkerId>)
      requires Wired()
      modifies store
      ensures store.World() == FanOutStep(config, old(store.World()), j, record, tasks, into, workers)
      ensures store.calls == old(store.calls) + FanOutCalls(config, old(store.World()), j, record, tasks, into, workers)
      ensures |tasks| <= |workers| ==>
        && j in store.jobs && store.jobs[j].status == WaitingForParallel && store.jobs[j].current == into
        && store.jobs[j].active == FreshIds(old(store.nextTask), |tasks|) && store.messages == old(store.messages)
        && forall b :: b in store.jobs[j].active ==> BranchKey(j, b) in store.watch && b in store.jobs[j].branchInfo
    {
      hide Lifecycle.Dispatch, DispatchCalls, FailHandler, FailCalls, StartFanOut, Lifecycle.DispatchBranches,
          BranchCalls;
      var ids, job := StartParallel(j, record, into, |tasks|);
      var i;
      ghost var started := store.World();
      i, job := DispatchBranches(j, job, tasks, ids, workers);
      if |tasks| <= |workers| {
        NoLoss.BranchesDispatched(started, j, tasks, ids, workers, |tasks|);
        assert ids[..|tasks|] == ids;
      }
      if i < |tasks| {
        job := job.(branchInfo := job.branchInfo[ids[i] := BranchTask(tasks[i], ids[i])]);
        HandleFailure(j, job);
      }
    }

    /** The loop over the branches; it ends early when no worker is found for one. */
    method DispatchBranches(j: JobId, record: Job, tasks: seq<TaskInfo>, ids: seq<TaskId>, workers: seq<WorkerId>)
        returns (i: nat, job: Job)
      requires Wired() && |tasks| == |ids| && j in store.jobs && record == store.jobs[j] && record.active == ids
      modifies store
      ensures i == if |workers| < |tasks| then |workers| else |tasks|
      ensures store.World() == Lifecycle.DispatchBranches(old(store.World()), j, tasks, ids, workers, i)
      ensures store.calls == old(store.calls) + BranchCalls(old(store.World()), j, tasks, ids, workers, i)
      ensures j in store.jobs && job == store.jobs[j]
    {
      hide Lifecycle.Dispatch, ChunkCalls;
      job := record;
      i := 0;
      while i < |tasks| && i < |workers|
        invariant i <= |tasks| && i <= |workers| && j in store.jobs && job == store.jobs[j] && job.active == ids
        invariant store.World() == Lifecycle.DispatchBranches(old(store.World()), j, tasks, ids, workers, i)
        invariant store.calls == old(store.calls) + BranchCalls(old(store.World()), j, tasks, ids, workers, i)
      {
        job := DispatchBranch(j, job, tasks[i], ids[i], workers[i]);
        i := i + 1;
      }
    }

    /** The record that awaits its branches is saved before any branch goes out. */
    method StartParallel(j: JobId, record: Job, into: State, n: nat) returns (ids: seq<TaskId>, job: Job)
      modifies store
      ensures ids == FreshIds(old(store.nextTask), n)
      ensures store.World() == StartFanOut(old(store.World()), j, record, into, n)
      ensures store.calls == old(store.calls) + [DrawTasksCall(n), SaveCall(j, FanOutJob(record, into, ids))]
      ensures j in store.jobs && job == store.jobs[j] && job.active == ids
      ensures job.status == WaitingForParallel && job.current == into && job.branchInfo == map[]
      ensures store.messages == old(store.messages)
    {
      ids := store.DrawTaskIds(n);
      job := record.(status := WaitingForParallel);
      job := job.(current := into);
      job := job.(target := Some(into));
      job := job.(active := ids);
      job := job.(results := map[]);
      job := job.(branchInfo := map[]);
      store.SaveJobState(j, job);
    }

    method DispatchBranch(j: JobId, record: Job, info: TaskInfo, b: TaskId, worker: WorkerId) returns (job: Job)
      requires Wired() && j in store.jobs && record == store.jobs[j] && b in record.active
      modifies store
      ensures store.World() == Lifecycle.Dispatch(old(store.World()), j, BranchTask(info, b), worker)
      ensures store.calls == old(store.calls) + ChunkCalls(old(store.World()), j, info, b, worker)
      ensures j in store.jobs && job == store.jobs[j] && job.active == record.active
    {
      BranchWatched(store.World(), j, info, b, worker);
      hide Lifecycle.Dispatch, DispatchCalls;
      job := dispatcher.Dispatch(j, BranchTask(info, b), worker);
      store.AddToWatch(BranchKey(j, b));
    }

    /** `_handle_run_blueprint`. */
    method HandleRunBlueprint(j: JobId, record: Job, transitions: map<string, State>, start: State, watched: bool,
                              created: bool)
      requires Wired()
      modifies store
      ensures store.World()
          == Settle(config, old(store.World()), j, record, RunBlueprint(transitions, start, watched, created))
      ensures store.calls == old(store.calls)
              + SettleCalls(config, old(store.World()), j, record, RunBlueprint(transitions, start, watched, created))
      ensures created ==>
        && store.messages == old(store.messages) + multiset{old(store.nextJob)} && j in store.jobs
        && store.jobs[j].status == WaitingForSubJob && store.jobs[j].child == Some(old(store.nextJob))
      // The child is drawn, linked, stored and queued before the waiting parent is saved.
      ensures created ==>
        var kid, n := old(store.nextJob), |store.calls|;
        && old(store.calls) + [DrawJobCall(Some(j))] <= store.calls && n >= |old(store.calls)| + 4
        && store.calls[n - 2] == EnqueueCall(kid)
        && store.calls[n - 1] == SaveCall(j, record.(status := WaitingForSubJob, child := Some(kid),
                                                     transitions := transitions))
    {
      hide CreateJob, CreateCalls, FailHandler, FailCalls;
      if !created {
        HandleFailure(j, record);
        return;
      }
      var kid := engine.CreateBackgroundJob(start, watched, Some(j));
      var job := record.(status := WaitingForSubJob);
      job := job.(child := Some(kid));
      job := job.(transitions := transitions);
      store.SaveJobState(j, job);
    }

    /** The actions of a handler, carried out. */
    method CarryOut(j: JobId, record: Job, outcome: Outcome)
      requires Wired()
      modifies store
      ensures store.World() == Settle(config, old(store.World()), j, record, outcome)
      ensures store.calls == old(store.calls) + SettleCalls(config, old(store.World()), j, record, outcome)
    {
      hide FailHandler, FailCalls, ReachEnd, EndCalls, FanOutStep, FanOutCalls, TaskCalls;
      match outcome
      case Raised => HandleFailure(j, record);
      case GoTo(next) =>
        var job := record.(retryCount := 0);
        job := job.(current := next);
        job := job.(status := Running);
        store.SaveJobState(j, job);
        store.EnqueueJob(j);
      case DispatchTask(info, worker) => HandleDispatch(j, record, info, worker);
      case AwaitHuman(transitions) =>
        store.SaveJobState(j, record.(status := WaitingForHuman, transitions := transitions));
      case FanOut(tasks, into, workers) => HandleParallelDispatch(j, record, tasks, into, workers);
      case RunBlueprint(transitions, start, watched, created) =>
        HandleRunBlueprint(j, record, transitions, start, watched, created);
      case NoAction(isEnd, outputValid) =>
        if isEnd {
          var status := if record.current == "finished" then Finished else Failed;
          HandleTerminalReached(j, record, status, outputValid);
        }
    }

    /** `_process_job`; `run` is what the handler does. */
    method ProcessJob(j: JobId, run: HandlerRun)
      requires Wired()
      modifies store
      ensures store.World() == Process(config, old(store.World()), j, run)
      ensures store.calls == old(store.calls) + ProcessCalls(config, old(store.World()), j, run)
      ensures Writes.Told(config, old(store.World()), store.World(), j, run)
      // In particular go_to: the job is queued in the state that the handler named.
      ensures j in old(store.jobs) && run.Ran? && run.outcome.GoTo? ==>
        var job := old(store.jobs)[j];
        job.status !in {Finished, Failed, Error, Quarantined} && job.transitionCount < config.maxTransitions ==>
          && j in store.jobs && store.jobs[j].current == run.outcome.next && store.jobs[j].status == Running
          && store.jobs[j].retryCount == 0 && store.jobs[j].transitionCount == job.transitionCount + 1
          && store.jobs[j].history == job.history + run.updates
          && store.messages == old(store.messages) + multiset{j} - multiset{j}
    {
      hide ProcessBody, BodyCalls, Writes.Told;
      TellMessage(config, store.World(), j, run);
      HandleMessage(j, run);
      store.AckJob(j);
      hide ProcessCalls, Apply;
    }

    /** The body of `_process_job`'s try block. */
    method HandleMessage(j: JobId, run: HandlerRun)
      requires Wired()
      modifies store
      ensures store.World() == ProcessBody(config, old(store.World()), j, run)
      ensures store.calls == old(store.calls) + BodyCalls(config, old(store.World()), j, run)
    {
      hide FailHandler, FailCalls, Settle, SettleCalls;
      if j !in store.jobs { return; }
      var job := store.jobs[j];
      if Terminal(job.status) { return; }
      if job.transitionCount + 1 > config.maxTransitions {
        job := job.(status := Failed);
        store.SaveJobState(j, job);
        return;
      }
      job := job.(transitionCount := job.transitionCount + 1);
      assert job == Counted(old(store.jobs)[j]);
      hide Counted, LogHandler, Apply;
      match run
      case NoHandler => HandleFailure(j, job);
      case Ran(updates, outcome) =>
        if !outcome.Raised? { job := job.(history := job.history + updates); }
        RunAndCarryOut(j, job, outcome);
    }

    /** The handler runs and its actions are carried out. */
    method RunAndCarryOut(j: JobId, record: Job, outcome: Outcome)
      requires Wired()
      modifies store
      ensures store.World() == Settle(config, LogHandler(old(store.World()), j), j, record, outcome)
      ensures store.calls == old(store.calls)
              + ([HandlerCall(j)] + SettleCalls(config, LogHandler(old(store.World()), j), j, record, outcome))
    {
      hide Settle, SettleCalls;
      store.RunHandler(j);
      CarryOut(j, record, outcome);
    }
  }

  class WorkerService {
    const store: Store
    const engine: Engine
    const config: Config

    constructor (engine: Engine)
      requires engine.Wired()
      ensures this.store == engine.store && this.config == engine.config && this.engine == engine && Wired()
    {
      this.engine := engine;
      store, config := engine.store, engine.config;
    }

    predicate Wired() { engine.Wired() && engine.store == store && engine.config == config }

    /** `get_next_task` for the task (j, t) that the queue gave out. */
    method MarkPickedUp(worker: WorkerId, j: JobId, t: TaskId)
      requires j in store.jobs
      modifies store
      ensures store.World() == Poll(old(store.World()), worker, j, t)
      ensures j in store.jobs && store.messages == old(store.messages)
      ensures Owns(store.jobs[j], t, worker)
      ensures var job, branch := old(store.jobs)[j], t in old(store.jobs)[j].active;
        store.World() == old(store.World()).(
          jobs := old(store.jobs)[j := if branch then job.(branchWorkers := job.branchWorkers[t := worker])
                                       else job.(pickedUp := true, assignee := Some(worker))],
          watch := old(store.watch) + {if branch then BranchKey(j, t) else JobKey(j)})
        && store.calls == old(store.calls) + [SaveCall(j, store.jobs[j]),
                                              WatchCall(if branch then BranchKey(j, t) else JobKey(j))]
    {
      var job := store.jobs[j];
      if t in job.active {
        job := job.(branchWorkers := job.branchWorkers[t := worker]);
      } else {
        job := job.(pickedUp := true);
        job := job.(assignee := Some(worker));
      }
      store.SaveJobState(j, job);
      store.AddToWatch(if t in job.active then BranchKey(j, t) else JobKey(j));
    }

    /** `_handle_task_failure`. */
    method HandleTaskFailure(j: JobId, record: Job, t: TaskId, code: ErrorCode, retry: Option<WorkerId>)
      requires Wired()
      modifies store
      ensures store.World() == SettleFailure(config, old(store.World()), j, record, t, code, retry)
      ensures store.calls
           == old(store.calls) + SettleFailureCalls(config, old(store.World()), j, record, t, code, retry)
      ensures
        if code == Transient then
          Writes.TaskFailed(config, old(store.World()), store.World(), j, record, Task(t), retry)
        else if code == InvalidInput || code == IntegrityMismatch then
          store.World() == old(store.World()).(jobs := old(store.jobs)[j := record.(status := Failed)])
        else
          store.World() == old(store.World()).(jobs := old(store.jobs)[j := record.(status := Quarantined)],
                                               quarantine := old(store.quarantine) + [j])
    {
      hide Writes.TaskFailed;
      match code
      case Transient => engine.HandleTaskFailure(j, record, Task(t), retry);
      case InvalidInput => store.SaveJobState(j, record.(status := Failed));
      case IntegrityMismatch => store.SaveJobState(j, record.(status := Failed));
      case _ =>
        store.SaveJobState(j, record.(status := Quarantined));
        store.QuarantineJob(j);
    }

    /** The fan-in callback `_update_parallel_results`. */
    method RecordResult(j: JobId, t: TaskId, payload: Data) returns (remaining: nat)
      requires j in store.jobs
      modifies store
      ensures store.World() == Save(old(store.World()), j, RecordBranch(old(store.jobs)[j], t, payload))
      ensures store.calls == old(store.calls) + [SaveCall(j, RecordBranch(old(store.jobs)[j], t, payload))]
      ensures remaining == |RecordBranch(old(store.jobs)[j], t, payload).active|
      ensures j in store.jobs && store.jobs[j].results == old(store.jobs)[j].results[t := payload]
      ensures remaining == |store.jobs[j].active|
      ensures multiset(store.jobs[j].active) == multiset(old(store.jobs)[j].active) - multiset{t}
      ensures remaining > 0 ==>
        store.jobs[j].status == old(store.jobs)[j].status && store.jobs[j].current == old(store.jobs)[j].current
      ensures remaining == 0 && old(store.jobs)[j].target.Some? ==>
        store.jobs[j].status == Running && Some(store.jobs[j].current) == old(store.jobs)[j].target
    {
      Writes.RecordTold(store.jobs[j], t, payload);
      var job := store.jobs[j];
      job := job.(results := job.results[t := payload]);
      job := job.(active := Remove(job.active, t));
      if job.active == [] && job.target.Some? {
        job := job.(status := Running);
        job := job.(current := job.target.value);
      }
      store.SaveJobState(j, job);
      remaining := |job.active|;
    }

    /** The end of `process_task_result`: leave the task by its transition. */
    method FollowTransition(j: JobId, record: Job, next: Option<State>, data: map<string, Data>)
      modifies store
      ensures store.World() == MoveOn(old(store.World()), j, record, next, data, Failed)
      ensures store.calls == old(store.calls) + MoveOnCalls(j, record, next, data)
      ensures store.World() ==
        if next.Some? then
          old(store.World()).(
            jobs := old(store.jobs)[j := record.(current := next.value, status := Running,
                                                 history := record.history + data)],
            messages := old(store.messages) + multiset{j})
        else old(store.World()).(jobs := old(store.jobs)[j := record.(status := Failed)])
    {
      var job := record;
      if next.Some? {
        job := job.(history := job.history + data);
        job := job.(current := next.value);
        job := job.(status := Running);
        store.SaveJobState(j, job);
        store.EnqueueJob(j);
      } else {
        job := job.(status := Failed);
        store.SaveJobState(j, job);
      }
    }

    /** A task cancelled by its worker: the record is saved as cancelled before the
        transition, if there is one, is taken. */
    method LeaveCancelled(j: JobId, record: Job)
      modifies store
      ensures store.World()
          == MoveOn(old(store.World()), j, record, Truthy(record.transitions, "cancelled"), map[], Cancelled)
      ensures store.calls == old(store.calls) + CancelledCalls(j, record, Truthy(record.transitions, "cancelled"))
    {
      var job := record.(status := Cancelled);
      store.SaveJobState(j, job);
      SavedTwice(old(store.World()), j, job, record.(status := Running));
      var next := Truthy(job.transitions, "cancelled");
      if next.Some? {
        SavedTwice(old(store.World()), j, job, record.(current := next.value, status := Running));
        assert record.history + map[] == record.history;
        job := job.(current := next.value);
        job := job.(status := Running);
        store.SaveJobState(j, job);
        store.EnqueueJob(j);
      }
    }

    /** `process_task_result`. The answer says whether the result was accepted. */
    method ProcessTaskResult(r: Report, retry: Option<WorkerId>) returns (accepted: bool)
      requires Wired()
      modifies store
      ensures store.World() == Result(config, old(store.World()), r, retry)
      ensures store.calls == old(store.calls) + ResultCalls(config, old(store.World()), r, retry)
      ensures accepted <==> r.job in old(store.jobs) && Writes.Admits(old(store.jobs)[r.job], r.task, r.worker)
      ensures !accepted ==> store.World() == old(store.World())
      ensures Writes.Heard(config, old(store.World()), store.World(), r, retry)
      // In particular a task's success, or custom status, for which the blueprint has a transition:
      // the worker's data are merged into the history, and the job is queued in the target.
      ensures accepted && old(store.jobs)[r.job].status != WaitingForParallel && r.status.Reported?
              && (r.status.name == "success" ==> r.outputValid) ==>
        var j, job, name := r.job, old(store.jobs)[r.job], r.status.name;
        && j in store.jobs
        && (name in job.transitions && job.transitions[name] != "" ==>
              && store.jobs[j].current == job.transitions[name] && store.jobs[j].status == Running
              && (forall k :: k in r.data ==> k in store.jobs[j].history && store.jobs[j].history[k] == r.data[k])
              && (forall k :: k !in r.data ==> Find(store.jobs[j].history, k) == Find(job.history, k))
              && store.messages == old(store.messages) + multiset{j})
    {
      TellResult(config, store.World(), r, retry);
      hide Result, Writes.Heard, Writes.Admits, Accepts;
      accepted := Answer(r, retry);
    }

    /** The checks, and the half that applies. */
    method Answer(r: Report, retry: Option<WorkerId>) returns (accepted: bool)
      requires Wired()
      modifies store
      ensures store.World() == Result(config, old(store.World()), r, retry)
      ensures store.calls == old(store.calls) + ResultCalls(config, old(store.World()), r, retry)
      ensures accepted <==> r.job in old(store.jobs) && Accepts(old(store.jobs)[r.job], r.task, r.worker)
    {
      hide SettleResult, SettleResultCalls, RecordBranch, BranchResultCalls;
      var j, t := r.job, r.task;
      if j !in store.jobs { return false; }
      var job := store.jobs[j];
      if !Owns(job, t, r.worker) { return false; }
      if r.picked && t !in job.active { job := job.(pickedUp := true); }
      assert job == Seen(old(store.jobs)[j], r);
      if job.status != WaitingForParallel && job.currentTask != NoTask && job.currentTask != Task(t) { return false; }
      if Terminal(job.status) { return false; }
      if job.status == WaitingForParallel {
        AcceptBranchResult(j, t, r.payload);
        return true;
      }
      store.RemoveFromWatch(JobKey(j));
      SettleSingle(job, r, retry);
      accepted := true;
    }

    /** The fan-in half of `process_task_result`. */
    method AcceptBranchResult(j: JobId, t: TaskId, payload: Data)
      requires j in store.jobs
      modifies store
      ensures var recorded := RecordBranch(old(store.jobs)[j], t, payload);
        var saved := Save(Unwatch(old(store.World()), BranchKey(j, t)), j, recorded);
        store.World() == if recorded.active == [] then Enqueue(saved, j) else saved
      ensures store.calls == old(store.calls) + BranchResultCalls(old(store.World()), j, t, payload)
    {
      hide RecordBranch;
      store.RemoveFromWatch(BranchKey(j, t));
      var remaining := RecordResult(j, t, payload);
      if remaining == 0 { store.EnqueueJob(j); }
    }

    /** The single-task half of `process_task_result`. */
    method SettleSingle(job: Job, r: Report, retry: Option<WorkerId>)
      requires Wired()
      modifies store
      ensures store.World() == SettleResult(config, old(store.World()), job, r, retry)
      ensures store.calls == old(store.calls) + SettleResultCalls(config, old(store.World()), job, r, retry)
    {
      hide SettleFailure, MoveOn;
      match Effective(r)
      case Failure(code) => HandleTaskFailure(r.job, job, r.task, code, retry);
      case TaskCancelled => LeaveCancelled(r.job, job);
      case Reported(name) => FollowTransition(r.job, job, Truthy(job.transitions, name), r.data);
    }

    /** `process_worker_event`. */
    method ProcessWorkerEvent(j: JobId, kind: string, payload: map<string, Data>, id: nat)
      modifies store
      ensures store.World() == Event(old(store.World()), j, kind, payload, id)
      // An event without a transition of the waiting job changes nothing; another supersedes the
      // current task and sends the job on, with the event's data.
      ensures
        if j in old(store.jobs) && old(store.jobs)[j].status == WaitingForWorker
           && kind in old(store.jobs)[j].eventTransitions && old(store.jobs)[j].eventTransitions[kind] != ""
        then
          var job := old(store.jobs)[j];
          store.World() == old(store.World()).(
            jobs := old(store.jobs)[j := job.(current := job.eventTransitions[kind], status := Running,
                                              currentTask := Superseded(id), history := job.history + payload)],
            watch := old(store.watch) - {JobKey(j)}, messages := old(store.messages) + multiset{j})
          && store.calls == old(store.calls) + [SaveCall(j, store.jobs[j]), UnwatchCall(JobKey(j)), EnqueueCall(j)]
        else store.World() == old(store.World()) && store.calls == old(store.calls)
    {
      if j !in store.jobs { return; }
      var job := store.jobs[j];
      if job.status != WaitingForWorker { return; }
      var next := Truthy(job.eventTransitions, kind);
      if next.None? { return; }
      job := job.(history := job.history + payload);
      job := job.(currentTask := Superseded(id));
      job := job.(current := next.value);
      job := job.(status := Running);
      store.SaveJobState(j, job);
      store.RemoveFromWatch(JobKey(j));
      store.EnqueueJob(j);
    }
  }

  lemma FailAlone(c: Config, w: World, j: JobId, record: Job)
    requires j !in w.parents && record.retryCount >= c.maxRetries
    ensures FailHandler(c, w, j, record)
         == w.(jobs := w.jobs[j := record.(status := Quarantined)], quarantine := w.quarantine + [j])
  {}

  /** What a message does, for those who look at the store only. */
  lemma TellMessage(c: Config, w: World, j: JobId, run: HandlerRun)
    ensures var w' := Process(c, w, j, run);
      && Writes.Told(c, w, w', j, run)
      && (Writes.Works(c, w, j) && run.Ran? && run.outcome.GoTo? ==>
            && j in w'.jobs && w'.jobs[j].current == run.outcome.next && w'.jobs[j].status == Running
            && w'.jobs[j].retryCount == 0 && w'.jobs[j].transitionCount == w.jobs[j].transitionCount + 1
            && w'.jobs[j].history == w.jobs[j].history + run.updates
            && w'.messages == w.messages + multiset{j} - multiset{j})
  {
    hide Process, Writes.Told;
    Writes.ProcessTold(c, w, j, run);
    if Writes.Works(c, w, j) && run.Ran? && run.outcome.GoTo? {
      Writes.GoToWrites(c, w, j, run.updates, run.outcome.next);
    }
  }

  /** What a result does, for those who look at the store only. */
  lemma TellResult(c: Config, w: World, r: Report, retry: Option<WorkerId>)
    ensures var w' := Result(c, w, r, retry);
      && Writes.Heard(c, w, w', r, retry)
      && (r.job in w.jobs ==> (Accepts(w.jobs[r.job], r.task, r.worker)
                               <==> Writes.Admits(w.jobs[r.job], r.task, r.worker)))
      && (r.job !in w.jobs || !Writes.Admits(w.jobs[r.job], r.task, r.worker) ==> w' == w)
      && (Writes.Takes(w, r) && r.status.Reported? && (r.status.name == "success" ==> r.outputValid) ==>
            var j, job, name := r.job, w.jobs[r.job], r.status.name;
            && j in w'.jobs
            && (name in job.transitions && job.transitions[name] != "" ==>
                  && w'.jobs[j].current == job.transitions[name] && w'.jobs[j].status == Running
                  && w'.jobs[j].history == job.history + r.data && w'.messages == w.messages + multiset{j}))
  {
    hide Result, Accepts, Writes.Heard, Writes.Admits;
    Writes.AdmittedExactly(c, w, r, retry);
    Writes.ResultTold(c, w, r, retry);
    if Writes.Takes(w, r) && r.status.Reported? && !Writes.Broken(r) { Writes.ReportWrites(c, w, r, retry); }
  }

  lemma SavedTwice(w: World, j: JobId, first: Job, second: Job)
    ensures Save(Save(w, j, first), j, second) == Save(w, j, second)
  {
    assert w.jobs[j := first][j := second] == w.jobs[j := second];
  }

  /** All actors over one store. Each action is carried out by its actor's method, so the
      invariants of the runs are invariants of the objects. */
  class Orchestrator {
    const store: Store
    const config: Config
    const engine: Engine
    const executor: JobExecutor
    const workers: WorkerService

    constructor (config: Config)
      ensures Wired() && fresh(store) && this.config == config && store.World() == EMPTY
    {
      this.config := config;
      var store := new Store();
      var engine := new Engine(store, config);
      this.store, this.engine := store, engine;
      executor := new JobExecutor(engine);
      workers := new WorkerService(engine);
    }

    predicate Wired() {
      && engine.Wired() && engine.store == store && engine.config == config
      && executor.Wired() && executor.store == store && executor.config == config
      && workers.Wired() && workers.store == store && workers.config == config
    }

    method Perform(a: Action)
      requires Wired() && Enabled(store.World(), a)
      modifies store
      ensures store.World() == Step(config, old(store.World()), a)
      ensures old(NoLoss.Inv(store.World())) && NoLoss.SoundAction(a) ==> NoLoss.Inv(store.World())
      ensures old(Ids.IdInv(store.World())) ==> Ids.IdInv(store.World())
    {
      ghost var before := store.World();
      Execute(a);
      hide Step, NoLoss.Inv, Ids.IdInv;
      if NoLoss.Inv(before) && NoLoss.SoundAction(a) { NoLoss.StepKeeps(config, before, a); }
      if Ids.IdInv(before) { Ids.StepIds(config, before, a); }
    }

    method Execute(a: Action)
      requires Wired() && Enabled(store.World(), a)
      modifies store
      ensures store.World() == Step(config, old(store.World()), a)
    {
      hide CreateJob, Process, Poll, Result, Event, Fire, Cancel, Approve;
      match a {
        case ACreate(start, watched) => var _ := engine.CreateBackgroundJob(start, watched, None);
        case AProcess(j, run) => executor.ProcessJob(j, run);
        case APoll(worker, j, t) => workers.MarkPickedUp(worker, j, t);
        case AResult(r, retry) => var _ := workers.ProcessTaskResult(r, retry);
        case AEvent(j, kind, payload, id) => workers.ProcessWorkerEvent(j, kind, payload, id);
        case AFire(k, retry) => engine.HandlePopped(k, retry);
        case ACancel(j) => var _ := engine.CancelJob(j);
        case AApprove(j, decision) => var _ := engine.ApproveJob(j, decision);
      }
    }
  }
}
