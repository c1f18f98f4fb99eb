/** The job lifecycle: every actor of the orchestrator reads and writes one store.
    This module gives the store as a value and each actor's step as a function
    from store to store; module Orchestrator carries out the same steps on
    mutable fields, one storage call at a time.

    Identifiers that the program draws from uuid4 are drawn from counters, so
    "fresh" is provable. Time is abstracted: any watch entry may fire at any
    moment, which covers every clock. */
module Lifecycle {
  import opened Basics

  type JobId = nat
  type TaskId = nat
  type WorkerId = nat
  type State = string
  type Data = string

  datatype Config = Config(maxTransitions: nat, maxRetries: nat)

  datatype Status =
    | Pending | Running | AwaitingRetry
    | WaitingForWorker | WaitingForParallel | WaitingForHuman | WaitingForSubJob
    | Cancelled | Finished | Failed | Error | Quarantined

  /** `TERMINAL_STATES`; note that Cancelled is not one of them. */
  predicate Terminal(s: Status) {
    s == Finished || s == Failed || s == Error || s == Quarantined
  }

  /** `current_task_id`: nothing yet, a task id, or the marker an event leaves behind. */
  datatype TaskRef = NoTask | Task(id: TaskId) | Superseded(event: nat)

  /** What a handler asks a worker to do. Only branch tasks carry their id. */
  datatype TaskInfo = TaskInfo(
    kind: string,
    taskId: Option<TaskId>,
    transitions: map<string, State>,
    eventTransitions: map<string, State>)

  datatype Job = Job(
    status: Status,
    current: State,
    transitionCount: nat,
    retryCount: nat,
    currentTask: TaskRef,
    assignee: Option<WorkerId>,
    pickedUp: bool,
    taskInfo: Option<TaskInfo>,
    transitions: map<string, State>,
    eventTransitions: map<string, State>,
    active: seq<TaskId>,
    target: Option<State>,
    results: map<TaskId, Data>,
    branchInfo: map<TaskId, TaskInfo>,
    branchWorkers: map<TaskId, WorkerId>,
    branchRetries: map<TaskId, nat>,
    history: map<string, Data>,
    child: Option<JobId>)

  datatype WatchKey = JobKey(job: JobId) | BranchKey(job: JobId, task: TaskId)

  /** History of work done: a handler body ran, or a task was put in a worker's queue. */
  datatype Effect =
    | HandlerRan(job: JobId)
    | TaskEnqueued(worker: WorkerId, job: JobId, task: TaskId, branch: bool)

  /** A single task, not a branch, was put in a queue. */
  predicate Single(e: Effect) { e.TaskEnqueued? && !e.branch }

  /** `messages` counts, per job, the stream entries not yet acknowledged
      (queued or delivered): module JobStream shows that a Redis stream with
      unique entry ids has exactly this abstraction. `parents` holds each job's
      `parent_job_id`, which is written once, at creation. */
  datatype World = World(
    jobs: map<JobId, Job>,
    parents: map<JobId, JobId>,
    messages: multiset<JobId>,
    watch: set<WatchKey>,
    quarantine: seq<JobId>,
    nextJob: JobId,
    nextTask: TaskId,
    log: seq<Effect>)

  const EMPTY := World(map[], map[], multiset{}, {}, [], 0, 0, [])

  // ---------------------------------------------------------------- storage calls

  function Save(w: World, j: JobId, job: Job): World { w.(jobs := w.jobs[j := job]) }

  function Enqueue(w: World, j: JobId): World { w.(messages := w.messages + multiset{j}) }

  function Ack(w: World, j: JobId): World { w.(messages := w.messages - multiset{j}) }

  function Watch(w: World, k: WatchKey): World { w.(watch := w.watch + {k}) }

  function Unwatch(w: World, k: WatchKey): World { w.(watch := w.watch - {k}) }

  function Quarantine(w: World, j: JobId): World { w.(quarantine := w.quarantine + [j]) }

  /** Putting a task in a worker's queue; without a given id a new one is drawn. */
  function Push(w: World, worker: WorkerId, j: JobId, given: Option<TaskId>): World {
    w.(log := w.log + [TaskEnqueued(worker, j, PushedId(w, given), given.Some?)],
       nextTask := if given.Some? then w.nextTask else w.nextTask + 1)
  }

  function PushedId(w: World, given: Option<TaskId>): TaskId {
    if given.Some? then given.value else w.nextTask
  }

  // ---------------------------------------------------------------- dispatching

  /** `_update_dispatch_state`: the atomic update of the stored job. */
  function MarkDispatched(job: Job, info: TaskInfo, t: TaskId, worker: WorkerId): Job {
    if t in job.active
    then job.(branchWorkers := job.branchWorkers[t := worker],
              branchInfo := job.branchInfo[t := info],
              currentTask := Task(t))
    else job.(assignee := Some(worker), taskInfo := Some(info), currentTask := Task(t))
  }

  function KeyFor(job: Job, j: JobId, t: TaskId): WatchKey {
    if t in job.active then BranchKey(j, t) else JobKey(j)
  }

  /** `Dispatcher.dispatch` once a worker has been selected. */
  function Dispatch(w: World, j: JobId, info: TaskInfo, worker: WorkerId): World
    requires j in w.jobs
  {
    var t := PushedId(w, info.taskId);
    var job := w.jobs[j];
    Watch(Save(Push(w, worker, j, info.taskId), j, MarkDispatched(job, info, t, worker)), KeyFor(job, j, t))
  }

  // ---------------------------------------------------------------- failures and ends

  /** `_check_and_resume_parent`: does not look at the parent's status. */
  function ResumedParent(p: Job, childEnd: State): Job {
    var outcome := if childEnd == "finished" then "success" else "failure";
    p.(current := if outcome in p.transitions then p.transitions[outcome] else "failed",
       status := Running,
       history := p.history["sub_job_result" := outcome])
  }

  function ResumeParent(w: World, j: JobId, end: State): World {
    if j !in w.parents || w.parents[j] !in w.jobs then w
    else
      var p := w.parents[j];
      Enqueue(Save(w, p, ResumedParent(w.jobs[p], end)), p)
  }

  /** `_handle_terminal_reached`: the parent is resumed before and after the save. */
  function ReachEnd(w: World, j: JobId, job: Job, status: Status, outputValid: bool): World {
    var ended := job.(status := if status == Finished && !outputValid then Failed else status);
    ResumeParent(Save(ResumeParent(w, j, job.current), j, ended), j, job.current)
  }

  /** `_handle_failure`: an in-handler failure retries the handler or quarantines the job. */
  function FailHandler(c: Config, w: World, j: JobId, job: Job): World {
    if job.retryCount < c.maxRetries
    then Enqueue(Save(w, j, job.(retryCount := job.retryCount + 1, status := AwaitingRetry)), j)
    else ResumeParent(Quarantine(ReachEnd(w, j, job, Quarantined, true), j), j, job.current)
  }

  function RetriesOf(job: Job, t: TaskId): nat {
    if t in job.branchRetries then job.branchRetries[t] else 0
  }

  /** Watch and save, then try to dispatch: `worker` is the dispatcher's choice, None when it raised. */
  function Redispatch(w: World, k: WatchKey, j: JobId, job: Job, info: TaskInfo, worker: Option<WorkerId>): World {
    var saved := Save(Watch(w, k), j, job);
    if worker.Some? then Dispatch(saved, j, info, worker.value) else saved
  }

  function GiveUp(w: World, j: JobId, job: Job): World {
    Quarantine(Save(w, j, job.(status := Quarantined)), j)
  }

  function RetriedBranch(job: Job, t: TaskId): Job {
    job.(branchRetries := job.branchRetries[t := RetriesOf(job, t) + 1], status := WaitingForParallel)
  }

  function FailBranch(c: Config, w: World, j: JobId, job: Job, t: TaskId, worker: Option<WorkerId>): World {
    if RetriesOf(job, t) >= c.maxRetries then GiveUp(w, j, job)
    else if t !in job.branchInfo then w
    else Redispatch(w, BranchKey(j, t), j, RetriedBranch(job, t), job.branchInfo[t], worker)
  }

  function RetriedSingle(job: Job): Job {
    job.(retryCount := job.retryCount + 1, status := WaitingForWorker)
  }

  function FailSingle(c: Config, w: World, j: JobId, job: Job, worker: Option<WorkerId>): World {
    if job.retryCount >= c.maxRetries then GiveUp(w, j, job)
    else if job.taskInfo.None? then Save(w, j, job.(retryCount := job.retryCount + 1, status := Failed))
    else Redispatch(w, JobKey(j), j, RetriedSingle(job), job.taskInfo.value, worker)
  }

  predicate IsBranch(job: Job, t: TaskRef) { t.Task? && t.id in job.active }

  /** `OrchestratorEngine.handle_task_failure`: a transient task failure. */
  function FailTask(c: Config, w: World, j: JobId, job: Job, t: TaskRef, worker: Option<WorkerId>): World {
    if Terminal(job.status) then w
    else if IsBranch(job, t) then FailBranch(c, w, j, job, t.id, worker)
    else FailSingle(c, w, j, job, worker)
  }

  // ---------------------------------------------------------------- executor

  /** What the handler of the current state did (the environment's choice). In a fan-out,
      `workers` lists the dispatcher's choices for the leading tasks: a list shorter than
      `tasks` means that the next branch dispatch raised. */
  datatype Outcome =
    | Raised
    | GoTo(next: State)
    | DispatchTask(info: TaskInfo, worker: Option<WorkerId>)
    | AwaitHuman(transitions: map<string, State>)
    | FanOut(tasks: seq<TaskInfo>, into: State, workers: seq<WorkerId>)
    | RunBlueprint(transitions: map<string, State>, start: State, watched: bool, created: bool)
    | NoAction(isEnd: bool, outputValid: bool)

  /** NoHandler: the blueprint or a suitable handler was not found. */
  datatype HandlerRun = NoHandler | Ran(updates: map<string, Data>, outcome: Outcome)

  /** The handler chose an action unless it stands in an end state. */
  predicate Acts(run: HandlerRun) { run.Ran? && run.outcome.NoAction? ==> run.outcome.isEnd }

  function BranchTask(info: TaskInfo, t: TaskId): TaskInfo { info.(taskId := Some(t)) }

  function FreshIds(first: TaskId, n: nat): (ids: seq<TaskId>)
    ensures |ids| == n && forall i :: 0 <= i < n ==> ids[i] == first + i
  {
    seq(n, i requires 0 <= i < n => first + i)
  }

  function FanOutJob(job: Job, into: State, ids: seq<TaskId>): Job {
    job.(status := WaitingForParallel, current := into, target := Some(into), active := ids,
         results := map[], branchInfo := map[])
  }

  /** Dispatch of the first `n` branches. */
  function DispatchBranches(w: World, j: JobId, tasks: seq<TaskInfo>, ids: seq<TaskId>,
                            workers: seq<WorkerId>, n: nat): (r: World)
    requires j in w.jobs && n <= |tasks| == |ids| && n <= |workers|
    ensures j in r.jobs
  {
    if n == 0 then w
    else
      Dispatch(DispatchBranches(w, j, tasks, ids, workers, n - 1), j,
               BranchTask(tasks[n - 1], ids[n - 1]), workers[n - 1])
  }

  function StartFanOut(w: World, j: JobId, job: Job, into: State, n: nat): World {
    Save(w.(nextTask := w.nextTask + n), j, FanOutJob(job, into, FreshIds(w.nextTask, n)))
  }

  /** `_handle_parallel_dispatch`. */
  function FanOutStep(c: Config, w: World, j: JobId, job: Job, tasks: seq<TaskInfo>, into: State,
                      workers: seq<WorkerId>): World {
    var ids := FreshIds(w.nextTask, |tasks|);
    var started := StartFanOut(w, j, job, into, |tasks|);
    if |workers| < |tasks| then
      var n := |workers|;
      var done := DispatchBranches(started, j, tasks, ids, workers, n);
      var held := done.jobs[j];
      FailHandler(c, done, j, held.(branchInfo := held.branchInfo[ids[n] := BranchTask(tasks[n], ids[n])]))
    else
      DispatchBranches(started, j, tasks, ids, workers, |tasks|)
  }

  function NewJob(start: State): Job {
    Job(Pending, start, 0, 0, NoTask, None, false, None, map[], map[], [], None, map[], map[], map[],
        map[], map[], None)
  }

  /** A job id is drawn and the parent, if any, noted. */
  function DrawJob(w: World, parent: Option<JobId>): World {
    w.(nextJob := w.nextJob + 1,
       parents := if parent.Some? then w.parents[w.nextJob := parent.value] else w.parents)
  }

  /** `create_background_job`. */
  function CreateJob(w: World, start: State, watched: bool, parent: Option<JobId>): World {
    var j := w.nextJob;
    var saved := Save(DrawJob(w, parent), j, NewJob(start));
    Enqueue(if watched then Watch(saved, JobKey(j)) else saved, j)
  }

  function TaskJob(job: Job, info: TaskInfo): Job {
    job.(status := WaitingForWorker, taskInfo := Some(info), transitions := info.transitions,
         eventTransitions := info.eventTransitions)
  }

  /** The part of `_process_job` that follows the handler. */
  function Settle(c: Config, w: World, j: JobId, job: Job, outcome: Outcome): World {
    match outcome
    case Raised => FailHandler(c, w, j, job)
    case GoTo(next) =>
      Enqueue(Save(w, j, job.(retryCount := 0, current := next, status := Running)), j)
    case DispatchTask(info, worker) =>
      var waiting := Watch(Save(w, j, TaskJob(job, info)), JobKey(j));
      if worker.Some? then Dispatch(waiting, j, info, worker.value)
      else FailHandler(c, waiting, j, TaskJob(job, info))
    case AwaitHuman(transitions) =>
      Save(w, j, job.(status := WaitingForHuman, transitions := transitions))
    case FanOut(tasks, into, workers) => FanOutStep(c, w, j, job, tasks, into, workers)
    case RunBlueprint(transitions, start, watched, created) =>
      if created
      then Save(CreateJob(w, start, watched, Some(j)), j,
                job.(status := WaitingForSubJob, child := Some(w.nextJob), transitions := transitions))
      else FailHandler(c, w, j, job)
    case NoAction(isEnd, outputValid) =>
      if isEnd
      then ReachEnd(w, j, job, if job.current == "finished" then Finished else Failed, outputValid)
      else w
  }

  function Counted(job: Job): Job { job.(transitionCount := job.transitionCount + 1) }

  function LogHandler(w: World, j: JobId): World { w.(log := w.log + [HandlerRan(j)]) }

  /** `_process_job` up to, and without, its acknowledgement. */
  function ProcessBody(c: Config, w: World, j: JobId, run: HandlerRun): World {
    if j !in w.jobs || Terminal(w.jobs[j].status) then w
    else
      var job := w.jobs[j];
      if job.transitionCount + 1 > c.maxTransitions then Save(w, j, job.(status := Failed))
      else
        match run
        case NoHandler => FailHandler(c, w, j, Counted(job))
        case Ran(updates, outcome) =>
          var job1 := if outcome.Raised? then Counted(job)
                      else Counted(job).(history := job.history + updates);
          Settle(c, LogHandler(w, j), j, job1, outcome)
  }

  /** One delivered message, handled and acknowledged. */
  function Process(c: Config, w: World, j: JobId, run: HandlerRun): World {
    Ack(ProcessBody(c, w, j, run), j)
  }

  // ---------------------------------------------------------------- workers

  datatype ErrorCode = Transient | Permanent | Security | Dependency | ContractViolation | InvalidInput
                     | IntegrityMismatch

  datatype TaskStatus = Failure(code: ErrorCode) | TaskCancelled | Reported(name: string)

  /** A task result. `name` of Reported is "success" or a custom status; `outputValid` is the
      verdict of the skill's output schema; `picked` says that the payload carries picked_up_at. */
  datatype Report = Report(worker: WorkerId, job: JobId, task: TaskId, status: TaskStatus,
                           data: map<string, Data>, payload: Data, picked: bool, outputValid: bool)

  /** `_mark_picked_up`. */
  function PickedUp(job: Job, t: TaskId, worker: WorkerId): Job {
    if t in job.active then job.(branchWorkers := job.branchWorkers[t := worker])
    else job.(pickedUp := true, assignee := Some(worker))
  }

  /** `get_next_task` for a dequeued task. */
  function Poll(w: World, worker: WorkerId, j: JobId, t: TaskId): World
    requires j in w.jobs
  {
    Watch(Save(w, j, PickedUp(w.jobs[j], t, worker)), KeyFor(w.jobs[j], j, t))
  }

  /** `_verify_job_ownership_robust`. */
  predicate Owns(job: Job, t: TaskId, worker: WorkerId) {
    var owner := if t in job.active then Find(job.branchWorkers, t) else job.assignee;
    owner.None? || owner.value == worker
  }

  predicate Stale(job: Job, t: TaskId) {
    job.status != WaitingForParallel && job.currentTask != NoTask && job.currentTask != Task(t)
  }

  /** The result passes the ownership, staleness and terminal checks. */
  predicate Accepts(job: Job, t: TaskId, worker: WorkerId) {
    Owns(job, t, worker) && !Stale(job, t) && !Terminal(job.status)
  }

  /** `list.remove`: the first occurrence goes. */
  function Remove(s: seq<TaskId>, t: TaskId): (r: seq<TaskId>)
    ensures forall x :: x in r ==> x in s
    ensures forall x :: x in s && x != t ==> x in r
  {
    if s == [] then [] else if s[0] == t then s[1..] else [s[0]] + Remove(s[1..], t)
  }

  /** `_update_parallel_results`, without the security and metadata fields. */
  function RecordBranch(job: Job, t: TaskId, payload: Data): Job {
    var rest := Remove(job.active, t);
    var recorded := job.(results := job.results[t := payload], active := rest);
    if rest == [] && job.target.Some? then recorded.(status := Running, current := job.target.value)
    else recorded
  }

  function Effective(r: Report): TaskStatus {
    if r.status == Reported("success") && !r.outputValid then Failure(ContractViolation) else r.status
  }

  function SettleFailure(c: Config, w: World, j: JobId, job: Job, t: TaskId, code: ErrorCode,
                         worker: Option<WorkerId>): World {
    match code
    case Transient => FailTask(c, w, j, job, Task(t), worker)
    case InvalidInput => Save(w, j, job.(status := Failed))
    case IntegrityMismatch => Save(w, j, job.(status := Failed))
    case _ => Quarantine(Save(w, j, job.(status := Quarantined)), j)
  }

  /** Follow the blueprint's transition if there is one. */
  function MoveOn(w: World, j: JobId, job: Job, next: Option<State>, data: map<string, Data>,
                  otherwise: Status): World {
    if next.Some?
    then Enqueue(Save(w, j, job.(history := job.history + data, current := next.value, status := Running)), j)
    else Save(w, j, job.(status := otherwise))
  }

  /** The single-task half of `process_task_result`, after the watch entry was removed. */
  function SettleResult(c: Config, w: World, job: Job, r: Report, retry: Option<WorkerId>): World {
    var j := r.job;
    match Effective(r)
    case Failure(code) => SettleFailure(c, w, j, job, r.task, code, retry)
    case TaskCancelled => MoveOn(w, j, job, Truthy(job.transitions, "cancelled"), map[], Cancelled)
    case Reported(name) => MoveOn(w, j, job, Truthy(job.transitions, name), r.data, Failed)
  }

  /** `process_task_result`; `retry` is the dispatcher's choice should the task be retried. */
  function Result(c: Config, w: World, r: Report, retry: Option<WorkerId>): World {
    var j, t := r.job, r.task;
    if j !in w.jobs || !Accepts(w.jobs[j], t, r.worker) then w
    else if w.jobs[j].status == WaitingForParallel then
      var recorded := RecordBranch(w.jobs[j], t, r.payload);
      var saved := Save(Unwatch(w, BranchKey(j, t)), j, recorded);
      if recorded.active == [] then Enqueue(saved, j) else saved
    else
      var job := w.jobs[j];
      var seen := if r.picked && t !in job.active then job.(pickedUp := true) else job;
      SettleResult(c, Unwatch(w, JobKey(j)), seen, r, retry)
  }

  /** The transition half of `process_worker_event`. */
  function Event(w: World, j: JobId, kind: string, payload: map<string, Data>, id: nat): World {
    if j !in w.jobs || w.jobs[j].status != WaitingForWorker then w
    else
      var job := w.jobs[j];
      var next := Truthy(job.eventTransitions, kind);
      if next.None? then w
      else
        Enqueue(Unwatch(Save(w, j, job.(history := job.history + payload, currentTask := Superseded(id),
                                        current := next.value, status := Running)), JobKey(j)), j)
  }

  // ---------------------------------------------------------------- watcher, cancel, approval

  /** `handle_job_timeout`. */
  function TimeOut(c: Config, w: World, j: JobId, job: Job, worker: Option<WorkerId>): World {
    if Terminal(job.status) then w
    else if job.pickedUp then FailTask(c, w, j, job, job.currentTask, worker)
    else Save(w, j, job.(status := Failed))
  }

  /** The watcher pops one entry and handles it. */
  function Fire(c: Config, w: World, k: WatchKey, worker: Option<WorkerId>): World {
    var popped := Unwatch(w, k);
    if k.job !in w.jobs then popped
    else match k
      case BranchKey(j, t) => FailTask(c, popped, j, w.jobs[j], Task(t), worker)
      case JobKey(j) => TimeOut(c, popped, j, w.jobs[j], worker)
  }

  /** `cancel_job`. */
  function Cancel(w: World, j: JobId): World {
    if j !in w.jobs || Terminal(w.jobs[j].status) then w
    else Save(w, j, w.jobs[j].(status := Cancelled))
  }

  /** `human_approval_webhook_handler`. */
  function Approve(w: World, j: JobId, decision: string): World {
    if j !in w.jobs || (w.jobs[j].status != WaitingForWorker && w.jobs[j].status != WaitingForHuman) then w
    else
      var next := Truthy(w.jobs[j].transitions, decision);
      if decision == "" || next.None? then w
      else Enqueue(Save(w, j, w.jobs[j].(current := next.value, status := Running)), j)
  }

  // ---------------------------------------------------------------- runs

  datatype Action =
    | ACreate(start: State, watched: bool)
    | AProcess(job: JobId, run: HandlerRun)
    | APoll(worker: WorkerId, job: JobId, task: TaskId)
    | AResult(report: Report, retry: Option<WorkerId>)
    | AEvent(job: JobId, kind: string, payload: map<string, Data>, id: nat)
    | AFire(key: WatchKey, retry: Option<WorkerId>)
    | ACancel(job: JobId)
    | AApprove(job: JobId, decision: string)

  /** A message is handled only while unacknowledged, a watch entry fires only while present,
      a task is polled only for a stored job, and blueprints do not choose task ids. */
  predicate Enabled(w: World, a: Action) {
    match a
    case AProcess(j, run) => j in w.messages && PlainTasks(run)
    case APoll(_, j, _) => j in w.jobs
    case AFire(k, _) => k in w.watch
    case _ => true
  }

  predicate PlainTasks(run: HandlerRun) {
    run.Ran? && run.outcome.DispatchTask? ==> run.outcome.info.taskId.None?
  }

  function Step(c: Config, w: World, a: Action): World
    requires Enabled(w, a)
  {
    match a
    case ACreate(start, watched) => CreateJob(w, start, watched, None)
    case AProcess(j, run) => Process(c, w, j, run)
    case APoll(worker, j, t) => Poll(w, worker, j, t)
    case AResult(r, retry) => Result(c, w, r, retry)
    case AEvent(j, kind, payload, id) => Event(w, j, kind, payload, id)
    case AFire(k, retry) => Fire(c, w, k, retry)
    case ACancel(j) => Cancel(w, j)
    case AApprove(j, decision) => Approve(w, j, decision)
  }

  /** The job a step is about. */
  function Subject(w: World, a: Action): JobId {
    match a
    case ACreate(_, _) => w.nextJob
    case AProcess(j, _) => j
    case APoll(_, j, _) => j
    case AResult(r, _) => r.job
    case AEvent(j, _, _, _) => j
    case AFire(k, _) => k.job
    case ACancel(j) => j
    case AApprove(j, _) => j
  }

  /** `run` is a sequence of worlds, each reached from the one before by the matching action. */
  ghost predicate IsRun(c: Config, run: seq<World>, acts: seq<Action>) {
    && |run| == |acts| + 1
    && forall i :: 0 <= i < |acts| ==> Enabled(run[i], acts[i]) && run[i + 1] == Step(c, run[i], acts[i])
  }

  lemma RunLength(c: Config, run: seq<World>, acts: seq<Action>)
    requires IsRun(c, run, acts)
    ensures |run| == |acts| + 1
  {}

  lemma RunStep(c: Config, run: seq<World>, acts: seq<Action>, i: nat)
    requires IsRun(c, run, acts) && i < |acts|
    ensures Enabled(run[i], acts[i]) && run[i + 1] == Step(c, run[i], acts[i])
  {}
}
