/** Concurrent fan-in. The results of a fan-out's branches arrive in any order, and the three
    steps that handle each (read and check the job, record the result atomically, queue the
    job if that result was the last) interleave freely with those of the others and with
    atomic updates that leave the fan-in's fields alone, such as a worker picking a branch
    up. A save of a whole record that was read earlier is such an update if and only if no
    result was recorded in between. */
module FanIn {
  import opened Basics
  import opened Lifecycle

  /** How far the handling of one result has come; `last` says that it saw no branch left. */
  datatype Phase = Unread | Checked | Recorded(last: bool) | Finished(last: bool)

  /** Result i is for branch `ids[i]`. `closer` observes which result emptied the branches. */
  datatype System = System(job: Job, phases: seq<Phase>, enqueued: nat, closer: Option<nat>)

  datatype Delivery = Delivery(branch: TaskId, worker: WorkerId, payload: Data)

  datatype Event = Check(i: nat) | Record(i: nat) | Finish(i: nat) | Touch(job: Job)

  /** An update of another actor, made atomically, which minds its own fields. */
  predicate Minds(a: Job, b: Job) {
    b.status == a.status && b.current == a.current && b.target == a.target && b.active == a.active
        && b.results == a.results
  }

  /** The read sees a job that awaits branches and whose branch belongs to the sender. */
  predicate Enabled(ds: seq<Delivery>, s: System, e: Event) {
    |s.phases| == |ds| &&
    match e
    case Check(i) =>
      i < |ds| && s.phases[i] == Unread && s.job.status == WaitingForParallel
      && Accepts(s.job, ds[i].branch, ds[i].worker)
    case Record(i) => i < |ds| && s.phases[i] == Checked
    case Finish(i) => i < |ds| && s.phases[i].Recorded?
    case Touch(job) => Minds(s.job, job)
  }

  function Next(ds: seq<Delivery>, s: System, e: Event): System
    requires Enabled(ds, s, e)
  {
    match e
    case Check(i) => s.(phases := s.phases[i := Checked])
    case Record(i) =>
      var job := RecordBranch(s.job, ds[i].branch, ds[i].payload);
      var last := job.active == [];
      s.(job := job, phases := s.phases[i := Recorded(last)], closer := if last then Some(i) else s.closer)
    case Finish(i) =>
      var last := s.phases[i].last;
      s.(phases := s.phases[i := Phase.Finished(last)], enqueued := s.enqueued + if last then 1 else 0)
    case Touch(job) => s.(job := job)
  }

  predicate Settled(p: Phase) { p.Recorded? || p.Finished? }

  /** The branches, in the order issued, whose result is not recorded. */
  function Left(ds: seq<Delivery>, phases: seq<Phase>): seq<TaskId>
    requires |ds| == |phases|
  {
    if |ds| == 0 then []
    else (if Settled(phases[0]) then [] else [ds[0].branch]) + Left(ds[1..], phases[1..])
  }

  predicate OnePerBranch(ds: seq<Delivery>) {
    forall i, k :: 0 <= i < k < |ds| ==> ds[i].branch != ds[k].branch
  }

  /** Exactly the recorded results are in the map, each under its branch. */
  ghost predicate Collected(ds: seq<Delivery>, phases: seq<Phase>, results: map<TaskId, Data>)
    requires |ds| == |phases|
  {
    && (forall t :: t in results ==> exists i :: 0 <= i < |ds| && Settled(phases[i]) && ds[i].branch == t)
    && (forall i :: 0 <= i < |ds| && Settled(phases[i]) ==>
        ds[i].branch in results && results[ds[i].branch] == ds[i].payload)
  }

  /** What is true between any two steps. */
  ghost predicate Inv(ds: seq<Delivery>, into: State, s: System) {
    && |s.phases| == |ds| && s.job.target == Some(into)
    && s.job.active == Left(ds, s.phases)
    && Collected(ds, s.phases, s.job.results)
    && (if s.job.active == [] then s.job.status == Running && s.job.current == into
        else s.job.status == WaitingForParallel)
    && (s.closer.Some? <==> s.job.active == [])
    && (s.closer.Some? ==> s.closer.value < |ds| && Settled(s.phases[s.closer.value]))
    && (forall i :: 0 <= i < |ds| && Settled(s.phases[i]) ==> (s.phases[i].last <==> s.closer == Some(i)))
    && s.enqueued == if s.closer.Some? && s.phases[s.closer.value].Finished? then 1 else 0
  }

  // ---------------------------------------------------------------- the branches left

  predicate Waits(ds: seq<Delivery>, phases: seq<Phase>, i: nat, t: TaskId)
    requires |ds| == |phases|
  {
    i < |ds| && !Settled(phases[i]) && ds[i].branch == t
  }

  lemma {:induction false} LeftHas(ds: seq<Delivery>, phases: seq<Phase>, t: TaskId)
    requires |ds| == |phases|
    ensures t in Left(ds, phases) <==> exists i: nat :: Waits(ds, phases, i, t)
  {
    if |ds| == 0 {
      assert forall i: nat :: !Waits(ds, phases, i, t);
    } else {
      var ds', phases' := ds[1..], phases[1..];
      LeftHas(ds', phases', t);
      assert forall i: nat :: Waits(ds', phases', i, t) ==> Waits(ds, phases, i + 1, t);
      if i: nat :| Waits(ds, phases, i, t) {
        assert i > 0 ==> Waits(ds', phases', i - 1, t);
      } else {
        assert forall i: nat :: !Waits(ds', phases', i, t);
        assert !Waits(ds, phases, 0, t);
      }
    }
  }

  /** Recording a result strikes out its branch and leaves the others in order. */
  lemma {:induction false} RecordStrikes(ds: seq<Delivery>, phases: seq<Phase>, i: nat, last: bool)
    requires |ds| == |phases| && i < |ds| && OnePerBranch(ds) && !Settled(phases[i])
    ensures Left(ds, phases[i := Recorded(last)]) == Remove(Left(ds, phases), ds[i].branch)
  {
    var rest := Left(ds[1..], phases[1..]);
    assert ([ds[0].branch] + rest)[1..] == rest && [] + rest == rest;
    if i == 0 {
      assert phases[i := Recorded(last)][1..] == phases[1..];
    } else {
      assert phases[i := Recorded(last)][1..] == phases[1..][i - 1 := Recorded(last)];
      assert OnePerBranch(ds[1..]);
      RecordStrikes(ds[1..], phases[1..], i - 1, last);
      assert ds[0].branch != ds[i].branch;
    }
  }

  lemma {:induction false} SameLeft(ds: seq<Delivery>, phases: seq<Phase>, other: seq<Phase>)
    requires |ds| == |phases| == |other|
    requires forall i :: 0 <= i < |ds| ==> (Settled(phases[i]) <==> Settled(other[i]))
    ensures Left(ds, phases) == Left(ds, other)
  {
    if |ds| > 0 {
      SameLeft(ds[1..], phases[1..], other[1..]);
    }
  }

  // ---------------------------------------------------------------- steps

  lemma RecordKeepsInv(ds: seq<Delivery>, into: State, s: System, i: nat)
    requires OnePerBranch(ds) && Inv(ds, into, s) && Enabled(ds, s, Record(i))
    ensures Inv(ds, into, Next(ds, s, Record(i)))
  {
    var s' := Next(ds, s, Record(i));
    RecordStrikes(ds, s.phases, i, s'.phases[i].last);
    LeftHas(ds, s.phases, ds[i].branch);
    assert Waits(ds, s.phases, i, ds[i].branch);
    assert s.job.active != [];
    RecordCollects(ds, s.phases, i, s'.phases[i].last, s.job.results);
  }

  lemma RecordCollects(ds: seq<Delivery>, phases: seq<Phase>, i: nat, last: bool, results: map<TaskId, Data>)
    requires |ds| == |phases| && i < |ds| && OnePerBranch(ds) && !Settled(phases[i])
    requires Collected(ds, phases, results)
    ensures Collected(ds, phases[i := Recorded(last)], results[ds[i].branch := ds[i].payload])
  {
    var phases' := phases[i := Recorded(last)];
    var results' := results[ds[i].branch := ds[i].payload];
    forall t | t in results'
      ensures exists k :: 0 <= k < |ds| && Settled(phases'[k]) && ds[k].branch == t
    {
      if t == ds[i].branch {
        assert Settled(phases'[i]);
      } else {
        var k :| 0 <= k < |ds| && Settled(phases[k]) && ds[k].branch == t;
        assert Settled(phases'[k]);
      }
    }
  }

  lemma SameCollected(ds: seq<Delivery>, phases: seq<Phase>, other: seq<Phase>, results: map<TaskId, Data>)
    requires |ds| == |phases| == |other| && Collected(ds, phases, results)
    requires forall i :: 0 <= i < |ds| ==> (Settled(phases[i]) <==> Settled(other[i]))
    ensures Collected(ds, other, results)
  {
    forall t | t in results ensures exists i :: 0 <= i < |ds| && Settled(other[i]) && ds[i].branch == t {
      var i :| 0 <= i < |ds| && Settled(phases[i]) && ds[i].branch == t;
      assert Settled(other[i]);
    }
  }

  lemma StepKeepsInv(ds: seq<Delivery>, into: State, s: System, e: Event)
    requires OnePerBranch(ds) && Inv(ds, into, s) && Enabled(ds, s, e)
    ensures Inv(ds, into, Next(ds, s, e))
  {
    hide Left, Collected;
    if e.Record? {
      RecordKeepsInv(ds, into, s, e.i);
    } else {
      var s' := Next(ds, s, e);
      SameLeft(ds, s.phases, s'.phases);
      SameCollected(ds, s.phases, s'.phases, s.job.results);
    }
  }

  // ---------------------------------------------------------------- runs

  /** A fan-out whose branches are exactly those the results are for. */
  predicate Issued(ds: seq<Delivery>, into: State, job: Job) {
    && job.status == WaitingForParallel && job.target == Some(into) && job.results == map[]
    && |job.active| == |ds| && forall i :: 0 <= i < |ds| ==> job.active[i] == ds[i].branch
  }

  function Begin(ds: seq<Delivery>, job: Job): System { System(job, seq(|ds|, i => Unread), 0, None) }

  ghost predicate IsRun(ds: seq<Delivery>, job: Job, run: seq<System>, es: seq<Event>) {
    && |run| == |es| + 1 && run[0] == Begin(ds, job)
    && forall k :: 0 <= k < |es| ==> Enabled(ds, run[k], es[k]) && run[k + 1] == Next(ds, run[k], es[k])
  }

  lemma {:induction false} AllLeft(ds: seq<Delivery>, active: seq<TaskId>)
    requires |active| == |ds| && forall i :: 0 <= i < |ds| ==> active[i] == ds[i].branch
    ensures Left(ds, seq(|ds|, i => Unread)) == active
  {
    if |ds| > 0 {
      AllLeft(ds[1..], active[1..]);
      assert seq(|ds|, i => Unread)[1..] == seq(|ds| - 1, i => Unread);
      assert active == [active[0]] + active[1..];
    }
  }

  /** Nothing is lost on the way: at every moment of every interleaving of results with atomic
      updates that leave the fan-in's fields alone, the issued branches split into those still
      active, in the order issued, and those whose result is recorded; the job waits until the
      last and then stands in the aggregator's state. */
  lemma {:induction false} FanInLosesNothing(ds: seq<Delivery>, into: State, job: Job, run: seq<System>,
                                             es: seq<Event>, n: nat)
    requires OnePerBranch(ds) && ds != [] && Issued(ds, into, job) && IsRun(ds, job, run, es) && n < |run|
    ensures Inv(ds, into, run[n])
  {
    if n == 0 {
      AllLeft(ds, job.active);
    } else {
      FanInLosesNothing(ds, into, job, run, es, n - 1);
      hide Inv, Next;
      StepKeepsInv(ds, into, run[n - 1], es[n - 1]);
    }
  }

  function Gathered(ds: seq<Delivery>): map<TaskId, Data> {
    if |ds| == 0 then map[] else map[ds[0].branch := ds[0].payload] + Gathered(ds[1..])
  }

  ghost predicate Sends(ds: seq<Delivery>, i: nat, t: TaskId) { i < |ds| && ds[i].branch == t }

  lemma {:induction false} GatheredKeys(ds: seq<Delivery>, t: TaskId)
    ensures t in Gathered(ds) <==> exists i: nat :: Sends(ds, i, t)
  {
    if |ds| == 0 {
      assert forall i: nat :: !Sends(ds, i, t);
    } else {
      var rest := ds[1..];
      GatheredKeys(rest, t);
      assert forall i: nat :: Sends(rest, i, t) ==> Sends(ds, i + 1, t);
      if i: nat :| Sends(ds, i, t) {
        assert i > 0 ==> Sends(rest, i - 1, t);
      } else {
        assert forall i: nat :: !Sends(rest, i, t);
        assert !Sends(ds, 0, t);
      }
    }
  }

  lemma {:induction false} GatheredHas(ds: seq<Delivery>, i: nat)
    requires OnePerBranch(ds) && i < |ds|
    ensures ds[i].branch in Gathered(ds) && Gathered(ds)[ds[i].branch] == ds[i].payload
  {
    var rest := ds[1..];
    GatheredKeys(rest, ds[0].branch);
    if i > 0 {
      assert OnePerBranch(rest) && rest[i - 1] == ds[i];
      GatheredHas(rest, i - 1);
    } else {
      assert forall k :: 0 <= k < |rest| ==> rest[k] == ds[k + 1];
      assert forall k: nat :: !Sends(rest, k, ds[0].branch);
    }
  }

  lemma {:induction false} NoneLeft(ds: seq<Delivery>, phases: seq<Phase>)
    requires |ds| == |phases|
    ensures Left(ds, phases) == [] <==> forall i :: 0 <= i < |ds| ==> Settled(phases[i])
  {
    if |ds| > 0 {
      NoneLeft(ds[1..], phases[1..]);
      if forall i :: 0 <= i < |ds| ==> Settled(phases[i]) {
        assert forall i :: 0 <= i < |ds| - 1 ==> Settled(phases[1..][i]);
      }
      if Left(ds, phases) == [] {
        forall i | 0 <= i < |ds| ensures Settled(phases[i]) {
          if i > 0 { assert Settled(phases[1..][i - 1]); }
        }
      }
    }
  }

  ghost predicate Handled(ds: seq<Delivery>, s: System) {
    |s.phases| == |ds| && forall p :: p in s.phases ==> p.Finished?
  }

  predicate Closes(p: Phase) { Settled(p) && p.last }

  /** Handling c saw the last branch go, and no other did. */
  ghost predicate ClosedBy(s: System, c: nat) {
    c < |s.phases| && forall i :: 0 <= i < |s.phases| ==> (Closes(s.phases[i]) <==> i == c)
  }

  /** Order does not matter: once every result is handled, in whatever order the steps were
      made, the results, the status and the state are the same, no branch is left, and
      exactly one of the handlings queued the job. */
  lemma FanInIsOrderIndependent(ds: seq<Delivery>, into: State, job: Job, run: seq<System>, es: seq<Event>, n: nat)
    requires OnePerBranch(ds) && ds != [] && Issued(ds, into, job) && IsRun(ds, job, run, es) && n < |run|
    requires Handled(ds, run[n])
    ensures run[n].job.results == Gathered(ds) && run[n].job.active == []
    ensures run[n].job.status == Running && run[n].job.current == into
    ensures run[n].enqueued == 1
    ensures exists c: nat :: ClosedBy(run[n], c)
  {
    FanInLosesNothing(ds, into, job, run, es, n);
    NoneLeft(ds, run[n].phases);
    var results := run[n].job.results;
    forall t: TaskId ensures t in results <==> t in Gathered(ds) {
      GatheredKeys(ds, t);
      if i: nat :| Sends(ds, i, t) {
        assert Settled(run[n].phases[i]);
      } else if t in results {
        var i :| 0 <= i < |ds| && Settled(run[n].phases[i]) && ds[i].branch == t;
        assert Sends(ds, i, t);
      }
    }
    forall t | t in results ensures results[t] == Gathered(ds)[t] {
      GatheredKeys(ds, t);
      var i: nat :| Sends(ds, i, t);
      GatheredHas(ds, i);
    }
    assert run[n].job.results == Gathered(ds);
    var c := run[n].closer.value;
    assert ClosedBy(run[n], c);
  }

  /** The job is never queued before the last result is recorded, and never twice. */
  lemma QueuedOnceAtTheEnd(ds: seq<Delivery>, into: State, job: Job, run: seq<System>, es: seq<Event>, n: nat)
    requires OnePerBranch(ds) && ds != [] && Issued(ds, into, job) && IsRun(ds, job, run, es) && n < |run|
    ensures run[n].enqueued <= 1
    ensures run[n].enqueued == 1 ==> forall p :: p in run[n].phases ==> Settled(p)
  {
    FanInLosesNothing(ds, into, job, run, es, n);
    NoneLeft(ds, run[n].phases);
  }

  /** Every accepted result can always be brought to its end: no handling waits for another. */
  lemma NeverStuck(ds: seq<Delivery>, into: State, s: System, i: nat)
    requires OnePerBranch(ds) && Inv(ds, into, s) && i < |ds| && !s.phases[i].Finished?
    requires Owns(s.job, ds[i].branch, ds[i].worker)
    ensures Enabled(ds, s, Check(i)) || Enabled(ds, s, Record(i)) || Enabled(ds, s, Finish(i))
  {
    LeftHas(ds, s.phases, ds[i].branch);
    assert s.phases[i] == Unread ==> Waits(ds, s.phases, i, ds[i].branch);
  }

  // ---------------------------------------------------------------- saving a whole record

  ghost predicate NoRecordBetween(es: seq<Event>, n: nat, m: nat)
    requires m <= |es|
  {
    forall k :: n <= k < m ==> !es[k].Record?
  }

  lemma {:induction false} StaysSettled(ds: seq<Delivery>, job: Job, run: seq<System>, es: seq<Event>, n: nat, m: nat,
                                        i: nat)
    requires IsRun(ds, job, run, es) && n <= m < |run| && i < |ds|
    requires |run[n].phases| == |ds| && Settled(run[n].phases[i])
    ensures |run[m].phases| == |ds| && Settled(run[m].phases[i])
  {
    if n < m {
      StaysSettled(ds, job, run, es, n, m - 1, i);
    }
  }

  lemma {:induction false} StaysMinded(ds: seq<Delivery>, job: Job, run: seq<System>, es: seq<Event>, n: nat, m: nat)
    requires IsRun(ds, job, run, es) && n <= m < |run| && NoRecordBetween(es, n, m)
    ensures Minds(run[n].job, run[m].job)
  {
    if n < m {
      StaysMinded(ds, job, run, es, n, m - 1);
    }
  }

  /** A branch whose result is recorded is not left. */
  lemma SettledNotLeft(ds: seq<Delivery>, phases: seq<Phase>, i: nat)
    requires |ds| == |phases| && i < |ds| && OnePerBranch(ds)
    ensures ds[i].branch in Left(ds, phases) <==> !Settled(phases[i])
  {
    LeftHas(ds, phases, ds[i].branch);
    if !Settled(phases[i]) {
      assert Waits(ds, phases, i, ds[i].branch);
    }
  }

  /** A result recorded between the read and the save is undone by the save. */
  lemma StaleSaveBreaks(ds: seq<Delivery>, into: State, job: Job, run: seq<System>, es: seq<Event>, n: nat, m: nat,
                        saved: Job, k: nat)
    requires OnePerBranch(ds) && ds != [] && Issued(ds, into, job) && IsRun(ds, job, run, es) && n <= k < m < |run|
    requires Minds(run[n].job, saved) && es[k].Record?
    ensures !Inv(ds, into, run[m].(job := saved))
    ensures ds[es[k].i].branch in saved.active && ds[es[k].i].branch !in run[m].job.active
  {
    var i := es[k].i;
    FanInLosesNothing(ds, into, job, run, es, n);
    FanInLosesNothing(ds, into, job, run, es, m);
    if Settled(run[n].phases[i]) {
      StaysSettled(ds, job, run, es, n, k, i);
    }
    assert run[k + 1] == Next(ds, run[k], es[k]);
    StaysSettled(ds, job, run, es, k + 1, m, i);
    SettledNotLeft(ds, run[n].phases, i);
    SettledNotLeft(ds, run[m].phases, i);
  }

  /** Exactly when a whole record, read at moment n and saved at moment m with the fan-in's fields
      as read, keeps the fan-in in order: no result was recorded in between. Then it is an
      update like any other, so runs may hold any number of such saves. */
  lemma WholeSaveExactly(ds: seq<Delivery>, into: State, job: Job, run: seq<System>, es: seq<Event>, n: nat, m: nat,
                         saved: Job)
    requires OnePerBranch(ds) && ds != [] && Issued(ds, into, job) && IsRun(ds, job, run, es) && n <= m < |run|
    requires Minds(run[n].job, saved)
    ensures Inv(ds, into, run[m].(job := saved)) <==> NoRecordBetween(es, n, m)
    ensures NoRecordBetween(es, n, m) ==>
      Enabled(ds, run[m], Touch(saved)) && Next(ds, run[m], Touch(saved)) == run[m].(job := saved)
  {
    if k :| n <= k < m && es[k].Record? {
      StaleSaveBreaks(ds, into, job, run, es, n, m, saved, k);
    } else {
      StaysMinded(ds, job, run, es, n, m);
      FanInLosesNothing(ds, into, job, run, es, m);
      StepKeepsInv(ds, into, run[m], Touch(saved));
    }
  }

  // ---------------------------------------------------------------- more results than branches

  /** From s the events lead to s'. */
  ghost predicate Leads(ds: seq<Delivery>, s: System, es: seq<Event>, s': System)
    decreases |es|
  {
    if |es| == 0 then s' == s else Enabled(ds, s, es[0]) && Leads(ds, Next(ds, s, es[0]), es[1..], s')
  }

  lemma {:induction false} LeadsOn(ds: seq<Delivery>, s: System, es: seq<Event>, s1: System, e: Event)
    requires Leads(ds, s, es, s1) && Enabled(ds, s1, e)
    ensures Leads(ds, s, es + [e], Next(ds, s1, e))
    decreases |es|
  {
    if |es| == 0 {
      assert es + [e] == [e] && [e][1..] == [];
    } else {
      assert (es + [e])[1..] == es[1..] + [e];
      LeadsOn(ds, Next(ds, s, es[0]), es[1..], s1, e);
    }
  }

  ghost predicate Path(ds: seq<Delivery>, run: seq<System>, es: seq<Event>) {
    && |run| == |es| + 1
    && forall k :: 0 <= k < |es| ==> Enabled(ds, run[k], es[k]) && run[k + 1] == Next(ds, run[k], es[k])
  }

  lemma {:induction false} LeadsIsPath(ds: seq<Delivery>, s: System, es: seq<Event>,
                                       s': System) returns (run: seq<System>)
    requires Leads(ds, s, es, s')
    ensures Path(ds, run, es) && run[0] == s && run[|es|] == s'
    decreases |es|
  {
    if |es| == 0 {
      run := [s];
    } else {
      var rest := LeadsIsPath(ds, Next(ds, s, es[0]), es[1..], s');
      run := [s] + rest;
      forall k | 0 <= k < |es| ensures Enabled(ds, run[k], es[k]) && run[k + 1] == Next(ds, run[k], es[k]) {
        if k > 0 { assert es[k] == es[1..][k - 1] && run[k] == rest[k - 1] && run[k + 1] == rest[k]; }
      }
    }
  }

  function SomeChecked(n: nat, q: nat): seq<Phase> { seq(n, i => if i < q then Checked else Unread) }

  /** All results may be checked before any is recorded. */
  lemma {:induction false} CheckUpTo(ds: seq<Delivery>, job: Job, q: nat) returns (es: seq<Event>)
    requires q <= |ds| && forall i :: 0 <= i < |ds| ==> Accepts(job, ds[i].branch, ds[i].worker)
    requires job.status == WaitingForParallel
    ensures Leads(ds, Begin(ds, job), es, System(job, SomeChecked(|ds|, q), 0, None))
  {
    if q == 0 {
      assert SomeChecked(|ds|, 0) == seq(|ds|, i => Unread);
      es := [];
    } else {
      var before := CheckUpTo(ds, job, q - 1);
      var s := System(job, SomeChecked(|ds|, q - 1), 0, None);
      assert s.phases[q - 1 := Checked] == SomeChecked(|ds|, q);
      LeadsOn(ds, Begin(ds, job), before, s, Check(q - 1));
      es := before + [Check(q - 1)];
    }
  }

  /** The job after the first p results are recorded. */
  ghost predicate RecordedUpTo(ds: seq<Delivery>, into: State, job: Job, m: nat, p: nat, s: System)
    requires p <= m <= |job.active| && m < |ds|
  {
    && s.job.active == job.active[p..] && s.job.target == Some(into)
    && s.phases == seq(|ds|, i => if i < p then Recorded(i == m - 1) else if i <= m then Checked else Unread)
    && s.enqueued == 0
  }

  lemma {:induction false} RecordUpTo(ds: seq<Delivery>, into: State, job: Job, s0: System, m: nat, p: nat)
      returns (es: seq<Event>, s: System)
    requires m == |job.active| && 0 < m < |ds| && p <= m && RecordedUpTo(ds, into, job, m, 0, s0)
    requires forall i :: 0 <= i < m ==> job.active[i] == ds[i].branch
    ensures Leads(ds, s0, es, s) && RecordedUpTo(ds, into, job, m, p, s)
  {
    if p == 0 {
      es, s := [], s0;
    } else {
      var before, s1 := RecordUpTo(ds, into, job, s0, m, p - 1);
      var rest := job.active[p - 1..];
      assert rest[0] == ds[p - 1].branch && rest[1..] == job.active[p..];
      assert Remove(rest, ds[p - 1].branch) == rest[1..];
      s := Next(ds, s1, Record(p - 1));
      assert s.phases == seq(|ds|, i => if i < p then Recorded(i == m - 1) else if i <= m then Checked else Unread);
      LeadsOn(ds, s0, before, s1, Record(p - 1));
      es := before + [Record(p - 1)];
    }
  }

  lemma {:induction false} LeadsBoth(ds: seq<Delivery>, s: System, es: seq<Event>, s1: System, fs: seq<Event>,
                                     s2: System)
    requires Leads(ds, s, es, s1) && Leads(ds, s1, fs, s2)
    ensures Leads(ds, s, es + fs, s2)
    decreases |es|
  {
    if |es| == 0 {
      assert es + fs == fs;
    } else {
      assert (es + fs)[1..] == es[1..] + fs;
      LeadsBoth(ds, Next(ds, s, es[0]), es[1..], s1, fs, s2);
    }
  }

  /** The last branch's result and one more, each finding no branch left, are finished. */
  lemma FinishTwo(ds: seq<Delivery>, into: State, job: Job, m: nat, s: System) returns (es: seq<Event>, s': System)
    requires m == |job.active| && 0 < m < |ds| && RecordedUpTo(ds, into, job, m, m, s)
    ensures Leads(ds, s, es, s') && s'.enqueued == 2
  {
    assert s.job.active == [] && Remove([], ds[m].branch) == [];
    var s1 := Next(ds, s, Record(m));
    assert s1.phases[m] == Recorded(true) && s1.phases[m - 1] == Recorded(true);
    var s2 := Next(ds, s1, Finish(m - 1));
    var s3 := Next(ds, s2, Finish(m));
    assert Leads(ds, s, [], s);
    LeadsOn(ds, s, [], s, Record(m));
    LeadsOn(ds, s, [] + [Record(m)], s1, Finish(m - 1));
    LeadsOn(ds, s, [] + [Record(m)] + [Finish(m - 1)], s2, Finish(m));
    es, s' := [] + [Record(m)] + [Finish(m - 1)] + [Finish(m)], s3;
  }

  ghost predicate QueuesTwice(ds: seq<Delivery>, job: Job, run: seq<System>, es: seq<Event>, n: nat) {
    IsRun(ds, job, run, es) && n < |run| && run[n].enqueued >= 2
  }

  /** Some interleaving queues the aggregator twice. */
  ghost predicate SomeRunQueuesTwice(ds: seq<Delivery>, job: Job) {
    exists run: seq<System>, es: seq<Event>, n: nat :: QueuesTwice(ds, job, run, es, n)
  }

  /** Any result beyond one per branch, a repeated one or one with an unknown id, may queue the
      aggregator twice, whatever the size of the fan-out. */
  lemma ExtraResultQueuesTwice(ds: seq<Delivery>, into: State, job: Job)
    requires job.active != [] && |ds| > |job.active| && Issued(ds[..|job.active|], into, job)
    requires forall i :: 0 <= i < |ds| ==> Accepts(job, ds[i].branch, ds[i].worker)
    ensures SomeRunQueuesTwice(ds, job)
  {
    var m := |job.active|;
    var checks := CheckUpTo(ds, job, m + 1);
    var s0 := System(job, SomeChecked(|ds|, m + 1), 0, None);
    assert forall i :: 0 <= i < m ==> job.active[i] == ds[..m][i].branch == ds[i].branch;
    assert job.active[0..] == job.active;
    assert s0.phases == seq(|ds|, i => if i < 0 then Recorded(i == m - 1) else if i <= m then Checked else Unread);
    var records, s1 := RecordUpTo(ds, into, job, s0, m, m);
    var ends, s2 := FinishTwo(ds, into, job, m, s1);
    LeadsBoth(ds, Begin(ds, job), checks, s0, records, s1);
    LeadsBoth(ds, Begin(ds, job), checks + records, s1, ends, s2);
    var run := LeadsIsPath(ds, Begin(ds, job), checks + records + ends, s2);
    assert QueuesTwice(ds, job, run, checks + records + ends, |run| - 1);
  }

  /** Exactly: when every result is acceptable and the first ones are those of the branches, some
      interleaving queues the aggregator twice if and only if there are more results. */
  lemma QueuedTwiceExactly(ds: seq<Delivery>, into: State, job: Job)
    requires job.active != [] && |ds| >= |job.active| && Issued(ds[..|job.active|], into, job)
    requires OnePerBranch(ds[..|job.active|])
    requires forall i :: 0 <= i < |ds| ==> Accepts(job, ds[i].branch, ds[i].worker)
    ensures SomeRunQueuesTwice(ds, job) <==> |ds| > |job.active|
  {
    if |ds| > |job.active| {
      ExtraResultQueuesTwice(ds, into, job);
    } else {
      assert ds[..|job.active|] == ds;
      forall run: seq<System>, es: seq<Event>, n: nat ensures !QueuesTwice(ds, job, run, es, n) {
        if QueuesTwice(ds, job, run, es, n) {
          QueuedOnceAtTheEnd(ds, into, job, run, es, n);
        }
      }
    }
  }

  /** In particular a repeated result does: one for a branch that has its result among the first. */
  lemma RepeatedResultQueuesTwice(ds: seq<Delivery>, into: State, job: Job, i: nat)
    requires job.active != [] && |ds| == |job.active| + 1 && Issued(ds[..|job.active|], into, job)
    requires i < |job.active| && ds[|job.active|] == ds[i]
    requires forall k :: 0 <= k < |job.active| ==> Accepts(job, ds[k].branch, ds[k].worker)
    ensures SomeRunQueuesTwice(ds, job)
  {
    ExtraResultQueuesTwice(ds, into, job);
  }
}
