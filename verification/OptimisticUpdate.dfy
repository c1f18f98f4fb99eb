/** The atomic update of a job record. Redis has no lock: a caller watches the key, reads
    it, computes, and executes a transaction that fails when the key was written meanwhile,
    upon which it starts again. In memory the same operation holds a lock. For any number of
    interleaved callers and plain writes the first behaves like the second. */
module OptimisticUpdate {
  import opened Basics

  /** Where a caller is in its loop: `version` is the key's version when it was watched. */
  datatype Caller<V> =
    | Fresh
    | Retrying
    | Watching(version: nat)
    | Holding(version: nat, seen: V)
    | Computed(version: nat, next: V)
    | Committed(at: nat, result: V)

  /** A write that took place: by a caller's transaction, or a plain save. */
  datatype Write<V> = Update(caller: nat) | Put(value: V)

  /** `version` counts the writes to the key, as the watch of Redis notices every write.
      `started` and `retries` are per caller; they observe and do not influence. */
  datatype System<V> = System(
    value: V,
    version: nat,
    callers: seq<Caller<V>>,
    started: seq<nat>,
    retries: seq<nat>,
    history: seq<Write<V>>)

  datatype Event<V> = DoWatch(i: nat) | DoGet(i: nat) | DoCompute(i: nat) | DoExec(i: nat) | DoSave(value: V)

  ghost predicate Shaped<V>(fs: seq<V -> V>, s: System<V>) { |s.callers| == |s.started| == |s.retries| == |fs| }

  predicate Enabled<V>(fs: seq<V -> V>, s: System<V>, e: Event<V>)
  {
    |s.callers| == |fs| &&
    match e
    case DoWatch(i) => i < |fs| && (s.callers[i].Fresh? || s.callers[i].Retrying?)
    case DoGet(i) => i < |fs| && s.callers[i].Watching?
    case DoCompute(i) => i < |fs| && s.callers[i].Holding?
    case DoExec(i) => i < |fs| && s.callers[i].Computed?
    case DoSave(_) => true
  }

  function At<V>(s: System<V>, i: nat, caller: Caller<V>): System<V>
    requires i < |s.callers|
  {
    s.(callers := s.callers[i := caller])
  }

  function Next<V>(fs: seq<V -> V>, s: System<V>, e: Event<V>): System<V>
    requires Shaped(fs, s) && Enabled(fs, s, e)
  {
    match e
    case DoWatch(i) =>
      var s' := At(s, i, Watching(s.version));
      if s.callers[i].Fresh? then s'.(started := s.started[i := s.version]) else s'
    case DoGet(i) => At(s, i, Holding(s.callers[i].version, s.value))
    case DoCompute(i) => At(s, i, Computed(s.callers[i].version, fs[i](s.callers[i].seen)))
    case DoExec(i) =>
      if s.version == s.callers[i].version
      then At(s, i, Committed(s.version, s.callers[i].next))
           .(value := s.callers[i].next, version := s.version + 1, history := s.history + [Update(i)])
      else At(s, i, Retrying).(retries := s.retries[i := s.retries[i] + 1])
    case DoSave(value) => s.(value := value, version := s.version + 1, history := s.history + [Put(value)])
  }

  // ---------------------------------------------------------------- the lock

  /** One write under the lock. */
  function Locked<V>(fs: seq<V -> V>, value: V, write: Write<V>): V {
    match write
    case Update(i) => if i < |fs| then fs[i](value) else value
    case Put(x) => x
  }

  /** The writes one after another, each holding the lock. */
  function Fold<V>(fs: seq<V -> V>, value: V, history: seq<Write<V>>): V {
    if |history| == 0 then value
    else Locked(fs, Fold(fs, value, history[..|history| - 1]), history[|history| - 1])
  }

  function Commits<V>(history: seq<Write<V>>, i: nat): nat {
    if |history| == 0 then 0
    else Commits(history[..|history| - 1], i) + if history[|history| - 1] == Update(i) then 1 else 0
  }

  // ---------------------------------------------------------------- invariant

  ghost predicate CallerInv<V>(fs: seq<V -> V>, init: V, s: System<V>, i: nat)
    requires Shaped(fs, s) && i < |fs|
  {
    match s.callers[i]
    case Fresh => s.retries[i] == 0
    case Retrying => s.started[i] + s.retries[i] <= s.version
    case Watching(v) => s.started[i] + s.retries[i] <= v <= s.version
    case Holding(v, seen) =>
      s.started[i] + s.retries[i] <= v <= s.version && (v == s.version ==> seen == s.value)
    case Computed(v, next) =>
      s.started[i] + s.retries[i] <= v <= s.version && (v == s.version ==> next == fs[i](s.value))
    case Committed(at, result) =>
      && s.started[i] + s.retries[i] <= at < |s.history| && s.history[at] == Update(i)
      && result == Fold(fs, init, s.history[..at + 1])
  }

  ghost predicate Inv<V>(fs: seq<V -> V>, init: V, s: System<V>) {
    && Shaped(fs, s)
    && s.value == Fold(fs, init, s.history) && s.version == |s.history|
    && (forall i :: 0 <= i < |fs| ==> CallerInv(fs, init, s, i))
    && (forall i :: 0 <= i < |fs| ==> Commits(s.history, i) == if s.callers[i].Committed? then 1 else 0)
  }

  lemma Longer<V>(fs: seq<V -> V>, init: V, history: seq<Write<V>>, write: Write<V>)
    ensures Fold(fs, init, history + [write]) == Locked(fs, Fold(fs, init, history), write)
    ensures forall i :: Commits(history + [write], i) == Commits(history, i) + if write == Update(i) then 1 else 0
    ensures forall n :: 0 <= n <= |history| ==> (history + [write])[..n] == history[..n]
  {
    assert (history + [write])[..|history|] == history;
  }

  lemma CallerStep<V>(fs: seq<V -> V>, init: V, s: System<V>, e: Event<V>, i: nat)
    requires Inv(fs, init, s) && Enabled(fs, s, e) && i < |fs|
    ensures Shaped(fs, Next(fs, s, e)) && CallerInv(fs, init, Next(fs, s, e), i)
  {
    hide Fold, Commits;
    assert CallerInv(fs, init, s, i);
    if e.DoExec? && s.version == s.callers[e.i].version {
      assert CallerInv(fs, init, s, e.i);
      Longer(fs, init, s.history, Update(e.i));
      assert (s.history + [Update(e.i)])[..|s.history| + 1] == s.history + [Update(e.i)];
    } else if e.DoSave? {
      Longer(fs, init, s.history, Put(e.value));
    }
  }

  lemma NextKeepsInv<V>(fs: seq<V -> V>, init: V, s: System<V>, e: Event<V>)
    requires Inv(fs, init, s) && Enabled(fs, s, e)
    ensures Inv(fs, init, Next(fs, s, e))
  {
    forall i | 0 <= i < |fs| ensures Shaped(fs, Next(fs, s, e)) && CallerInv(fs, init, Next(fs, s, e), i) {
      CallerStep(fs, init, s, e, i);
    }
    assert e.DoExec? ==> CallerInv(fs, init, s, e.i);
    if e.DoExec? {
      Longer(fs, init, s.history, Update(e.i));
    } else if e.DoSave? {
      Longer(fs, init, s.history, Put(e.value));
    }
  }

  // ---------------------------------------------------------------- refinement

  /** What a user of the lock-based version sees: the value, and the answers given so far. */
  datatype Visible<V> = Visible(value: V, answers: seq<Option<V>>)

  function Answer<V>(caller: Caller<V>): Option<V> { if caller.Committed? then Some(caller.result) else None }

  function View<V>(s: System<V>): Visible<V> {
    Visible(s.value, seq(|s.callers|, i requires 0 <= i < |s.callers| => Answer(s.callers[i])))
  }

  /** One whole lock-protected operation. */
  function Atomic<V>(fs: seq<V -> V>, a: Visible<V>, write: Write<V>): Visible<V> {
    match write
    case Update(i) =>
      if i < |fs| && i < |a.answers| then Visible(fs[i](a.value), a.answers[i := Some(fs[i](a.value))]) else a
    case Put(x) => a.(value := x)
  }

  /** Every step of the loop is invisible or is one whole lock-protected operation. */
  lemma StepRefinesLock<V>(fs: seq<V -> V>, init: V, s: System<V>, e: Event<V>)
    requires Inv(fs, init, s) && Enabled(fs, s, e)
    ensures var s' := Next(fs, s, e);
      if s'.version == s.version then View(s') == View(s)
      else
        && |s'.history| == |s.history| + 1
        && View(s') == Atomic(fs, View(s), s'.history[|s.history|])
        && (s'.history[|s.history|].Update? ==> View(s).answers[s'.history[|s.history|].caller].None?)
  {
    if e.DoExec? {
      assert CallerInv(fs, init, s, e.i);
    }
  }

  // ---------------------------------------------------------------- runs

  function Start<V>(fs: seq<V -> V>, init: V): System<V> {
    System(init, 0, seq(|fs|, i => Fresh), seq(|fs|, i => 0), seq(|fs|, i => 0), [])
  }

  ghost predicate IsRun<V>(fs: seq<V -> V>, init: V, run: seq<System<V>>, es: seq<Event<V>>) {
    && |run| == |es| + 1 && run[0] == Start(fs, init)
    && forall k :: 0 <= k < |es| ==>
        Shaped(fs, run[k]) && Enabled(fs, run[k], es[k]) && run[k + 1] == Next(fs, run[k], es[k])
  }

  lemma {:induction false} RunKeepsInv<V>(fs: seq<V -> V>, init: V, run: seq<System<V>>, es: seq<Event<V>>, n: nat)
    requires IsRun(fs, init, run, es) && n < |run|
    ensures Inv(fs, init, run[n])
  {
    if n > 0 {
      RunKeepsInv(fs, init, run, es, n - 1);
      NextKeepsInv(fs, init, run[n - 1], es[n - 1]);
    }
  }

  /** At every moment of every interleaving the stored value is what the lock would have
      produced from the writes in commit order, and no call has committed twice. A call that
      has finished committed once, answered with the value its commit produced, and was sent
      back at most once per write of someone else between its start and its commit. */
  lemma RetryLoopIsTheLock<V>(fs: seq<V -> V>, init: V, run: seq<System<V>>, es: seq<Event<V>>, n: nat)
    requires IsRun(fs, init, run, es) && n < |run|
    ensures var s := run[n];
      && Shaped(fs, s)
      && s.value == Fold(fs, init, s.history) && s.version == |s.history|
      && (forall i :: 0 <= i < |fs| ==> Commits(s.history, i) == if s.callers[i].Committed? then 1 else 0)
      && (forall i :: 0 <= i < |fs| && s.callers[i].Committed? ==>
            var at := s.callers[i].at;
            && s.started[i] <= at < |s.history| && s.history[at] == Update(i)
            && s.callers[i].result == Fold(fs, init, s.history[..at + 1])
            && s.retries[i] <= at - s.started[i]
            && forall k :: s.started[i] <= k < at ==> s.history[k] != Update(i))
  {
    RunKeepsInv(fs, init, run, es, n);
    var s := run[n];
    forall i | 0 <= i < |fs| && s.callers[i].Committed?
      ensures var at := s.callers[i].at;
        && s.started[i] <= at < |s.history| && s.history[at] == Update(i)
        && s.callers[i].result == Fold(fs, init, s.history[..at + 1]) && s.retries[i] <= at - s.started[i]
        && forall k :: s.started[i] <= k < at ==> s.history[k] != Update(i)
    {
      assert CallerInv(fs, init, s, i);
      assert Commits(s.history, i) == 1;
      forall k | 0 <= k < s.callers[i].at ensures s.history[k] != Update(i) {
        if s.history[k] == Update(i) {
          TwoCommits(s.history, i, k, s.callers[i].at);
        }
      }
    }
  }

  lemma {:induction false} TwoCommits<V>(history: seq<Write<V>>, i: nat, k: nat, l: nat)
    requires k < l < |history| && history[k] == history[l] == Update(i)
    ensures Commits(history, i) >= 2
  {
    var n := |history| - 1;
    if l < n {
      TwoCommits(history[..n], i, k, l);
    } else {
      OneCommit(history[..n], i, k);
    }
  }

  lemma {:induction false} OneCommit<V>(history: seq<Write<V>>, i: nat, k: nat)
    requires k < |history| && history[k] == Update(i)
    ensures Commits(history, i) >= 1
  {
    var n := |history| - 1;
    if k < n {
      OneCommit(history[..n], i, k);
    }
  }

  /** A transaction fails only if somebody wrote: whatever the interleaving, some call
      makes progress. */
  lemma FailureMeansProgress<V>(fs: seq<V -> V>, init: V, s: System<V>, i: nat)
    requires Inv(fs, init, s) && Enabled(fs, s, DoExec(i))
    ensures Next(fs, s, DoExec(i)).callers[i].Retrying? <==> s.version > s.callers[i].version
    ensures s.version == s.callers[i].version ==>
      Next(fs, s, DoExec(i)).value == fs[i](s.value)
          && Next(fs, s, DoExec(i)).callers[i] == Committed(s.version, fs[i](s.value))
  {
    assert CallerInv(fs, init, s, i);
  }

  /** The run of events, each enabled when it comes. */
  ghost predicate Leads<V>(fs: seq<V -> V>, s: System<V>, es: seq<Event<V>>, s': System<V>)
    decreases |es|
  {
    if |es| == 0 then s' == s
    else Shaped(fs, s) && Enabled(fs, s, es[0]) && Leads(fs, Next(fs, s, es[0]), es[1..], s')
  }

  /** Whoever starts, or starts again, and is let alone for its four requests, commits: the callback
      is applied once to the stored value, and that is the answer. A plain save can come at any time. */
  lemma UndisturbedCommits<V>(fs: seq<V -> V>, init: V, s: System<V>, i: nat) returns (s': System<V>)
    requires Inv(fs, init, s) && i < |fs| && (s.callers[i].Fresh? || s.callers[i].Retrying?)
    ensures Leads(fs, s, [DoWatch(i), DoGet(i), DoCompute(i), DoExec(i)], s')
    ensures s'.value == fs[i](s.value) && s'.version == s.version + 1 && s'.history == s.history + [Update(i)]
    ensures s'.callers == s.callers[i := Committed(s.version, fs[i](s.value))]
    ensures forall x :: Enabled(fs, s, DoSave(x)) && Enabled(fs, s', DoSave(x))
  {
    var s1 := Next(fs, s, DoWatch(i));
    var s2 := Next(fs, s1, DoGet(i));
    var s3 := Next(fs, s2, DoCompute(i));
    s' := Next(fs, s3, DoExec(i));
    var es: seq<Event<V>> := [DoWatch(i), DoGet(i), DoCompute(i), DoExec(i)];
    assert es[1..] == [DoGet(i), DoCompute(i), DoExec(i)] && es[1..][1..] == [DoCompute(i), DoExec(i)];
    assert es[1..][1..][1..] == [DoExec(i)] && es[1..][1..][1..][1..] == [];
    assert Leads(fs, s', [], s');
    assert Leads(fs, s3, es[1..][1..][1..], s');
    assert Leads(fs, s2, es[1..][1..], s');
    assert Leads(fs, s1, es[1..], s');
  }

  // ---------------------------------------------------------------- the loop itself

  /** The value after some plain writes. */
  function Last<V>(value: V, writes: seq<V>): V { if |writes| == 0 then value else writes[|writes| - 1] }

  /** One key of the store. */
  class Key<V(==)> {
    var value: V
    var version: nat

    constructor (value: V)
      ensures this.value == value && version == 0
    {
      this.value, version := value, 0;
    }

    /** `save_job_state`. */
    method Set(x: V)
      modifies this
      ensures value == x && version == old(version) + 1
    {
      value, version := x, version + 1;
    }

    /** Writes of other clients. */
    method Disturb(writes: seq<V>)
      modifies this
      ensures value == Last(old(value), writes) && version == old(version) + |writes|
    {
      var i := 0;
      while i < |writes|
        invariant i <= |writes| && version == old(version) + i && value == Last(old(value), writes[..i])
      {
        Set(writes[i]);
        i := i + 1;
      }
      assert writes[..i] == writes;
    }

    /** `update_job_state_atomic`. `foreign[k]` lists the writes of other clients that arrive
        during attempt k, `early[k]` of them between the watch and the read. The loop ends
        with the first attempt that nobody disturbs, and what it then does is one atomic
        application of the callback to the value that the last disturbance left. */
    method UpdateAtomic(f: V -> V, foreign: seq<seq<V>>, early: seq<nat>) returns (updated: V, retries: nat)
      requires |early| == |foreign| && forall k :: 0 <= k < |foreign| ==> early[k] <= |foreign[k]|
      modifies this
      ensures updated == value
      ensures retries <= |foreign| && (retries < |foreign| ==> foreign[retries] == [])
      ensures forall k :: 0 <= k < retries ==> foreign[k] != []
      ensures value == f(if retries == 0 then old(value) else Last(old(value), foreign[retries - 1]))
    {
      retries := 0;
      while true
        invariant retries <= |foreign| && forall k :: 0 <= k < retries ==> foreign[k] != []
        invariant value == if retries == 0 then old(value) else Last(old(value), foreign[retries - 1])
        decreases |foreign| - retries
      {
        var watched := version;
        var disturbed := retries < |foreign|;
        if disturbed { Disturb(foreign[retries][..early[retries]]); }
        var seen := value;
        updated := f(seen);
        if disturbed { Disturb(foreign[retries][early[retries]..]); }
        if version == watched {
          Set(updated);
          return;
        }
        retries := retries + 1;
      }
    }
  }
}
