/** Interval jobs with any number of scheduler instances. Each reads the time of the last run,
    decides, takes a short lock, triggers the job and writes the new time; nothing releases
    the lock. The lock's lifetime is what keeps two instances apart. */
module Scheduler {
  import opened Basics

  /** `d1` bounds the time from reading the last run to taking the lock, `d2` the time from the
      lock to writing the new last run, `ttl` is the lock's lifetime. */
  datatype Params = Params(d1: nat, d2: nat, ttl: nat, interval: int)

  datatype Phase =
    | Idle
    | Ready(now: int)
    | Checked(now: int, seen: Option<int>, readAt: nat)
    | Locked(now: int, seen: Option<int>, lockedAt: nat)
    | Fired(now: int, seen: Option<int>, lockedAt: nat)

  /** The instance took the lock and has not written yet. */
  predicate Holding(phase: Phase) { phase.Locked? || phase.Fired? }

  /** A job was triggered by an instance with clock `now`, at time `at`. */
  datatype Firing = Firing(now: int, at: nat)

  /** One job's keys in the store, the instances, the triggers and the recorded run times so far. */
  datatype System = System(
    time: nat,
    lastRun: Option<int>,
    expiry: Option<nat>,
    phases: seq<Phase>,
    fired: seq<Firing>,
    recorded: seq<int>)

  /** `now` of Begin is the instance's own clock: nothing is asked of it. Give up: an exception,
      or the death of the process. */
  datatype Event =
    | Tick(to: nat)
    | Begin(i: nat, now: int)
    | Check(i: nat)
    | Lock(i: nat)
    | Trigger(i: nat)
    | Write(i: nat)
    | GiveUp(i: nat)

  predicate Due(p: Params, now: int, seen: Option<int>) { seen.None? || now - seen.value >= p.interval }

  /** A lock is free from the instant of its expiry, as in Redis. The in-memory store keeps it
      through that instant, which forbids some runs and allows no new ones. */
  predicate Free(s: System) { s.expiry.None? || s.expiry.value <= s.time }

  ghost predicate Enabled(p: Params, s: System, e: Event) {
    match e
    case Tick(to) =>
      s.time <= to && forall k :: 0 <= k < |s.phases| && Holding(s.phases[k]) ==> to <= s.phases[k].lockedAt + p.d2
    case Begin(i, _) => i < |s.phases| && s.phases[i].Idle?
    case Check(i) => i < |s.phases| && s.phases[i].Ready?
    case Lock(i) => i < |s.phases| && s.phases[i].Checked? && s.time <= s.phases[i].readAt + p.d1
    case Trigger(i) => i < |s.phases| && s.phases[i].Locked?
    case Write(i) => i < |s.phases| && s.phases[i].Fired?
    case GiveUp(i) => i < |s.phases|
  }

  function To(s: System, i: nat, phase: Phase): System
    requires i < |s.phases|
  {
    s.(phases := s.phases[i := phase])
  }

  function Next(p: Params, s: System, e: Event): System
    requires Enabled(p, s, e)
  {
    match e
    case Tick(to) => s.(time := to)
    case Begin(i, now) => To(s, i, Ready(now))
    case Check(i) =>
      var now := s.phases[i].now;
      To(s, i, if Due(p, now, s.lastRun) then Checked(now, s.lastRun, s.time) else Idle)
    case Lock(i) =>
      if Free(s)
      then To(s, i, Locked(s.phases[i].now, s.phases[i].seen, s.time)).(expiry := Some(s.time + p.ttl))
      else To(s, i, Idle)
    case Trigger(i) =>
      var phase := s.phases[i];
      To(s, i, Fired(phase.now, phase.seen, phase.lockedAt)).(fired := s.fired + [Firing(phase.now, s.time)])
    case Write(i) =>
      var now := s.phases[i].now;
      To(s, i, Idle).(lastRun := Some(now), recorded := s.recorded + [now])
    case GiveUp(i) => To(s, i, Idle)
  }

  // ---------------------------------------------------------------- invariant

  /** The lock that stands was taken no earlier than `at`. */
  predicate LockSince(p: Params, s: System, at: int) { s.expiry.Some? && s.expiry.value >= at + p.ttl }

  /** What an instance holds is current, or the lock outlasts its chance to act on it. */
  ghost predicate PhaseInv(p: Params, s: System, phase: Phase) {
    match phase
    case Checked(now, seen, readAt) =>
      readAt <= s.time && Due(p, now, seen) && (seen == s.lastRun || LockSince(p, s, readAt - p.d2))
    case Locked(now, seen, lockedAt) => HolderInv(p, s, now, seen, lockedAt)
    case Fired(now, seen, lockedAt) => HolderInv(p, s, now, seen, lockedAt)
    case _ => true
  }

  predicate HolderInv(p: Params, s: System, now: int, seen: Option<int>, lockedAt: nat) {
    lockedAt <= s.time <= lockedAt + p.d2 && Due(p, now, seen) && seen == s.lastRun && LockSince(p, s, lockedAt)
  }

  ghost predicate Apart(p: Params, recorded: seq<int>) {
    forall k :: 0 < k < |recorded| ==> recorded[k] - recorded[k - 1] >= p.interval
  }

  ghost predicate Inv(p: Params, s: System) {
    && (forall k :: 0 <= k < |s.phases| ==> PhaseInv(p, s, s.phases[k]))
    && (forall k, l :: 0 <= k < l < |s.phases| ==> !(Holding(s.phases[k]) && Holding(s.phases[l])))
    && Apart(p, s.recorded)
    && (if s.recorded == [] then s.lastRun.None? else s.lastRun == Some(s.recorded[|s.recorded| - 1]))
  }

  lemma LockKeepsInv(p: Params, s: System, i: nat)
    requires p.d1 + p.d2 < p.ttl && Inv(p, s) && Enabled(p, s, Lock(i))
    ensures Inv(p, Next(p, s, Lock(i)))
  {
    assert PhaseInv(p, s, s.phases[i]);
    var s' := Next(p, s, Lock(i));
    if Free(s) {
      forall k | 0 <= k < |s.phases| && k != i ensures PhaseInv(p, s', s.phases[k]) && !Holding(s.phases[k]) {
        assert PhaseInv(p, s, s.phases[k]);
      }
    }
  }

  lemma WriteKeepsInv(p: Params, s: System, i: nat)
    requires p.d1 + p.d2 < p.ttl && Inv(p, s) && Enabled(p, s, Write(i))
    ensures Inv(p, Next(p, s, Write(i)))
  {
    assert PhaseInv(p, s, s.phases[i]);
    var s' := Next(p, s, Write(i));
    forall k | 0 <= k < |s.phases| && k != i ensures PhaseInv(p, s', s.phases[k]) {
      assert PhaseInv(p, s, s.phases[k]);
      assert !Holding(s.phases[k]);
    }
  }

  lemma StepKeepsInv(p: Params, s: System, e: Event)
    requires p.d1 + p.d2 < p.ttl && Inv(p, s) && Enabled(p, s, e)
    ensures Inv(p, Next(p, s, e))
  {
    match e
    case Lock(i) => LockKeepsInv(p, s, i);
    case Write(i) => WriteKeepsInv(p, s, i);
    case _ =>
      var s' := Next(p, s, e);
      forall k | 0 <= k < |s'.phases| ensures PhaseInv(p, s', s'.phases[k]) {
        assert PhaseInv(p, s, s.phases[k]);
      }
  }

  // ---------------------------------------------------------------- runs

  function Start(n: nat): System { System(0, None, None, seq(n, i => Idle), [], []) }

  ghost predicate IsRun(p: Params, n: nat, run: seq<System>, es: seq<Event>) {
    && |run| == |es| + 1 && run[0] == Start(n)
    && forall k :: 0 <= k < |es| ==> Enabled(p, run[k], es[k]) && run[k + 1] == Next(p, run[k], es[k])
  }

  lemma {:induction false} RunKeepsInv(p: Params, n: nat, run: seq<System>, es: seq<Event>, m: nat)
    requires p.d1 + p.d2 < p.ttl && IsRun(p, n, run, es) && m < |run|
    ensures Inv(p, run[m])
  {
    if m > 0 {
      RunKeepsInv(p, n, run, es, m - 1);
      hide Inv, Next;
      StepKeepsInv(p, run[m - 1], es[m - 1]);
    }
  }

  /** Interval jobs never fire early: in every interleaving of any number of instances,
      consecutive recorded run times are at least the interval apart. */
  lemma NeverEarly(p: Params, n: nat, run: seq<System>, es: seq<Event>, m: nat, k: nat)
    requires p.d1 + p.d2 < p.ttl && IsRun(p, n, run, es) && m < |run| && 0 < k < |run[m].recorded|
    ensures run[m].recorded[k] - run[m].recorded[k - 1] >= p.interval
  {
    RunKeepsInv(p, n, run, es, m);
  }

  ghost predicate FiresEarly(p: Params, recorded: seq<int>) { !Apart(p, recorded) }

  ghost predicate EarlyRunOf(p: Params, n: nat, run: seq<System>, es: seq<Event>, m: nat) {
    IsRun(p, n, run, es) && m < |run| && FiresEarly(p, run[m].recorded)
  }

  /** Some number of instances, in some interleaving, record two run times too close together. */
  ghost predicate EarlyRunExists(p: Params) {
    exists n: nat, run: seq<System>, es: seq<Event>, m: nat :: EarlyRunOf(p, n, run, es, m)
  }

  /** What the second instance's clock shows; for a positive interval both show zero. */
  function SecondNow(p: Params): int { if p.interval > 0 then 0 else p.interval - 1 }

  function EarlyEvents(p: Params): seq<Event> {
    var now := SecondNow(p);
    if p.d2 < p.ttl then
      [Begin(0, 0), Check(0), Lock(0), Trigger(0), Begin(1, now), Tick(p.d2), Check(1), Write(0), Tick(p.ttl), Lock(1),
       Trigger(1), Write(1)]
    else
      [Begin(0, 0), Check(0), Lock(0), Trigger(0), Begin(1, now), Tick(p.ttl), Check(1), Lock(1), Trigger(1), Write(0),
       Write(1)]
  }

  /** The second instance reads before the first has written, and locks after the first's lock is gone. */
  function StaleReadState(p: Params, k: nat): System {
    var ttl, now, first := Some(p.ttl), SecondNow(p), [Firing(0, 0)];
    var both := first + [Firing(now, p.ttl)];
    if k == 0 then System(0, None, None, [Idle, Idle], [], [])
    else if k == 1 then System(0, None, None, [Ready(0), Idle], [], [])
    else if k == 2 then System(0, None, None, [Checked(0, None, 0), Idle], [], [])
    else if k == 3 then System(0, None, ttl, [Locked(0, None, 0), Idle], [], [])
    else if k == 4 then System(0, None, ttl, [Fired(0, None, 0), Idle], first, [])
    else if k == 5 then System(0, None, ttl, [Fired(0, None, 0), Ready(now)], first, [])
    else if k == 6 then System(p.d2, None, ttl, [Fired(0, None, 0), Ready(now)], first, [])
    else if k == 7 then System(p.d2, None, ttl, [Fired(0, None, 0), Checked(now, None, p.d2)], first, [])
    else if k == 8 then System(p.d2, Some(0), ttl, [Idle, Checked(now, None, p.d2)], first, [0])
    else if k == 9 then System(p.ttl, Some(0), ttl, [Idle, Checked(now, None, p.d2)], first, [0])
    else if k == 10 then System(p.ttl, Some(0), Some(p.ttl + p.ttl), [Idle, Locked(now, None, p.ttl)], first, [0])
    else if k == 11 then System(p.ttl, Some(0), Some(p.ttl + p.ttl), [Idle, Fired(now, None, p.ttl)], both, [0])
    else System(p.ttl, Some(now), Some(p.ttl + p.ttl), [Idle, Idle], both, [0, now])
  }

  /** The first instance outlives its lock, and both write. */
  function LateWriteState(p: Params, k: nat): System {
    var ttl, now, first := Some(p.ttl), SecondNow(p), [Firing(0, 0)];
    var both, fired, again := first + [Firing(now, p.ttl)], Fired(0, None, 0), Some(p.ttl + p.ttl);
    if k == 0 then System(0, None, None, [Idle, Idle], [], [])
    else if k == 1 then System(0, None, None, [Ready(0), Idle], [], [])
    else if k == 2 then System(0, None, None, [Checked(0, None, 0), Idle], [], [])
    else if k == 3 then System(0, None, ttl, [Locked(0, None, 0), Idle], [], [])
    else if k == 4 then System(0, None, ttl, [fired, Idle], first, [])
    else if k == 5 then System(0, None, ttl, [fired, Ready(now)], first, [])
    else if k == 6 then System(p.ttl, None, ttl, [fired, Ready(now)], first, [])
    else if k == 7 then System(p.ttl, None, ttl, [fired, Checked(now, None, p.ttl)], first, [])
    else if k == 8 then System(p.ttl, None, again, [fired, Locked(now, None, p.ttl)], first, [])
    else if k == 9 then System(p.ttl, None, again, [fired, Fired(now, None, p.ttl)], both, [])
    else if k == 10 then System(p.ttl, Some(0), again, [Idle, Fired(now, None, p.ttl)], both, [0])
    else System(p.ttl, Some(now), again, [Idle, Idle], both, [0, now])
  }

  lemma StaleReadStep(p: Params, k: nat)
    requires p.d1 + p.d2 >= p.ttl > p.d2 && k < 12
    ensures Enabled(p, StaleReadState(p, k), EarlyEvents(p)[k])
    ensures Next(p, StaleReadState(p, k), EarlyEvents(p)[k]) == StaleReadState(p, k + 1)
  {}

  lemma LateWriteStep(p: Params, k: nat)
    requires p.d2 >= p.ttl && k < 11
    ensures Enabled(p, LateWriteState(p, k), EarlyEvents(p)[k])
    ensures Next(p, LateWriteState(p, k), EarlyEvents(p)[k]) == LateWriteState(p, k + 1)
  {}

  lemma StaleReadRun(p: Params) returns (run: seq<System>)
    requires p.d1 + p.d2 >= p.ttl > p.d2
    ensures IsRun(p, 2, run, EarlyEvents(p)) && run[|run| - 1].recorded == [0, SecondNow(p)]
  {
    run := seq(13, k requires 0 <= k < 13 => StaleReadState(p, k));
    var es := EarlyEvents(p);
    assert Start(2) == StaleReadState(p, 0) && StaleReadState(p, 12).recorded == [0, SecondNow(p)] && |es| == 12;
    hide StaleReadState, EarlyEvents, Next, Enabled;
    forall k | 0 <= k < |es| ensures Enabled(p, run[k], es[k]) && run[k + 1] == Next(p, run[k], es[k]) {
      StaleReadStep(p, k);
    }
  }

  lemma LateWriteRun(p: Params) returns (run: seq<System>)
    requires p.d2 >= p.ttl
    ensures IsRun(p, 2, run, EarlyEvents(p)) && run[|run| - 1].recorded == [0, SecondNow(p)]
  {
    run := seq(12, k requires 0 <= k < 12 => LateWriteState(p, k));
    var es := EarlyEvents(p);
    assert Start(2) == LateWriteState(p, 0) && LateWriteState(p, 11).recorded == [0, SecondNow(p)] && |es| == 11;
    hide LateWriteState, EarlyEvents, Next, Enabled;
    forall k | 0 <= k < |es| ensures Enabled(p, run[k], es[k]) && run[k + 1] == Next(p, run[k], es[k]) {
      LateWriteStep(p, k);
    }
  }

  /** Two instances whose delays reach the lock's lifetime record two run times too close together. */
  lemma EarlyRun(p: Params) returns (run: seq<System>)
    requires p.d1 + p.d2 >= p.ttl
    ensures IsRun(p, 2, run, EarlyEvents(p)) && run[|run| - 1].recorded == [0, SecondNow(p)]
  {
    if p.d2 < p.ttl { run := StaleReadRun(p); } else { run := LateWriteRun(p); }
  }

  /** The bound on the delays is exact: no interleaving fires early if and only if the two delays
      together are below the lock's lifetime. */
  lemma NeverEarlyExactly(p: Params)
    ensures p.d1 + p.d2 < p.ttl <==> !EarlyRunExists(p)
  {
    if p.d1 + p.d2 < p.ttl {
      forall n: nat, run: seq<System>, es: seq<Event>, m: nat | IsRun(p, n, run, es) && m < |run|
        ensures !FiresEarly(p, run[m].recorded)
      {
        RunKeepsInv(p, n, run, es, m);
      }
    } else {
      var run := EarlyRun(p);
      assert run[|run| - 1].recorded[1] - run[|run| - 1].recorded[0] < p.interval;
      assert EarlyRunOf(p, 2, run, EarlyEvents(p), |run| - 1);
    }
  }

  // ---------------------------------------------------------------- triggers

  function Stamps(fired: seq<Firing>): seq<int> { seq(|fired|, i requires 0 <= i < |fired| => fired[i].now) }

  /** Every trigger was recorded, but for that of the instance about to write. */
  ghost predicate Booked(s: System) {
    || (Stamps(s.fired) == s.recorded && forall k :: 0 <= k < |s.phases| ==> !s.phases[k].Fired?)
    || exists k :: 0 <= k < |s.phases| && s.phases[k].Fired? && Stamps(s.fired) == s.recorded + [s.phases[k].now]
  }

  /** No instance dies, or gives up, between the trigger and the write. */
  ghost predicate Survives(s: System, e: Event) {
    e.GiveUp? && e.i < |s.phases| ==> !s.phases[e.i].Fired?
  }

  lemma StampsMore(fired: seq<Firing>, f: Firing)
    ensures Stamps(fired + [f]) == Stamps(fired) + [f.now]
  {}

  lemma StepKeepsBooked(p: Params, s: System, e: Event)
    requires p.d1 + p.d2 < p.ttl && Inv(p, s) && Enabled(p, s, e) && Booked(s) && Survives(s, e)
    ensures Booked(Next(p, s, e))
  {
    var s' := Next(p, s, e);
    if e.Trigger? {
      assert Holding(s.phases[e.i]);
      StampsMore(s.fired, Firing(s.phases[e.i].now, s.time));
      assert s'.phases[e.i].Fired?;
    } else if k :| 0 <= k < |s.phases| && s.phases[k].Fired? && Stamps(s.fired) == s.recorded + [s.phases[k].now] {
      assert e.Write? ==> Holding(s.phases[e.i]) && Holding(s.phases[k]) && e.i == k;
      assert !e.Write? ==> s'.phases[k] == s.phases[k];
    }
  }

  lemma {:induction false} RunKeepsBooked(p: Params, n: nat, run: seq<System>, es: seq<Event>, m: nat)
    requires p.d1 + p.d2 < p.ttl && IsRun(p, n, run, es) && m < |run|
    requires forall k :: 0 <= k < |es| ==> Survives(run[k], es[k])
    ensures Booked(run[m])
  {
    if m > 0 {
      RunKeepsBooked(p, n, run, es, m - 1);
      RunKeepsInv(p, n, run, es, m - 1);
      hide Inv, Next, Booked;
      StepKeepsBooked(p, run[m - 1], es[m - 1]);
    }
  }

  /** The triggers themselves never come early either, as long as nobody dies between a trigger and
      its record. */
  lemma TriggersNeverEarly(p: Params, n: nat, run: seq<System>, es: seq<Event>, m: nat, k: nat)
    requires p.d1 + p.d2 < p.ttl && IsRun(p, n, run, es) && m < |run| && 0 < k < |run[m].fired|
    requires forall k :: 0 <= k < |es| ==> Survives(run[k], es[k])
    ensures run[m].fired[k].now - run[m].fired[k - 1].now >= p.interval
  {
    RunKeepsInv(p, n, run, es, m);
    RunKeepsBooked(p, n, run, es, m);
    var s, stamps := run[m], Stamps(run[m].fired);
    assert stamps[k] == s.fired[k].now && stamps[k - 1] == s.fired[k - 1].now;
    if i :| 0 <= i < |s.phases| && s.phases[i].Fired? && stamps == s.recorded + [s.phases[i].now] {
      assert PhaseInv(p, s, s.phases[i]);
    }
  }

  /** What holds even when instances die: the lock alone keeps triggers apart. */
  ghost predicate SpaceInv(p: Params, s: System) {
    && (forall k :: 0 <= k < |s.phases| && Holding(s.phases[k]) ==>
          var at := s.phases[k].lockedAt; at <= s.time <= at + p.d2 && LockSince(p, s, at))
    && (forall k, l :: 0 <= k < l < |s.phases| ==> !(Holding(s.phases[k]) && Holding(s.phases[l])))
    && (forall f :: f in s.fired ==> s.expiry.Some? && f.at + p.ttl <= s.expiry.value + p.d2)
    && (forall k, f :: 0 <= k < |s.phases| && s.phases[k].Locked? && f in s.fired ==>
          f.at + p.ttl <= s.phases[k].lockedAt + p.d2)
    && forall k :: 0 < k < |s.fired| ==> s.fired[k - 1].at + p.ttl <= s.fired[k].at + p.d2
  }

  lemma StepKeepsSpace(p: Params, s: System, e: Event)
    requires p.d2 < p.ttl && SpaceInv(p, s) && Enabled(p, s, e)
    ensures SpaceInv(p, Next(p, s, e))
  {
    match e
    case Trigger(i) => TriggerKeepsSpace(p, s, i);
    case Lock(i) => LockKeepsSpace(p, s, i);
    case Tick(to) => assert Next(p, s, e) == s.(time := to);
    case _ => LeavingKeepsSpace(p, s, e);
  }

  lemma LockKeepsSpace(p: Params, s: System, i: nat)
    requires p.d2 < p.ttl && SpaceInv(p, s) && Enabled(p, s, Lock(i))
    ensures SpaceInv(p, Next(p, s, Lock(i)))
  {
    assert Free(s) ==> forall k :: 0 <= k < |s.phases| ==> !Holding(s.phases[k]);
  }

  /** Nobody takes the lock and nothing is triggered. */
  lemma LeavingKeepsSpace(p: Params, s: System, e: Event)
    requires SpaceInv(p, s) && Enabled(p, s, e) && (e.Begin? || e.Check? || e.Write? || e.GiveUp?)
    ensures SpaceInv(p, Next(p, s, e))
  {
    var s' := Next(p, s, e);
    assert s'.time == s.time && s'.expiry == s.expiry && s'.fired == s.fired && !Holding(s'.phases[e.i]);
    assert forall k :: 0 <= k < |s.phases| && k != e.i ==> s'.phases[k] == s.phases[k];
    hide Next, Enabled;
  }

  lemma TriggerKeepsSpace(p: Params, s: System, i: nat)
    requires p.d2 < p.ttl && SpaceInv(p, s) && Enabled(p, s, Trigger(i))
    ensures SpaceInv(p, Next(p, s, Trigger(i)))
  {
    var s' := Next(p, s, Trigger(i));
    assert Holding(s.phases[i]);
    assert forall k :: 0 <= k < |s.phases| && k != i ==> s'.phases[k] == s.phases[k] && !Holding(s.phases[k]);
    if s.fired != [] {
      assert s.fired[|s.fired| - 1] in s.fired;
    }
  }

  lemma {:induction false} RunKeepsSpace(p: Params, n: nat, run: seq<System>, es: seq<Event>, m: nat)
    requires p.d2 < p.ttl && IsRun(p, n, run, es) && m < |run|
    ensures SpaceInv(p, run[m])
  {
    if m > 0 {
      RunKeepsSpace(p, n, run, es, m - 1);
      hide SpaceInv, Next;
      StepKeepsSpace(p, run[m - 1], es[m - 1]);
    }
  }

  /** Whoever dies and whenever, two triggers are at least the lock's lifetime apart, less the delay
      from the lock to the write. */
  lemma TriggersSpaced(p: Params, n: nat, run: seq<System>, es: seq<Event>, m: nat, k: nat)
    requires p.d2 < p.ttl && IsRun(p, n, run, es) && m < |run| && 0 < k < |run[m].fired|
    ensures run[m].fired[k].at - run[m].fired[k - 1].at >= p.ttl - p.d2
  {
    RunKeepsSpace(p, n, run, es, m);
  }

  function DeathEvents(p: Params): seq<Event> {
    [Begin(0, 0), Check(0), Lock(0), Tick(p.d2), Trigger(0), GiveUp(0), Tick(p.ttl), Begin(0, p.ttl), Check(0), Lock(0),
     Trigger(0)]
  }

  function DeathState(p: Params, k: nat): System {
    var ttl, first := Some(p.ttl), [Firing(0, p.d2)];
    if k == 0 then System(0, None, None, [Idle], [], [])
    else if k == 1 then System(0, None, None, [Ready(0)], [], [])
    else if k == 2 then System(0, None, None, [Checked(0, None, 0)], [], [])
    else if k == 3 then System(0, None, ttl, [Locked(0, None, 0)], [], [])
    else if k == 4 then System(p.d2, None, ttl, [Locked(0, None, 0)], [], [])
    else if k == 5 then System(p.d2, None, ttl, [Fired(0, None, 0)], first, [])
    else if k == 6 then System(p.d2, None, ttl, [Idle], first, [])
    else if k == 7 then System(p.ttl, None, ttl, [Idle], first, [])
    else if k == 8 then System(p.ttl, None, ttl, [Ready(p.ttl)], first, [])
    else if k == 9 then System(p.ttl, None, ttl, [Checked(p.ttl, None, p.ttl)], first, [])
    else if k == 10 then System(p.ttl, None, Some(p.ttl + p.ttl), [Locked(p.ttl, None, p.ttl)], first, [])
    else System(p.ttl, None, Some(p.ttl + p.ttl), [Fired(p.ttl, None, p.ttl)], first + [Firing(p.ttl, p.ttl)], [])
  }

  lemma DeathStep(p: Params, k: nat)
    requires p.d2 <= p.ttl && k < 11
    ensures Enabled(p, DeathState(p, k), DeathEvents(p)[k])
    ensures Next(p, DeathState(p, k), DeathEvents(p)[k]) == DeathState(p, k + 1)
  {}

  /** The bound is reached: an instance that dies between the trigger and the record lets the job
      be triggered again as soon as the lock is gone, however long the interval. */
  lemma DeathLetsTriggersComeClose(p: Params) returns (run: seq<System>)
    requires p.d2 <= p.ttl
    ensures IsRun(p, 1, run, DeathEvents(p)) && |run[|run| - 1].fired| == 2
    ensures var fired := run[|run| - 1].fired; fired[1].at - fired[0].at == p.ttl - p.d2
  {
    run := seq(12, k requires 0 <= k < 12 => DeathState(p, k));
    var es := DeathEvents(p);
    assert Start(1) == DeathState(p, 0) && |es| == 11;
    assert DeathState(p, 11).fired == [Firing(0, p.d2), Firing(p.ttl, p.ttl)];
    hide DeathState, DeathEvents, Next, Enabled;
    forall k | 0 <= k < |es| ensures Enabled(p, run[k], es[k]) && run[k + 1] == Next(p, run[k], es[k]) {
      DeathStep(p, k);
    }
  }

  // ---------------------------------------------------------------- one instance's round

  datatype IntervalJob = IntervalJob(name: string, interval: int)

  /** The keys of the schedulers in the store, and the jobs triggered. A lock is held while its
      expiry is not before the clock, as the in-memory store has it. */
  class ScheduleStore {
    var lastRun: map<string, int>
    var locks: map<string, nat>
    var triggered: seq<string>

    constructor ()
      ensures lastRun == map[] && locks == map[] && triggered == []
    {
      lastRun, locks, triggered := map[], map[], [];
    }

    /** `set_nx_ttl`: keys that expired are swept before the test. */
    method SetNx(key: string, ttl: nat, clock: nat) returns (taken: bool)
      modifies this`locks
      ensures taken <==> !(key in old(locks) && clock <= old(locks)[key])
      ensures taken ==> key in locks && locks[key] == clock + ttl
      ensures !taken ==> key in locks && locks[key] == old(locks)[key]
      ensures forall k :: k != key ==> (k in locks <==> k in old(locks) && clock <= old(locks)[k])
      ensures forall k :: k != key && k in locks ==> locks[k] == old(locks)[k]
    {
      locks := map k | k in locks && clock <= locks[k] :: locks[k];
      if key in locks { return false; }
      locks := locks[key := clock + ttl];
      taken := true;
    }

    /** `_process_interval_jobs`, undisturbed: all last runs are read first. A job fires exactly
        when no unexpired lock bears its name and an entry of that name never ran or last ran its
        interval ago; listed twice, it fires once. */
    method ProcessIntervalJobs(jobs: seq<IntervalJob>, now: int, clock: nat)
      modifies this
      ensures forall name :: RoundDone(jobs, name, Keys(old(lastRun), old(locks), old(triggered)),
                                       Keys(lastRun, locks, triggered), now, clock)
    {
      ghost var held, before, fired := locks, triggered, {};
      var seen := lastRun;
      NothingFired(seen, held, before, now, clock);
      for i := 0 to |jobs|
        invariant forall name :: name in fired <==> Fires(jobs[..i], seen, held, name, now, clock)
        invariant Round(fired, seen, held, before, lastRun, locks, triggered, now, clock)
      {
        assert jobs[..i + 1] == jobs[..i] + [jobs[i]];
        ghost var runs, kept, names := lastRun, locks, triggered;
        var starts := TryJob(jobs[i], seen, now, clock);
        RoundLonger(jobs[..i], jobs[i], fired, seen, held, before, runs, kept, names, lastRun, locks, triggered, now,
            clock);
        if starts { fired := fired + {jobs[i].name}; }
        hide Fires, Round, Held;
      }
      assert jobs[..|jobs|] == jobs;
      hide Fires, Round, Held, RoundDone;
      RoundIsDone(jobs, fired, seen, held, before, lastRun, locks, triggered, now, clock);
    }

    /** One job of the list; `seen` are the last runs read before. */
    method TryJob(job: IntervalJob, seen: map<string, int>, now: int, clock: nat) returns (ghost starts: bool)
      modifies this
      ensures starts == (!Held(old(locks), job.name, clock) && IsDue(seen, job, now))
      ensures lastRun == (if starts then old(lastRun)[job.name := now] else old(lastRun))
      ensures triggered == old(triggered) + (if starts then [job.name] else [])
      ensures forall name :: Held(locks, name, clock) <==> Held(old(locks), name, clock) || (starts && name == job.name)
      ensures LocksAfter(old(locks), locks, NamesOf(starts, job.name), clock)
    {
      starts := false;
      if job.name in seen && now - seen[job.name] < job.interval { return; }
      var taken := SetNx(job.name, 5, clock);
      starts := taken;
      if taken {
        triggered := triggered + [job.name];
        lastRun := lastRun[job.name := now];
      }
    }

    /** `_process_calendar_job`: at its time of day, on its days and dates, if it is bound to any; the
        lock bears the date and is kept for a day, so one date triggers the job once. */
    method ProcessCalendarJob(job: CalendarJob, at: Moment, dateKey: string, clock: nat)
      modifies this
      ensures lastRun == old(lastRun)
      ensures var fits := job.time != "" && at.time == job.time && (job.days == [] || at.day in job.days)
                          && (job.dates == [] || at.date in job.dates);
        var held := dateKey in old(locks) && clock <= old(locks)[dateKey];
        && triggered == old(triggered) + (if fits && !held then [job.name] else [])
        && (fits && !held ==> dateKey in locks && locks[dateKey] == clock + 86400)
        && (!fits ==> locks == old(locks))
    {
      if job.time == "" || at.time != job.time { return; }
      if job.days != [] && at.day !in job.days { return; }
      if job.dates != [] && at.date !in job.dates { return; }
      var taken := SetNx(dateKey, 86400, clock);
      if taken { triggered := triggered + [job.name]; }
    }
  }

  /** No days or dates: every day. */
  datatype CalendarJob = CalendarJob(name: string, time: string, days: seq<string>, dates: seq<int>)

  /** The time of day, the day of the week and the day of the month. */
  datatype Moment = Moment(time: string, day: string, date: int)

  /** All keys of the schedulers, and the jobs triggered so far. */
  datatype Keys = Keys(lastRun: map<string, int>, locks: map<string, nat>, triggered: seq<string>)

  /** From `before` to `after` one round over `jobs` was made: what became of one name. It fires if
      and only if no unexpired lock bears it and an entry of it never ran or ran its interval ago. */
  ghost predicate RoundDone(jobs: seq<IntervalJob>, name: string, before: Keys, after: Keys, now: int, clock: nat) {
    var fires := !(name in before.locks && clock <= before.locks[name])
      && exists job :: job in jobs && job.name == name
           && (name !in before.lastRun || now - before.lastRun[name] >= job.interval);
    && (name in after.lastRun <==> name in before.lastRun || fires)
    && (name in after.lastRun ==> after.lastRun[name] == if fires then now else before.lastRun[name])
    && multiset(after.triggered)[name] == multiset(before.triggered)[name] + (if fires then 1 else 0)
    && (fires ==> name in after.locks && after.locks[name] == clock + 5)
    && (!fires && name in after.locks ==> name in before.locks && after.locks[name] == before.locks[name])
    && (!fires && name in before.locks && clock <= before.locks[name] ==> name in after.locks)
  }

  predicate IsDue(lastRun: map<string, int>, job: IntervalJob, now: int) {
    job.name !in lastRun || now - lastRun[job.name] >= job.interval
  }

  predicate Held(locks: map<string, nat>, key: string, clock: nat) { key in locks && clock <= locks[key] }

  predicate Starts(job: IntervalJob, lastRun: map<string, int>, locks: map<string, nat>, name: string, now: int,
                   clock: nat) {
    job.name == name && !Held(locks, name, clock) && IsDue(lastRun, job, now)
  }

  /** One of the listed jobs of that name is due, and the name's lock is free. */
  ghost predicate Fires(jobs: seq<IntervalJob>, lastRun: map<string, int>, locks: map<string, nat>, name: string,
                        now: int,
                        clock: nat) {
    exists job :: job in jobs && Starts(job, lastRun, locks, name, now, clock)
  }

  function Count(fires: bool): nat { if fires then 1 else 0 }

  ghost predicate OrStarts(jobs: seq<IntervalJob>, job: IntervalJob, lastRun: map<string, int>, locks: map<string, nat>,
                           name: string, now: int, clock: nat) {
    Fires(jobs, lastRun, locks, name, now, clock) || Starts(job, lastRun, locks, name, now, clock)
  }

  function NamesOf(starts: bool, name: string): set<string> { if starts then {name} else {} }

  /** The locks of the names that fired are taken for five seconds; one that expired may be swept. */
  ghost predicate LocksAfter(held: map<string, nat>, locks: map<string, nat>, fired: set<string>, clock: nat) {
    && (forall name :: name in fired ==> name in locks && locks[name] == clock + 5)
    && (forall name :: name in locks && name !in fired ==> name in held && locks[name] == held[name])
    && (forall name :: name in held && clock <= held[name] ==> name in locks)
  }

  lemma FiresSpelledOut(jobs: seq<IntervalJob>, seen: map<string, int>, held: map<string, nat>, name: string, now: int,
                        clock: nat)
    ensures Fires(jobs, seen, held, name, now, clock) <==>
      !(name in held && clock <= held[name])
      && exists job :: job in jobs && job.name == name && (name !in seen || now - seen[name] >= job.interval)
  {
    if job :| job in jobs && job.name == name && (name !in seen || now - seen[name] >= job.interval) {
      assert !(name in held && clock <= held[name]) ==> Starts(job, seen, held, name, now, clock);
    }
  }

  /** What a round has done when the names in `fired` have fired. */
  ghost predicate Round(fired: set<string>, seen: map<string, int>, held: map<string, nat>, before: seq<string>,
                        lastRun: map<string, int>, locks: map<string, nat>, triggered: seq<string>, now: int,
                            clock: nat) {
    && lastRun.Keys == seen.Keys + fired
    && (forall name :: name in lastRun ==> lastRun[name] == if name in fired then now else seen[name])
    && multiset(triggered) == multiset(before) + multiset(fired)
    && (forall name :: Held(locks, name, clock) <==> Held(held, name, clock) || name in fired)
    && LocksAfter(held, locks, fired, clock)
  }

  lemma NothingFired(seen: map<string, int>, held: map<string, nat>, before: seq<string>, now: int, clock: nat)
    ensures Round({}, seen, held, before, seen, held, before, now, clock)
    ensures forall name :: !Fires([], seen, held, name, now, clock)
  {}

  lemma RoundCounts(fired: set<string>, seen: map<string, int>, held: map<string, nat>, before: seq<string>,
                    lastRun: map<string, int>, locks: map<string, nat>, triggered: seq<string>, now: int, clock: nat)
    requires Round(fired, seen, held, before, lastRun, locks, triggered, now, clock)
    ensures forall name :: name in lastRun <==> name in seen || name in fired
    ensures forall name :: name in lastRun ==> lastRun[name] == if name in fired then now else seen[name]
    ensures forall name :: multiset(triggered)[name] == multiset(before)[name] + Count(name in fired)
    ensures LocksAfter(held, locks, fired, clock)
  {
    forall name ensures multiset(triggered)[name] == multiset(before)[name] + Count(name in fired) {
      assert (multiset(before) + multiset(fired))[name] == multiset(before)[name] + multiset(fired)[name];
    }
  }

  lemma RoundIsDone(jobs: seq<IntervalJob>, fired: set<string>, seen: map<string, int>, held: map<string, nat>,
                    before: seq<string>, lastRun: map<string, int>, locks: map<string, nat>, triggered: seq<string>,
                    now: int, clock: nat)
    requires Round(fired, seen, held, before, lastRun, locks, triggered, now, clock)
    requires forall name :: name in fired <==> Fires(jobs, seen, held, name, now, clock)
    ensures forall name ::
      RoundDone(jobs, name, Keys(seen, held, before), Keys(lastRun, locks, triggered), now, clock)
  {
    hide Fires, Round, RoundDone;
    RoundCounts(fired, seen, held, before, lastRun, locks, triggered, now, clock);
    forall name
      ensures RoundDone(jobs, name, Keys(seen, held, before), Keys(lastRun, locks, triggered), now, clock)
    {
      NameIsDone(jobs, fired, seen, held, before, lastRun, locks, triggered, now, clock, name);
    }
  }

  lemma NameIsDone(jobs: seq<IntervalJob>, fired: set<string>, seen: map<string, int>, held: map<string, nat>,
                   before: seq<string>, lastRun: map<string, int>, locks: map<string, nat>, triggered: seq<string>,
                   now: int, clock: nat, name: string)
    requires LocksAfter(held, locks, fired, clock)
    requires name in fired <==> Fires(jobs, seen, held, name, now, clock)
    requires name in lastRun <==> name in seen || name in fired
    requires name in lastRun ==> lastRun[name] == if name in fired then now else seen[name]
    requires multiset(triggered)[name] == multiset(before)[name] + Count(name in fired)
    ensures RoundDone(jobs, name, Keys(seen, held, before), Keys(lastRun, locks, triggered), now, clock)
  {
    hide Fires;
    FiresSpelledOut(jobs, seen, held, name, now, clock);
  }

  lemma RoundLonger(jobs: seq<IntervalJob>, job: IntervalJob, fired: set<string>, seen: map<string, int>,
                    held: map<string, nat>, before: seq<string>, lastRun: map<string, int>, locks: map<string, nat>,
                    triggered: seq<string>, lastRun': map<string, int>, locks': map<string, nat>,
                        triggered': seq<string>,
                    now: int, clock: nat)
    requires Round(fired, seen, held, before, lastRun, locks, triggered, now, clock)
    requires forall name :: name in fired <==> Fires(jobs, seen, held, name, now, clock)
    requires var starts := !Held(locks, job.name, clock) && IsDue(seen, job, now);
      && lastRun' == (if starts then lastRun[job.name := now] else lastRun)
      && triggered' == triggered + (if starts then [job.name] else [])
      && (forall name :: Held(locks', name, clock) <==> Held(locks, name, clock) || (starts && name == job.name))
      && LocksAfter(locks, locks', NamesOf(starts, job.name), clock)
    ensures var starts := !Held(locks, job.name, clock) && IsDue(seen, job, now);
      var fired' := if starts then fired + {job.name} else fired;
      && Round(fired', seen, held, before, lastRun', locks', triggered', now, clock)
      && forall name :: name in fired' <==> Fires(jobs + [job], seen, held, name, now, clock)
  {
    var starts := !Held(locks, job.name, clock) && IsDue(seen, job, now);
    NotHeld(fired, seen, held, before, lastRun, locks, triggered, now, clock, job.name);
    FiredLonger(jobs, job, fired, seen, held, locks, now, clock);
    hide Fires, IsDue;
    if starts {
      RoundStarts(fired, seen, held, before, lastRun, locks, triggered, locks', now, clock, job.name);
    } else {
      assert triggered + [] == triggered;
      hide Held;
    }
  }

  lemma NotHeld(fired: set<string>, seen: map<string, int>, held: map<string, nat>, before: seq<string>,
                lastRun: map<string, int>, locks: map<string, nat>, triggered: seq<string>, now: int, clock: nat,
                    name: string)
    requires Round(fired, seen, held, before, lastRun, locks, triggered, now, clock)
    ensures Held(locks, name, clock) <==> Held(held, name, clock) || name in fired
  {}

  lemma FiredLonger(jobs: seq<IntervalJob>, job: IntervalJob, fired: set<string>, seen: map<string, int>,
                    held: map<string, nat>, locks: map<string, nat>, now: int, clock: nat)
    requires forall name :: name in fired <==> Fires(jobs, seen, held, name, now, clock)
    requires Held(locks, job.name, clock) <==> Held(held, job.name, clock) || job.name in fired
    ensures var starts := !Held(locks, job.name, clock) && IsDue(seen, job, now);
      var fired' := if starts then fired + {job.name} else fired;
      forall name :: name in fired' <==> Fires(jobs + [job], seen, held, name, now, clock)
  {
    FiresLonger(jobs, job, seen, held, now, clock);
    assert job.name in fired ==> Fires(jobs, seen, held, job.name, now, clock);
    hide Fires, IsDue, Held;
  }

  lemma RoundStarts(fired: set<string>, seen: map<string, int>, held: map<string, nat>, before: seq<string>,
                    lastRun: map<string, int>, locks: map<string, nat>, triggered: seq<string>, locks': map<string,
                        nat>,
                    now: int, clock: nat, name: string)
    requires Round(fired, seen, held, before, lastRun, locks, triggered, now, clock) && name !in fired
    requires forall k :: Held(locks', k, clock) <==> Held(locks, k, clock) || k == name
    requires LocksAfter(locks, locks', {name}, clock)
    ensures Round(fired + {name}, seen, held, before, lastRun[name := now], locks', triggered + [name], now, clock)
  {
    hide Held;
    MoreFired(before, fired, triggered, name);
  }

  lemma MoreFired(before: seq<string>, fired: set<string>, triggered: seq<string>, name: string)
    requires multiset(triggered) == multiset(before) + multiset(fired) && name !in fired
    ensures multiset(triggered + [name]) == multiset(before) + multiset(fired + {name})
  {
    SetPlus(fired, name);
    PlusAssoc(multiset(before), multiset(fired), multiset{name});
  }

  lemma SetPlus(fired: set<string>, name: string)
    requires name !in fired
    ensures multiset(fired + {name}) == multiset(fired) + multiset{name}
  {}

  lemma PlusAssoc(a: multiset<string>, b: multiset<string>, c: multiset<string>)
    ensures (a + b) + c == a + (b + c)
  {}

  lemma FiresLonger(jobs: seq<IntervalJob>, job: IntervalJob, lastRun: map<string, int>, locks: map<string, nat>,
                    now: int,
                    clock: nat)
    ensures forall name :: Fires(jobs + [job], lastRun, locks, name, now, clock)
                           <==> OrStarts(jobs, job, lastRun, locks, name, now, clock)
  {
    forall name
      ensures Fires(jobs + [job], lastRun, locks, name, now, clock)
          <==> OrStarts(jobs, job, lastRun, locks, name, now, clock)
    {
      assert forall j :: j in jobs + [job] <==> j in jobs || j == job;
    }
  }

  // ---------------------------------------------------------------- a round among the interleavings

  ghost predicate Leads(p: Params, s: System, es: seq<Event>, s': System)
    decreases |es|
  {
    if |es| == 0 then s' == s else Enabled(p, s, es[0]) && Leads(p, Next(p, s, es[0]), es[1..], s')
  }

  lemma {:induction false} LeadsOn(p: Params, s: System, a: seq<Event>, s1: System, e: Event)
    requires Leads(p, s, a, s1) && Enabled(p, s1, e)
    ensures Leads(p, s, a + [e], Next(p, s1, e))
    decreases |a|
  {
    if |a| == 0 {
      assert [] + [e] == [e] && [e][1..] == [];
    } else {
      assert (a + [e])[1..] == a[1..] + [e];
      LeadsOn(p, Next(p, s, a[0]), a[1..], s1, e);
    }
  }

  /** The store shows one name's keys as the system has them; a lock that expired may be swept. */
  predicate Shows(s: System, k: Keys, name: string) {
    && s.lastRun == Find(k.lastRun, name)
    && (if name in k.locks then s.expiry == Some(k.locks[name]) else s.expiry.None? || s.expiry.value < s.time)
  }

  /** The name was triggered once more. */
  predicate Triggered(before: Keys, after: Keys, name: string) {
    multiset(after.triggered)[name] > multiset(before.triggered)[name]
  }

  /** A round of the store is, for each name, a run of some instance's events at one moment. In
      memory a lock is kept through the instant of its expiry; who then fails to take it gives up. */
  lemma RoundIsARun(p: Params, s: System, i: nat, jobs: seq<IntervalJob>, name: string, before: Keys, after: Keys,
                    now: int)
    returns (es: seq<Event>, s': System)
    requires p.ttl == 5 && i < |s.phases| && s.phases[i].Idle? && Shows(s, before, name)
    requires RoundDone(jobs, name, before, after, now, s.time)
    requires exists job :: job in jobs && job.name == name
    requires forall job :: job in jobs && job.name == name ==> job.interval == p.interval
    ensures Leads(p, s, es, s') && Shows(s', after, name) && s'.time == s.time && s'.phases == s.phases
    ensures s'.recorded == s.recorded + if Triggered(before, after, name) then [now] else []
  {
    var s1 := Next(p, s, Begin(i, now));
    var s2 := Next(p, s1, Check(i));
    assert s1.phases[i] == Ready(now);
    LeadsOn(p, s, [], s, Begin(i, now));
    LeadsOn(p, s, [Begin(i, now)], s1, Check(i));
    es, s' := [Begin(i, now), Check(i)], s2;
    if s2.phases[i].Checked? {
      if name in before.locks && s.time <= before.locks[name] {
        LeadsOn(p, s, es, s2, GiveUp(i));
        es, s' := es + [GiveUp(i)], Next(p, s2, GiveUp(i));
      } else {
        es, s' := FiresInRun(p, s, s2, es, i);
      }
    }
    assert s'.phases == s.phases;
  }

  /** The lock is free: it is taken, the job triggered, and the time recorded. */
  lemma FiresInRun(p: Params, s: System, s2: System, es: seq<Event>, i: nat) returns (es': seq<Event>, s': System)
    requires Leads(p, s, es, s2) && i < |s2.phases| && s2.phases[i].Checked?
    requires s2.phases[i].readAt == s2.time && Free(s2)
    ensures Leads(p, s, es', s') && s'.time == s2.time && s'.phases == s2.phases[i := Idle]
    ensures s'.lastRun == Some(s2.phases[i].now) && s'.expiry == Some(s2.time + p.ttl)
    ensures s'.recorded == s2.recorded + [s2.phases[i].now]
  {
    var s3 := Next(p, s2, Lock(i));
    var s4 := Next(p, s3, Trigger(i));
    LeadsOn(p, s, es, s2, Lock(i));
    LeadsOn(p, s, es + [Lock(i)], s3, Trigger(i));
    LeadsOn(p, s, es + [Lock(i)] + [Trigger(i)], s4, Write(i));
    es', s' := es + [Lock(i)] + [Trigger(i)] + [Write(i)], Next(p, s4, Write(i));
  }

  /** What leads on from the end of a run makes a longer run. */
  lemma {:induction false} RunLeadsOn(p: Params, n: nat, run: seq<System>, es: seq<Event>, more: seq<Event>, s': System)
    returns (run': seq<System>)
    requires IsRun(p, n, run, es) && Leads(p, run[|run| - 1], more, s')
    ensures IsRun(p, n, run', es + more) && run <= run' && run'[|run'| - 1] == s'
    decreases |more|
  {
    if |more| == 0 {
      assert es + more == es;
      run' := run;
    } else {
      var next := Next(p, run[|run| - 1], more[0]);
      var es1, run1 := es + [more[0]], run + [next];
      assert es1 + more[1..] == es + more;
      forall k | 0 <= k < |es1| ensures Enabled(p, run1[k], es1[k]) && run1[k + 1] == Next(p, run1[k], es1[k]) {
        if k < |es| { assert Enabled(p, run[k], es[k]); }
      }
      run' := RunLeadsOn(p, n, run1, es1, more[1..], s');
    }
  }

  /** So what is proved of all interleavings holds of the store's rounds: after any run of any
      instances, a round of an idle one extends the run, and if the delays are as they should be,
      what it records is the interval away from what was recorded last. */
  lemma RoundIsNeverEarly(p: Params, n: nat, run: seq<System>, es: seq<Event>, i: nat, jobs: seq<IntervalJob>,
                          name: string, before: Keys, after: Keys, now: int)
    returns (run': seq<System>, es': seq<Event>)
    requires p.ttl == 5 && p.d1 + p.d2 < p.ttl && IsRun(p, n, run, es)
    requires var s := run[|run| - 1];
      && i < |s.phases| && s.phases[i].Idle? && Shows(s, before, name)
      && RoundDone(jobs, name, before, after, now, s.time)
    requires exists job :: job in jobs && job.name == name
    requires forall job :: job in jobs && job.name == name ==> job.interval == p.interval
    ensures IsRun(p, n, run', es') && run <= run' && Shows(run'[|run'| - 1], after, name)
    ensures var recorded := run[|run| - 1].recorded;
      && run'[|run'| - 1].recorded == recorded + (if Triggered(before, after, name) then [now] else [])
      && (Triggered(before, after, name) && recorded != [] ==> now - recorded[|recorded| - 1] >= p.interval)
  {
    var last := run[|run| - 1];
    var more, s' := RoundIsARun(p, last, i, jobs, name, before, after, now);
    hide RoundDone, Shows, Leads;
    run' := RunLeadsOn(p, n, run, es, more, s');
    es' := es + more;
    if Triggered(before, after, name) && last.recorded != [] {
      NeverEarly(p, n, run', es', |run'| - 1, |last.recorded|);
    }
  }
}
