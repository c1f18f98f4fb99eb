/** The message stream and its consumer group: XADD, XAUTOCLAIM before XREADGROUP, XACK.
    An entry's id is its position in the stream, so ids are unique. The lifecycle model
    counts unacknowledged entries per job; this module shows that the stream keeps exactly
    that count, that an acknowledged entry is never handed out again, and that an entry
    whose process died is handed out again once it has been idle long enough. */
module JobStream {
  import opened Basics

  type JobId = nat
  type MessageId = nat

  /** `read` entries were delivered at least once; `pending` are those not acknowledged, with
      the time of their last delivery. */
  datatype Log = Log(jobs: seq<JobId>, read: nat, pending: map<MessageId, nat>)

  predicate Valid(s: Log) { s.read <= |s.jobs| && forall m :: m in s.pending ==> m < s.read }

  /** Not acknowledged: still queued, or delivered and pending. */
  predicate Live(s: Log, m: MessageId) { m < |s.jobs| && (m in s.pending || s.read <= m) }

  predicate Acked(s: Log, m: MessageId) { m < s.read && m !in s.pending }

  /** The jobs of the live entries among the first n. */
  function LiveJobs(s: Log, n: nat): multiset<JobId>
    requires n <= |s.jobs|
  {
    if n == 0 then multiset{}
    else LiveJobs(s, n - 1) + if Live(s, n - 1) then multiset{s.jobs[n - 1]} else multiset{}
  }

  /** What the lifecycle model calls `messages`. */
  function Unacked(s: Log): multiset<JobId> { LiveJobs(s, |s.jobs|) }

  predicate Idle(s: Log, m: MessageId, now: nat, minIdle: nat) { m in s.pending && s.pending[m] + minIdle <= now }

  /** The oldest idle entry at or after position n. */
  function FirstIdle(s: Log, now: nat, minIdle: nat, n: nat): (r: Option<MessageId>)
    ensures r.Some? ==> n <= r.value < s.read && Idle(s, r.value, now, minIdle)
    ensures forall m :: n <= m < s.read && Idle(s, m, now, minIdle) ==> r.Some? && r.value <= m
    decreases s.read - n
  {
    if n >= s.read then None
    else if Idle(s, n, now, minIdle) then Some(n)
    else FirstIdle(s, now, minIdle, n + 1)
  }

  /** The entry that the next delivery takes: an idle one if there is one, else the next unread one. */
  function Next(s: Log, now: nat, minIdle: nat): Option<MessageId> {
    var claim := FirstIdle(s, now, minIdle, 0);
    if claim.Some? then claim else if s.read < |s.jobs| then Some(s.read) else None
  }

  function Added(s: Log, job: JobId): Log { s.(jobs := s.jobs + [job]) }

  function Delivered(s: Log, m: MessageId, now: nat): Log {
    s.(read := if m == s.read then s.read + 1 else s.read, pending := s.pending[m := now])
  }

  function WithoutPending(s: Log, m: MessageId): Log { s.(pending := s.pending - {m}) }

  class JobStream {
    var jobs: seq<JobId>
    var read: nat
    var pending: map<MessageId, nat>
    const minIdle: nat

    function State(): Log
      reads this
    {
      Log(jobs, read, pending)
    }

    constructor (minIdle: nat)
      ensures Valid(State()) && Unacked(State()) == multiset{} && this.minIdle == minIdle
    {
      jobs, read, pending := [], 0, map[];
      this.minIdle := minIdle;
    }

    method EnqueueJob(job: JobId)
      requires Valid(State())
      modifies this
      ensures Valid(State()) && State() == Added(old(State()), job)
      ensures jobs == old(jobs) + [job] && read == old(read) && pending == old(pending)
      ensures Unacked(State()) == old(Unacked(State())) + multiset{job}
    {
      AddedCounts(State(), job);
      jobs := jobs + [job];
    }

    /** `dequeue_job`; the store scans its pending list in id order. */
    method DequeueJob(now: nat) returns (message: Option<MessageId>)
      requires Valid(State())
      modifies this
      ensures Valid(State())
      ensures message == Next(old(State()), now, minIdle)
      ensures State() == if message.Some? then Delivered(old(State()), message.value, now) else old(State())
      ensures Unacked(State()) == old(Unacked(State()))
      ensures message.Some? ==> Live(old(State()), message.value) && Live(State(), message.value)
      // An entry left pending for the minimal idle time is claimed, the oldest first; without one the
      // next unread entry is delivered; without that there is nothing.
      ensures jobs == old(jobs) && pending == if message.Some? then old(pending)[message.value := now] else old(pending)
      ensures if exists m :: m in old(pending) && old(pending)[m] + minIdle <= now
              then
                && message.Some? && message.value in old(pending) && old(pending)[message.value] + minIdle <= now
                && read == old(read)
                && forall m :: m in old(pending) && old(pending)[m] + minIdle <= now ==> message.value <= m
              else if old(read) < |jobs| then message == Some(old(read)) && read == old(read) + 1
              else message == None && read == old(read)
    {
      assert forall m :: m in pending && pending[m] + minIdle <= now ==> Idle(State(), m, now, minIdle);
      var m := 0;
      while m < read && !(m in pending && pending[m] + minIdle <= now)
        invariant m <= read && FirstIdle(State(), now, minIdle, m) == FirstIdle(State(), now, minIdle, 0)
      {
        m := m + 1;
      }
      if m == read && m == |jobs| { return None; }
      DeliveredCounts(State(), m, now);
      if m == read { read := read + 1; }
      pending := pending[m := now];
      message := Some(m);
    }

    method AckJob(m: MessageId)
      requires Valid(State())
      modifies this
      ensures Valid(State()) && State() == WithoutPending(old(State()), m)
      ensures m in old(pending) ==> Unacked(State()) == old(Unacked(State())) - multiset{jobs[m]} && Acked(State(), m)
      ensures m !in old(pending) ==> Unacked(State()) == old(Unacked(State()))
      ensures jobs == old(jobs) && read == old(read) && pending == old(pending) - {m}
    {
      AckCounts(State(), m);
      pending := pending - {m};
    }
  }

  // ---------------------------------------------------------------- the count

  /** The count looks at which entries are live and at nothing else. */
  lemma {:induction false} SameLive(s: Log, s': Log, n: nat)
    requires n <= |s.jobs| && n <= |s'.jobs|
    requires forall m :: 0 <= m < n ==> s.jobs[m] == s'.jobs[m] && (Live(s, m) <==> Live(s', m))
    ensures LiveJobs(s, n) == LiveJobs(s', n)
  {
    if n > 0 {
      SameLive(s, s', n - 1);
    }
  }

  lemma AddedCounts(s: Log, job: JobId)
    requires Valid(s)
    ensures Unacked(Added(s, job)) == Unacked(s) + multiset{job}
  {
    SameLive(s, Added(s, job), |s.jobs|);
  }

  /** A delivery, first or repeated, acknowledges nothing. */
  lemma DeliveredCounts(s: Log, m: MessageId, now: nat)
    requires Valid(s) && (m in s.pending || m == s.read < |s.jobs|)
    ensures Unacked(Delivered(s, m, now)) == Unacked(s)
  {
    SameLive(s, Delivered(s, m, now), |s.jobs|);
  }

  lemma {:induction false} AckedOne(s: Log, m: MessageId, n: nat)
    requires Valid(s) && m in s.pending && m < n <= |s.jobs|
    ensures s.jobs[m] in LiveJobs(s, n)
    ensures LiveJobs(WithoutPending(s, m), n) == LiveJobs(s, n) - multiset{s.jobs[m]}
  {
    var s' := WithoutPending(s, m);
    assert Live(s', n - 1) <==> Live(s, n - 1) && n - 1 != m;
    assert Live(s, m);
    hide Live;
    if n - 1 == m {
      SameBefore(s, m);
      PlusThenMinus(LiveJobs(s, n - 1), s.jobs[m]);
    } else {
      AckedOne(s, m, n - 1);
      var last := if Live(s, n - 1) then multiset{s.jobs[n - 1]} else multiset{};
      MinusThenPlus(LiveJobs(s, n - 1), last, s.jobs[m]);
    }
  }

  lemma SameBefore(s: Log, m: MessageId)
    requires Valid(s) && m < |s.jobs|
    ensures LiveJobs(WithoutPending(s, m), m) == LiveJobs(s, m)
  {
    SameLive(s, WithoutPending(s, m), m);
  }

  lemma PlusThenMinus(a: multiset<JobId>, x: JobId)
    ensures (a + multiset{x}) - multiset{x} == a
  {}

  lemma MinusThenPlus(a: multiset<JobId>, b: multiset<JobId>, x: JobId)
    requires x in a
    ensures (a - multiset{x}) + b == (a + b) - multiset{x}
  {}

  lemma AckCounts(s: Log, m: MessageId)
    requires Valid(s)
    ensures m in s.pending ==> Unacked(WithoutPending(s, m)) == Unacked(s) - multiset{s.jobs[m]}
    ensures m !in s.pending ==> Unacked(WithoutPending(s, m)) == Unacked(s)
  {
    if m in s.pending {
      AckedOne(s, m, |s.jobs|);
    } else {
      assert WithoutPending(s, m).pending == s.pending;
    }
  }

  /** A job has a live entry if and only if it is in the count. */
  lemma {:induction false} CountedIffLive(s: Log, job: JobId, n: nat)
    requires n <= |s.jobs|
    ensures job in LiveJobs(s, n) <==> exists m :: 0 <= m < n && Live(s, m) && s.jobs[m] == job
  {
    if n > 0 {
      CountedIffLive(s, job, n - 1);
    }
  }

  // ---------------------------------------------------------------- runs

  datatype Op = Add(job: JobId) | Take(now: nat) | Ack(message: MessageId)

  function Do(s: Log, op: Op, minIdle: nat): Log {
    match op
    case Add(job) => Added(s, job)
    case Take(now) =>
      var m := Next(s, now, minIdle);
      if m.Some? then Delivered(s, m.value, now) else s
    case Ack(m) => WithoutPending(s, m)
  }

  ghost predicate IsRun(run: seq<Log>, ops: seq<Op>, minIdle: nat) {
    |run| == |ops| + 1 && forall i :: 0 <= i < |ops| ==> run[i + 1] == Do(run[i], ops[i], minIdle)
  }

  /** The entry that operation i of the run hands out. */
  predicate HandsOut(run: seq<Log>, ops: seq<Op>, i: nat, m: MessageId, minIdle: nat)
    requires i < |ops| <= |run|
  {
    ops[i].Take? && Next(run[i], ops[i].now, minIdle) == Some(m)
  }

  lemma {:induction false} AckedForGood(run: seq<Log>, ops: seq<Op>, minIdle: nat, n: nat, k: nat, m: MessageId)
    requires IsRun(run, ops, minIdle) && n <= k < |run| && Acked(run[n], m)
    ensures Acked(run[k], m)
  {
    if n < k {
      AckedForGood(run, ops, minIdle, n, k - 1, m);
    }
  }

  /** After its acknowledgement an entry is never handed out again. */
  lemma NoDeliveryAfterAck(run: seq<Log>, ops: seq<Op>, minIdle: nat, n: nat, k: nat, m: MessageId)
    requires IsRun(run, ops, minIdle) && n <= k < |ops| && Acked(run[n], m)
    ensures !HandsOut(run, ops, k, m, minIdle)
  {
    AckedForGood(run, ops, minIdle, n, k, m);
  }

  predicate Settled(s: Log, m: MessageId, since: nat) { m < s.read && (m in s.pending ==> s.pending[m] >= since) }

  lemma {:induction false} StaysSettled(run: seq<Log>, ops: seq<Op>, minIdle: nat, n: nat, k: nat, m: MessageId,
                                        since: nat)
    requires IsRun(run, ops, minIdle) && n <= k < |run| && Settled(run[n], m, since)
    requires forall i :: n <= i < k && ops[i].Take? ==> ops[i].now >= since
    ensures Settled(run[k], m, since)
  {
    if n < k {
      StaysSettled(run, ops, minIdle, n, k - 1, m, since);
    }
  }

  /** Two deliveries of one entry are at least the idle time apart: a process that finishes
      in time is the only one handling its message. */
  lemma DeliveriesAreApart(run: seq<Log>, ops: seq<Op>, minIdle: nat, n: nat, k: nat, m: MessageId)
    requires IsRun(run, ops, minIdle) && n < k < |ops| && Valid(run[n])
    requires forall i, l :: n <= i < l < |ops| && ops[i].Take? && ops[l].Take? ==> ops[i].now <= ops[l].now
    requires HandsOut(run, ops, n, m, minIdle) && HandsOut(run, ops, k, m, minIdle)
    ensures ops[k].now >= ops[n].now + minIdle
  {
    StaysSettled(run, ops, minIdle, n + 1, k, m, ops[n].now);
  }

  // ---------------------------------------------------------------- claiming

  /** The idle entries before position n. */
  function IdleCount(s: Log, now: nat, minIdle: nat, n: nat): nat {
    if n == 0 then 0 else IdleCount(s, now, minIdle, n - 1) + if Idle(s, n - 1, now, minIdle) then 1 else 0
  }

  /** Taking `k` times at time `now`. */
  function TakeTimes(s: Log, now: nat, minIdle: nat, k: nat): Log {
    if k == 0 then s else Do(TakeTimes(s, now, minIdle, k - 1), Take(now), minIdle)
  }

  lemma {:induction false} TakenFirst(s: Log, now: nat, minIdle: nat, k: nat)
    ensures TakeTimes(s, now, minIdle, k + 1) == TakeTimes(Do(s, Take(now), minIdle), now, minIdle, k)
  {
    if k > 0 {
      TakenFirst(s, now, minIdle, k - 1);
    }
  }

  lemma {:induction false} ClaimedOne(s: Log, now: nat, minIdle: nat, c: MessageId, n: nat)
    requires Valid(s) && minIdle > 0 && Idle(s, c, now, minIdle)
    ensures IdleCount(Delivered(s, c, now), now, minIdle, n) == IdleCount(s, now, minIdle, n) - if c < n then 1 else 0
  {
    if n > 0 {
      ClaimedOne(s, now, minIdle, c, n - 1);
    }
  }

  lemma {:induction false} NoneIdle(s: Log, now: nat, minIdle: nat, n: nat)
    requires forall m :: 0 <= m < n ==> !Idle(s, m, now, minIdle)
    ensures IdleCount(s, now, minIdle, n) == 0
  {
    if n > 0 {
      NoneIdle(s, now, minIdle, n - 1);
    }
  }

  /** An entry left behind by a dead process comes back: once it has been idle long enough,
      it is the next delivery but p, where p counts the older idle entries. */
  lemma {:induction false} IdleEntryIsRedelivered(s: Log, m: MessageId, now: nat, minIdle: nat)
    requires Valid(s) && minIdle > 0 && Idle(s, m, now, minIdle)
    ensures Next(TakeTimes(s, now, minIdle, IdleCount(s, now, minIdle, m)), now, minIdle) == Some(m)
    decreases IdleCount(s, now, minIdle, m)
  {
    var first := FirstIdle(s, now, minIdle, 0).value;
    if first == m {
      NoneIdle(s, now, minIdle, m);
    } else {
      ClaimedOne(s, now, minIdle, first, m);
      SomeIdle(s, now, minIdle, first, m);
      var s' := Delivered(s, first, now);
      IdleEntryIsRedelivered(s', m, now, minIdle);
      TakenFirst(s, now, minIdle, IdleCount(s', now, minIdle, m));
    }
  }

  lemma {:induction false} SomeIdle(s: Log, now: nat, minIdle: nat, c: MessageId, n: nat)
    requires Idle(s, c, now, minIdle) && c < n
    ensures IdleCount(s, now, minIdle, n) > 0
  {
    if c < n - 1 {
      SomeIdle(s, now, minIdle, c, n - 1);
    }
  }
}
