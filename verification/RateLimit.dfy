/** The rate limit of one worker and message type: a counter whose lifetime is renewed by every
    request, the refused ones too. */
module RateLimit {
  import opened Basics

  /** The in-memory store keeps a key through the instant of its expiry; Redis drops it then. */
  datatype Backend = Memory | Redis

  datatype Limits = Limits(backend: Backend, period: nat, limit: nat)

  /** Two instants so close that a counter renewed at the first is still there at the second. */
  predicate Close(l: Limits, earlier: nat, later: nat) {
    if l.backend.Memory? then later <= earlier + l.period else later < earlier + l.period
  }

  /** One key. */
  class Counter {
    const limits: Limits
    var count: nat
    /** When the count was last renewed; the key expires one period later. */
    var renewed: Option<nat>

    constructor (limits: Limits)
      ensures this.limits == limits && count == 0 && renewed == None
    {
      this.limits := limits;
      count, renewed := 0, None;
    }

    /** `increment_key_with_ttl`. */
    method Increment(now: nat) returns (value: nat)
      modifies this
      ensures renewed == Some(now) && value == count
      ensures count == if old(renewed).Some? && Close(limits, old(renewed).value, now) then old(count) + 1 else 1
      // The key lives for one period, in memory through its last instant.
      ensures old(renewed).Some? ==>
        var end := old(renewed).value + limits.period;
        count == if now < end || (now == end && limits.backend.Memory?) then old(count) + 1 else 1
    {
      if renewed.None? || !Close(limits, renewed.value, now) { count := 0; }
      count := count + 1;
      renewed := Some(now);
      value := count;
    }

    /** The check of `handle_rxon_message` over a list of requests; `counts` observes the counter. */
    method Admit(times: seq<nat>) returns (admitted: seq<bool>, ghost counts: seq<nat>)
      requires renewed.None?
      requires forall i :: 0 < i < |times| ==> times[i - 1] <= times[i]
      modifies this
      ensures |admitted| == |times| && forall k :: 0 <= k < |times| ==> admitted[k] == Admitted(limits, times, k)
      ensures |counts| == |times| && forall k :: 0 <= k < |times| ==> counts[k] == CountAt(limits, times, k)
    {
      admitted, counts := [], [];
      for i := 0 to |times|
        invariant |admitted| == |counts| == i
        invariant i == 0 ==> renewed.None?
        invariant i > 0 ==> renewed == Some(times[i - 1]) && count == CountAt(limits, times, i - 1)
        invariant forall k :: 0 <= k < i ==> admitted[k] == Admitted(limits, times, k)
        invariant forall k :: 0 <= k < i ==> counts[k] == CountAt(limits, times, k)
      {
        var value := Increment(times[i]);
        admitted := admitted + [value <= limits.limit];
        counts := counts + [value];
      }
    }
  }

  /** The counter after request k. */
  function CountAt(l: Limits, times: seq<nat>, k: nat): nat
    requires k < |times|
  {
    if k > 0 && Close(l, times[k - 1], times[k]) then CountAt(l, times, k - 1) + 1 else 1
  }

  predicate Admitted(l: Limits, times: seq<nat>, k: nat)
    requires k < |times|
  {
    CountAt(l, times, k) <= l.limit
  }

  ghost predicate Ordered(times: seq<nat>) { forall i, k :: 0 <= i <= k < |times| ==> times[i] <= times[k] }

  /** Within one window the counter only goes up. */
  lemma {:induction false} CountsUp(l: Limits, times: seq<nat>, i: nat, k: nat)
    requires Ordered(times) && i <= k < |times| && Close(l, times[i], times[k])
    ensures CountAt(l, times, k) == CountAt(l, times, i) + k - i
  {
    if i < k {
      CountsUp(l, times, i, k - 1);
    }
  }

  /** The admitted requests among i..k. */
  function Admissions(l: Limits, times: seq<nat>, i: nat, k: nat): nat
    requires i <= k < |times|
    decreases k - i
  {
    (if i == k then 0 else Admissions(l, times, i, k - 1)) + if Admitted(l, times, k) then 1 else 0
  }

  lemma {:induction false} AdmissionsBounded(l: Limits, times: seq<nat>, i: nat, k: nat)
    requires Ordered(times) && i <= k < |times| && Close(l, times[i], times[k])
    ensures Admissions(l, times, i, k) <= k - i + 1
    ensures Admissions(l, times, i, k) <= l.limit
    decreases k - i
  {
    CountsUp(l, times, i, k);
    if i < k {
      AdmissionsBounded(l, times, i, k - 1);
    }
  }

  /** Every window admits at most the limit: windows of one whole period, ends included, for the
      in-memory store, and shorter than a period for Redis. */
  lemma WindowsAreBounded(l: Limits, times: seq<nat>, i: nat, k: nat)
    requires Ordered(times) && i <= k < |times|
    requires if l.backend.Memory? then times[k] - times[i] <= l.period else times[k] - times[i] < l.period
    ensures Admissions(l, times, i, k) <= l.limit
  {
    AdmissionsBounded(l, times, i, k);
  }

  /** The last request before or at k that came after a quiet period (or the first of all). */
  function LastQuiet(l: Limits, times: seq<nat>, k: nat): (r: nat)
    requires k < |times|
    ensures r <= k
    ensures r > 0 ==> !Close(l, times[r - 1], times[r])
    ensures forall i :: r < i <= k ==> Close(l, times[i - 1], times[i])
  {
    if k > 0 && Close(l, times[k - 1], times[k]) then LastQuiet(l, times, k - 1) else k
  }

  /** The limit is harsher than "so many per period": a request is admitted if and only if fewer
      than the limit came before it since the last quiet period. */
  lemma {:induction false} AdmittedExactly(l: Limits, times: seq<nat>, k: nat)
    requires k < |times|
    ensures Admitted(l, times, k) <==> k - LastQuiet(l, times, k) < l.limit
  {
    CountSinceQuiet(l, times, k);
  }

  lemma {:induction false} CountSinceQuiet(l: Limits, times: seq<nat>, k: nat)
    requires k < |times|
    ensures CountAt(l, times, k) == k - LastQuiet(l, times, k) + 1
  {
    if k > 0 && Close(l, times[k - 1], times[k]) {
      CountSinceQuiet(l, times, k - 1);
    }
  }

  /** One quiet period is enough: whoever asks again after it starts from one. */
  lemma QuietStartsOver(l: Limits, times: seq<nat>, k: nat)
    requires k < |times|
    requires k > 0 ==> if l.backend.Memory? then times[k] - times[k - 1] > l.period
                       else times[k] - times[k - 1] >= l.period
    ensures CountAt(l, times, k) == 1 && (l.limit > 0 ==> Admitted(l, times, k))
  {}

  /** Who is refused and keeps asking without a quiet period stays refused, however slowly it asks. */
  lemma {:induction false} RefusedUntilQuiet(l: Limits, times: seq<nat>, i: nat, k: nat)
    requires i <= k < |times| && !Admitted(l, times, i)
    requires forall m :: i < m <= k ==> Close(l, times[m - 1], times[m])
    ensures !Admitted(l, times, k)
    decreases k - i
  {
    if i < k {
      RefusedUntilQuiet(l, times, i, k - 1);
    }
  }
}
