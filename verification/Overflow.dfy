/** The overflow strategy of the dispatcher: fill the cheapest affordable worker up to a soft
    limit, then the next, and only when all have reached the limit even them out. */
module Overflow {
  import opened Basics

  /** What the dispatcher reads of a worker, for one task type. No stated cost means an infinite
      one; `compliant` is the verdict of the resource, artifact and skill matching. */
  datatype Worker = Worker(id: nat, cost: Option<real>, reputation: real, load: int, hot: bool, compliant: bool)

  predicate CostBelow(a: Option<real>, b: Option<real>) { a.Some? && (b.None? || a.value < b.value) }

  predicate Affordable(w: Worker, maxCost: Option<real>) {
    maxCost.None? || (w.cost.Some? && w.cost.value <= maxCost.value)
  }

  /** A worker with its place in the list. */
  datatype Candidate = Candidate(worker: Worker, place: nat)

  predicate Precedes(a: Candidate, b: Candidate) {
    CostBelow(a.worker.cost, b.worker.cost) || (!CostBelow(b.worker.cost, a.worker.cost) && a.place < b.place)
  }

  ghost predicate InOrder(cs: seq<Candidate>) { forall i, k :: 0 <= i < k < |cs| ==> Precedes(cs[i], cs[k]) }

  predicate From(workers: seq<Worker>, c: Candidate) { c.place < |workers| && c.worker == workers[c.place] }

  function InsertByCost(cs: seq<Candidate>, x: Candidate): (r: seq<Candidate>)
    ensures forall c :: c in r <==> c in cs || c == x
  {
    if |cs| == 0 || Precedes(x, cs[0]) then [x] + cs
    else
      assert cs == [cs[0]] + cs[1..];
      [cs[0]] + InsertByCost(cs[1..], x)
  }

  lemma {:induction false} InsertKeepsOrder(cs: seq<Candidate>, x: Candidate)
    requires InOrder(cs) && forall c :: c in cs ==> c.place != x.place
    ensures InOrder(InsertByCost(cs, x))
  {
    if |cs| > 0 && !Precedes(x, cs[0]) {
      InsertKeepsOrder(cs[1..], x);
      var rest := InsertByCost(cs[1..], x);
      forall k | 0 <= k < |rest| ensures Precedes(cs[0], rest[k]) {
        assert rest[k] in rest;
      }
    }
  }

  /** Python's stable sort. */
  function SortByCost(workers: seq<Worker>): seq<Candidate> {
    if |workers| == 0 then []
    else InsertByCost(SortByCost(workers[..|workers| - 1]), Candidate(workers[|workers| - 1], |workers| - 1))
  }

  lemma {:induction false} SortedByCost(workers: seq<Worker>)
    ensures InOrder(SortByCost(workers))
    ensures forall c :: c in SortByCost(workers) <==> From(workers, c)
  {
    if |workers| > 0 {
      SortedByCost(workers[..|workers| - 1]);
      InsertKeepsOrder(SortByCost(workers[..|workers| - 1]), Candidate(workers[|workers| - 1], |workers| - 1));
    }
  }

  function WithinCost(cs: seq<Candidate>, maxCost: Option<real>): (r: seq<Candidate>)
    ensures forall c :: c in r <==> c in cs && Affordable(c.worker, maxCost)
  {
    if |cs| == 0 then []
    else
      assert cs == [cs[0]] + cs[1..];
      (if Affordable(cs[0].worker, maxCost) then [cs[0]] else []) + WithinCost(cs[1..], maxCost)
  }

  lemma {:induction false} WithinKeepsOrder(cs: seq<Candidate>, maxCost: Option<real>)
    requires InOrder(cs)
    ensures InOrder(WithinCost(cs, maxCost))
  {
    if |cs| > 0 {
      WithinKeepsOrder(cs[1..], maxCost);
      var rest := WithinCost(cs[1..], maxCost);
      forall k | 0 <= k < |rest| ensures Precedes(cs[0], rest[k]) {
        assert rest[k] in rest;
      }
    }
  }

  /** Candidate c is the right one: it has room and comes before all others with room, or
      nobody has room and it comes first among the shortest queues. */
  ghost predicate Right(workers: seq<Worker>, maxCost: Option<real>, lengths: map<nat, nat>, limit: nat, c: Candidate)
    requires forall w :: w in workers ==> w.id in lengths
  {
    && From(workers, c) && Affordable(c.worker, maxCost)
    && forall i :: 0 <= i < |workers| && i != c.place && Affordable(workers[i], maxCost) ==>
         var l, mine := lengths[workers[i].id], lengths[c.worker.id];
         if mine < limit then l < limit ==> Precedes(c, Candidate(workers[i], i))
         else l >= limit && (mine < l || (mine == l && Precedes(c, Candidate(workers[i], i))))
  }

  /** The worker states a cost, and no more than that. */
  predicate Within(w: Worker, maxCost: real) { w.cost.Some? && w.cost.value <= maxCost }

  /** Worker w, at `place`, costs no more than v, at i, and comes no later if both cost the same;
      no stated cost is dearer than any. */
  predicate NoDearer(w: Worker, v: Worker, place: nat, i: nat) {
    (v.cost.Some? ==> w.cost.Some? && w.cost.value <= v.cost.value) && (v.cost == w.cost ==> place <= i)
  }

  lemma RightSpelledOut(workers: seq<Worker>, maxCost: Option<real>, lengths: map<nat, nat>, limit: nat, c: Candidate)
    requires (forall w :: w in workers ==> w.id in lengths) && Right(workers, maxCost, lengths, limit, c)
    ensures c.place < |workers| && workers[c.place] == c.worker && (maxCost.Some? ==> Within(c.worker, maxCost.value))
    ensures forall i :: 0 <= i < |workers| && (maxCost.Some? ==> Within(workers[i], maxCost.value)) ==>
      var l, mine := lengths[workers[i].id], lengths[c.worker.id];
      if mine < limit then l < limit ==> NoDearer(c.worker, workers[i], c.place, i)
      else l >= limit && mine <= l && (mine == l ==> NoDearer(c.worker, workers[i], c.place, i))
  {
    forall i | 0 <= i < |workers| && (maxCost.Some? ==> Within(workers[i], maxCost.value))
      ensures var l, mine := lengths[workers[i].id], lengths[c.worker.id];
        if mine < limit then l < limit ==> NoDearer(c.worker, workers[i], c.place, i)
        else l >= limit && mine <= l && (mine == l ==> NoDearer(c.worker, workers[i], c.place, i))
    {
      assert Affordable(workers[i], maxCost);
      if i != c.place {
        assert Precedes(c, Candidate(workers[i], i)) ==> NoDearer(c.worker, workers[i], c.place, i);
      }
    }
  }

  /** `_select_overflow`; `lengths` are the queue lengths that the store reports. None is the
      RuntimeError. */
  method SelectOverflow(workers: seq<Worker>, maxCost: Option<real>, lengths: map<nat, nat>, limit: nat)
      returns (selected: Option<Candidate>)
    requires forall w :: w in workers ==> w.id in lengths
    ensures selected.None? <==> forall i :: 0 <= i < |workers| ==>
        maxCost.Some? && (workers[i].cost.Some? ==> workers[i].cost.value > maxCost.value)
    ensures selected.Some? ==> Right(workers, maxCost, lengths, limit, selected.value)
    ensures selected.Some? ==>
      var w, place := selected.value.worker, selected.value.place;
      && place < |workers| && workers[place] == w && (maxCost.Some? ==> w.cost.Some? && w.cost.value <= maxCost.value)
      && forall i :: 0 <= i < |workers| && (maxCost.Some? ==> Within(workers[i], maxCost.value)) ==>
           var l, mine := lengths[workers[i].id], lengths[w.id];
           if mine < limit then l < limit ==> NoDearer(w, workers[i], place, i)
           else l >= limit && mine <= l && (mine == l ==> NoDearer(w, workers[i], place, i))
  {
    var cs := WithinCost(SortByCost(workers), maxCost);
    AllCandidates(workers, maxCost, cs);
    hide WithinCost, SortByCost, Right, Chosen;
    if cs == [] { return None; }
    assert From(workers, cs[0]) && Affordable(workers[cs[0].place], maxCost);
    var lens := ReadLengths(workers, cs, lengths);
    var p := PickByLength(lens, limit);
    RightExactlyChosen(workers, maxCost, lengths, limit, cs, lens, p);
    selected := Some(cs[p]);
    RightSpelledOut(workers, maxCost, lengths, limit, cs[p]);
  }

  /** The queue length of each candidate, asked for one after another. */
  method ReadLengths(workers: seq<Worker>, cs: seq<Candidate>, lengths: map<nat, nat>) returns (lens: seq<nat>)
    requires forall w :: w in workers ==> w.id in lengths
    requires forall k :: 0 <= k < |cs| ==> From(workers, cs[k])
    ensures |lens| == |cs| && forall k :: 0 <= k < |cs| ==>
        cs[k].worker.id in lengths && lens[k] == lengths[cs[k].worker.id]
  {
    lens := [];
    for i := 0 to |cs|
      invariant |lens| == i
      invariant forall k :: 0 <= k < i ==> cs[k].worker.id in lengths && lens[k] == lengths[cs[k].worker.id]
    {
      lens := lens + [lengths[cs[i].worker.id]];
    }
  }

  /** The two searches: the first short queue, else the first shortest. */
  method PickByLength(lens: seq<nat>, limit: nat) returns (p: nat)
    requires lens != []
    ensures Chosen(lens, limit, p)
  {
    p := 0;
    while p < |lens|
      invariant p <= |lens| && forall k :: 0 <= k < p ==> lens[k] >= limit
    {
      if lens[p] < limit { return; }
      p := p + 1;
    }
    p := 0;
    for i := 1 to |lens|
      invariant p < i
      invariant forall k :: 0 <= k < i ==> lens[p] <= lens[k]
      invariant forall k :: 0 <= k < p ==> lens[p] < lens[k]
    {
      if lens[i] < lens[p] { p := i; }
    }
  }

  lemma AllCandidates(workers: seq<Worker>, maxCost: Option<real>, cs: seq<Candidate>)
    requires cs == WithinCost(SortByCost(workers), maxCost)
    ensures forall k :: 0 <= k < |cs| ==>
        From(workers, cs[k]) && cs[k].worker in workers && Affordable(cs[k].worker, maxCost)
    ensures forall i :: 0 <= i < |workers| && Affordable(workers[i], maxCost) ==>
      exists k :: 0 <= k < |cs| && cs[k] == Candidate(workers[i], i)
  {
    SortedByCost(workers);
    forall k | 0 <= k < |cs| ensures From(workers, cs[k]) && cs[k].worker in workers
        && Affordable(cs[k].worker, maxCost) {
      assert cs[k] in cs;
    }
    forall i | 0 <= i < |workers| && Affordable(workers[i], maxCost)
      ensures exists k :: 0 <= k < |cs| && cs[k] == Candidate(workers[i], i)
    {
      assert From(workers, Candidate(workers[i], i));
      assert Candidate(workers[i], i) in cs;
    }
  }

  // ---------------------------------------------------------------- the load over many dispatches

  /** `lens[i]` is the queue length of the i-th cheapest of a fixed set of affordable workers. */
  predicate Chosen(lens: seq<nat>, limit: nat, p: nat) {
    && p < |lens|
    && if lens[p] < limit then forall i :: 0 <= i < p ==> lens[i] >= limit
       else
         && (forall i :: 0 <= i < |lens| ==> lens[i] >= lens[p])
         && (forall i :: 0 <= i < p ==> lens[i] > lens[p])
  }

  lemma ChosenIsRight(workers: seq<Worker>, maxCost: Option<real>, lengths: map<nat, nat>, limit: nat,
                      cs: seq<Candidate>,
                      lens: seq<nat>, p: nat)
    requires forall w :: w in workers ==> w.id in lengths
    requires cs == WithinCost(SortByCost(workers), maxCost) && |lens| == |cs|
    requires forall k :: 0 <= k < |cs| ==> cs[k].worker.id in lengths && lens[k] == lengths[cs[k].worker.id]
    requires Chosen(lens, limit, p)
    ensures Right(workers, maxCost, lengths, limit, cs[p])
  {
    AllCandidates(workers, maxCost, cs);
    SortedByCost(workers);
    WithinKeepsOrder(SortByCost(workers), maxCost);
    hide SortByCost, WithinCost;
    forall i | 0 <= i < |workers| && i != cs[p].place && Affordable(workers[i], maxCost)
      ensures var l, mine := lengths[workers[i].id], lengths[cs[p].worker.id];
        if mine < limit then l < limit ==> Precedes(cs[p], Candidate(workers[i], i))
        else l >= limit && (mine < l || (mine == l && Precedes(cs[p], Candidate(workers[i], i))))
    {
      var k :| 0 <= k < |cs| && cs[k] == Candidate(workers[i], i);
      assert lens[k] == lengths[workers[i].id] && lens[p] == lengths[cs[p].worker.id];
      hide Chosen, InOrder, Precedes, From, Affordable;
      ChosenBeats(cs, lens, limit, p, k);
    }
  }

  lemma ChosenBeats(cs: seq<Candidate>, lens: seq<nat>, limit: nat, p: nat, k: nat)
    requires InOrder(cs) && |lens| == |cs| && Chosen(lens, limit, p) && k < |cs| && k != p
    ensures if lens[p] < limit then lens[k] < limit ==> Precedes(cs[p], cs[k])
            else lens[k] >= limit && (lens[p] < lens[k] || (lens[p] == lens[k] && Precedes(cs[p], cs[k])))
  {}

  lemma RightIsChosen(workers: seq<Worker>, maxCost: Option<real>, lengths: map<nat, nat>, limit: nat,
                      cs: seq<Candidate>,
                      lens: seq<nat>, p: nat)
    requires forall w :: w in workers ==> w.id in lengths
    requires cs == WithinCost(SortByCost(workers), maxCost) && p < |cs| && |lens| == |cs|
    requires forall k :: 0 <= k < |cs| ==> cs[k].worker.id in lengths && lens[k] == lengths[cs[k].worker.id]
    requires Right(workers, maxCost, lengths, limit, cs[p])
    ensures Chosen(lens, limit, p)
  {
    AllCandidates(workers, maxCost, cs);
    SortedByCost(workers);
    WithinKeepsOrder(SortByCost(workers), maxCost);
    forall i | 0 <= i < |lens| && i != p
      ensures lens[p] < limit ==> i < p ==> lens[i] >= limit
      ensures lens[p] >= limit ==> lens[i] >= lens[p] && (i < p ==> lens[i] > lens[p])
    {
      assert workers[cs[i].place] == cs[i].worker;
      assert cs[i].place != cs[p].place by {
        assert Precedes(cs[i], cs[p]) || Precedes(cs[p], cs[i]);
      }
    }
  }

  /** Right among the workers as found is what Chosen says of the lengths in cost order. */
  lemma RightExactlyChosen(workers: seq<Worker>, maxCost: Option<real>, lengths: map<nat, nat>, limit: nat,
                           cs: seq<Candidate>, lens: seq<nat>, p: nat)
    requires forall w :: w in workers ==> w.id in lengths
    requires cs == WithinCost(SortByCost(workers), maxCost) && p < |cs| && |lens| == |cs|
    requires forall k :: 0 <= k < |cs| ==> cs[k].worker.id in lengths && lens[k] == lengths[cs[k].worker.id]
    ensures Right(workers, maxCost, lengths, limit, cs[p]) <==> Chosen(lens, limit, p)
  {
    hide WithinCost, SortByCost, Right, Chosen;
    if Right(workers, maxCost, lengths, limit, cs[p]) {
      RightIsChosen(workers, maxCost, lengths, limit, cs, lens, p);
    } else if Chosen(lens, limit, p) {
      ChosenIsRight(workers, maxCost, lengths, limit, cs, lens, p);
    }
  }

  lemma ChosenIsUnique(lens: seq<nat>, limit: nat, p: nat, q: nat)
    requires Chosen(lens, limit, p) && Chosen(lens, limit, q)
    ensures p == q
  {}

  ghost predicate Dispatched(lens: seq<nat>, limit: nat, lens': seq<nat>) {
    exists p: nat :: Chosen(lens, limit, p) && lens' == lens[p := lens[p] + 1]
  }

  lemma DispatchedTo(lens: seq<nat>, limit: nat, lens': seq<nat>, p: nat)
    requires Dispatched(lens, limit, lens') && Chosen(lens, limit, p)
    ensures lens' == lens[p := lens[p] + 1]
  {
    var q: nat :| Chosen(lens, limit, q) && lens' == lens[q := lens[q] + 1];
    ChosenIsUnique(lens, limit, p, q);
  }

  ghost predicate Dequeued(lens: seq<nat>, lens': seq<nat>) {
    exists i: nat :: i < |lens| && lens[i] > 0 && lens' == lens[i := (lens[i] - 1) as nat]
  }

  /** The load of the i-th cheapest of k workers after n dispatches: up to k times the limit the
      workers fill one after another; what is beyond goes round. */
  function Load(n: nat, k: nat, limit: nat, i: nat): nat
    requires i < k
  {
    if n <= k * limit then Filled(n, limit, i)
    else
      var m := n - k * limit;
      limit + m / k + if i < m % k then 1 else 0
  }

  /** What is left of n for the i-th bucket of the given size. */
  function Filled(n: nat, limit: nat, i: nat): nat {
    if n <= i * limit then 0 else if n <= (i + 1) * limit then n - i * limit else limit
  }

  function Loads(n: nat, k: nat, limit: nat): seq<nat> { seq(k, i requires 0 <= i < k => Load(n, k, limit, i)) }

  lemma Times(i: nat, j: nat, limit: nat)
    requires i < j
    ensures i * limit + limit <= j * limit
  {
    assert j * limit == i * limit + (j - i) * limit;
    assert (j - i) * limit == limit + (j - i - 1) * limit;
  }

  lemma FilledOther(n: nat, limit: nat, p: nat, i: nat)
    requires p * limit <= n < p * limit + limit && i != p
    ensures Filled(n, limit, i) == Filled(n + 1, limit, i) == if i < p then limit else 0
  {
    if i < p { Times(i, p, limit); } else { Times(p, i, limit); }
    assert (i + 1) * limit == i * limit + limit;
  }

  lemma FilledOwn(n: nat, limit: nat, p: nat)
    requires p * limit <= n < p * limit + limit
    ensures Filled(n, limit, p) == n - p * limit && Filled(n + 1, limit, p) == n + 1 - p * limit
  {
    assert (p + 1) * limit == p * limit + limit;
  }

  lemma Bucket(n: nat, k: nat, limit: nat)
    requires n < k * limit
    ensures limit > 0 && n / limit < k && (n / limit) * limit <= n < (n / limit) * limit + limit
  {
    assert n == limit * (n / limit) + n % limit;
    if k <= n / limit {
      if k < n / limit { Times(k, n / limit, limit); }
      assert false;
    }
  }

  /** Below saturation the next task goes to bucket n / limit. */
  lemma FillingNext(n: nat, k: nat, limit: nat)
    requires k > 0 && n < k * limit
    ensures limit > 0 && n / limit < k
    ensures var p := n / limit;
      && Chosen(Loads(n, k, limit), limit, p)
      && Loads(n + 1, k, limit) == Loads(n, k, limit)[p := Load(n, k, limit, p) + 1]
  {
    Bucket(n, k, limit);
    var p := n / limit;
    FilledOwn(n, limit, p);
    var room := n - p * limit;
    assert 0 <= room < limit;
    assert n + 1 <= k * limit;
    BelowSaturation(n, k, limit, p);
    BelowSaturation(n + 1, k, limit, p);
    hide Filled, Load;
    forall i | 0 <= i < k && i != p
      ensures Load(n, k, limit, i) == Load(n + 1, k, limit, i) == if i < p then limit else 0
    {
      FilledOther(n, limit, p, i);
      BelowSaturation(n, k, limit, i);
      BelowSaturation(n + 1, k, limit, i);
    }
  }

  lemma BelowSaturation(n: nat, k: nat, limit: nat, i: nat)
    requires n <= k * limit && i < k
    ensures Load(n, k, limit, i) == Filled(n, limit, i)
  {}

  lemma DivStep(m: nat, k: nat)
    requires k > 0
    ensures if m % k + 1 < k then (m + 1) / k == m / k && (m + 1) % k == m % k + 1
            else (m + 1) / k == m / k + 1 && (m + 1) % k == 0
  {
    assert m == k * (m / k) + m % k;
    if m % k + 1 < k {
      DivUnique(m + 1, k, m / k, m % k + 1);
    } else {
      DivUnique(m + 1, k, m / k + 1, 0);
    }
  }

  lemma DivUnique(m: nat, k: nat, q: nat, r: nat)
    requires k > 0 && m == k * q + r && r < k
    ensures m / k == q && m % k == r
  {
    var q', r' := m / k, m % k;
    assert m == k * q' + r';
    assert k * q' == q' * k && k * q == q * k;
    if q' < q {
      Times(q', q, k);
    } else if q < q' {
      Times(q, q', k);
    }
  }

  /** From saturation on the next task goes round. */
  lemma BalancingNext(n: nat, k: nat, limit: nat, m: nat)
    requires k > 0 && n == k * limit + m
    ensures var p := m % k;
      && Chosen(Loads(n, k, limit), limit, p)
      && Loads(n + 1, k, limit) == Loads(n, k, limit)[p := Load(n, k, limit, p) + 1]
  {
    var p, base := m % k, limit + m / k;
    forall i | 0 <= i < k
      ensures Load(n, k, limit, i) == base + if i < p then 1 else 0
      ensures Load(n + 1, k, limit, i) == base + if i <= p then 1 else 0
    {
      AboveSaturation(n, k, limit, m, i);
      OneMore(n, k, limit, m, i);
    }
    hide Load;
  }

  lemma OneMore(n: nat, k: nat, limit: nat, m: nat, i: nat)
    requires n == k * limit + m && i < k
    ensures Load(n + 1, k, limit, i) == limit + m / k + if i <= m % k then 1 else 0
  {
    AboveSaturation(n + 1, k, limit, m + 1, i);
    DivStep(m, k);
    hide Load;
  }

  lemma AboveSaturation(n: nat, k: nat, limit: nat, m: nat, i: nat)
    requires n == k * limit + m && i < k
    ensures Load(n, k, limit, i) == limit + m / k + if i < m % k then 1 else 0
  {
    if m == 0 {
      FilledUp(k, limit, i);
      DivUnique(0, k, 0, 0);
    }
  }

  lemma FilledUp(k: nat, limit: nat, i: nat)
    requires i < k
    ensures Filled(k * limit, limit, i) == limit
  {
    if i + 1 < k { Times(i + 1, k, limit); }
    assert (i + 1) * limit == i * limit + limit;
  }

  ghost predicate IsFill(run: seq<seq<nat>>, k: nat, limit: nat) {
    && |run| > 0 && run[0] == seq(k, i => 0)
    && forall t :: 0 <= t < |run| - 1 ==> Dispatched(run[t], limit, run[t + 1])
  }

  lemma NoLoad(k: nat, limit: nat)
    ensures Loads(0, k, limit) == seq(k, i => 0)
  {
    forall i | 0 <= i < k ensures Load(0, k, limit, i) == 0 {}
  }

  /** The worker that gets task number n, counted from 0. */
  function Target(n: nat, k: nat, limit: nat): nat
    requires k > 0
  {
    if limit > 0 && n < k * limit then n / limit else (n - k * limit) % k
  }

  lemma LoadsNext(n: nat, k: nat, limit: nat)
    requires k > 0
    ensures var p := Target(n, k, limit);
      && p < k && Chosen(Loads(n, k, limit), limit, p)
      && Loads(n + 1, k, limit) == Loads(n, k, limit)[p := Load(n, k, limit, p) + 1]
  {
    hide Chosen, Loads, Load;
    if n < k * limit { FillingNext(n, k, limit); } else { BalancingNext(n, k, limit, n - k * limit); }
  }

  /** n dispatches to k workers with empty queues give exactly the loads of the formula. */
  lemma {:induction false} FillsInCostOrder(run: seq<seq<nat>>, k: nat, limit: nat, n: nat)
    requires k > 0 && IsFill(run, k, limit) && n < |run|
    ensures run[n] == Loads(n, k, limit)
  {
    if n == 0 {
      NoLoad(k, limit);
    } else {
      FillsInCostOrder(run, k, limit, n - 1);
      LoadsNext(n - 1, k, limit);
      var p := Target(n - 1, k, limit);
      assert Loads(n - 1, k, limit)[p] == Load(n - 1, k, limit, p);
      hide Chosen, Load, Loads, Target;
      assert Dispatched(run[n - 1], limit, run[n - 1 + 1]);
      hide Dispatched, IsFill;
      DispatchedTo(run[n - 1], limit, run[n], p);
    }
  }

  /** And such a sequence of dispatches there is, of any length. */
  lemma LoadsAreAFill(k: nat, limit: nat, n: nat) returns (run: seq<seq<nat>>)
    requires k > 0
    ensures |run| == n + 1 && IsFill(run, k, limit)
  {
    run := seq(n + 1, t requires 0 <= t <= n => Loads(t, k, limit));
    NoLoad(k, limit);
    forall t | 0 <= t < n ensures Dispatched(run[t], limit, run[t + 1]) {
      LoadsNext(t, k, limit);
      hide Chosen, Load;
      var p := Target(t, k, limit);
      assert Loads(t, k, limit)[p] == Load(t, k, limit, p);
      assert Chosen(run[t], limit, p) && run[t + 1] == run[t][p := run[t][p] + 1];
    }
  }

  /** Once all have reached the limit the queues differ by at most one task. */
  lemma BalancedAfterSaturation(run: seq<seq<nat>>, k: nat, limit: nat, n: nat, i: nat, j: nat)
    requires k > 0 && IsFill(run, k, limit) && k * limit <= n < |run| && i < k && j < k
    ensures |run[n]| == k && run[n][i] >= limit && run[n][i] <= run[n][j] + 1
  {
    FillsInCostOrder(run, k, limit, n);
    if n == k * limit {
      FilledUp(k, limit, i);
      FilledUp(k, limit, j);
    }
  }

  /** A run in which workers take tasks whenever they like. */
  ghost predicate IsLoadRun(run: seq<seq<nat>>, limit: nat) {
    && |run| > 0 && (forall i :: 0 <= i < |run[0]| ==> run[0][i] <= limit)
    && forall t :: 0 <= t < |run| - 1 ==> Dispatched(run[t], limit, run[t + 1]) || Dequeued(run[t], run[t + 1])
  }

  ghost predicate AllAtLeast(lens: seq<nat>, h: nat) { forall i :: 0 <= i < |lens| ==> lens[i] >= h }

  /** A queue is longer than the limit only because at some moment all queues had reached the
      limit and were, but for the new task, as long as it. */
  lemma {:induction false} TallOnlyWhenAllAre(run: seq<seq<nat>>, limit: nat, n: nat, i: nat, h: nat) returns (t: nat)
    requires IsLoadRun(run, limit) && n < |run| && i < |run[n]| && limit < h <= run[n][i]
    ensures t < n && AllAtLeast(run[t], h - 1) && h - 1 >= limit
  {
    assert n > 0;
    if i < |run[n - 1]| && run[n - 1][i] >= h {
      t := TallOnlyWhenAllAre(run, limit, n - 1, i, h);
    } else {
      t := n - 1;
      assert Dispatched(run[t], limit, run[n]) || Dequeued(run[t], run[n]);
      var p: nat :| Chosen(run[t], limit, p) && run[n] == run[t][p := run[t][p] + 1];
    }
  }
}
