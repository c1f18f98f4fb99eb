/** A worker's reputation: rewarded and penalised task by task, and pulled towards its success
    rate by a periodic recalculation. Floats are modelled as reals; the rounding to four
    decimals, half to even, is written out. */
module Reputation {
  type WorkerId = nat

  function Min(a: real, b: real): real { if b < a then b else a }

  function Max(a: real, b: real): real { if b > a then b else a }

  function Abs(a: real): real { if a < 0.0 then -a else a }

  function Clamp(x: real): real { Max(0.1, Min(1.0, x)) }

  /** Python's round(x, 4). */
  function Round4(x: real): real {
    var y := x * 10000.0;
    var f := y.Floor;
    var d := y - f as real;
    (if d < 0.5 || (d == 0.5 && f % 2 == 0) then f else f + 1) as real / 10000.0
  }

  lemma RoundIsNear(x: real)
    ensures Abs(Round4(x) - x) <= 0.00005
  {
    var y := x * 10000.0;
    var n := Round4(x) * 10000.0;
    assert -0.5 <= n - y <= 0.5;
    assert Round4(x) - x == (n - y) / 10000.0;
  }

  lemma RoundKeepsBounds(x: real)
    requires 0.1 <= x <= 1.0
    ensures 0.1 <= Round4(x) <= 1.0
  {
    var y := x * 10000.0;
    assert 1000.0 <= y <= 10000.0;
    assert y.Floor >= 1000;
    var n := Round4(x) * 10000.0;
    assert 1000.0 <= n <= 10000.0;
  }

  /** The events of the history window. */
  datatype History = History(successful: nat, total: nat)

  predicate Consistent(h: History) { h.successful <= h.total }

  function Rate(h: History): real
    requires h.total > 0
  {
    h.successful as real / h.total as real
  }

  lemma RateInRange(h: History)
    requires h.total > 0 && Consistent(h)
    ensures 0.0 <= Rate(h) <= 1.0
  {}

  /** `_calculate_single_worker_reputation` before rounding. */
  function Blend(rate: real, current: real): real { Clamp(rate * 0.7 + current * 0.3) }

  function Recalculated(rate: real, current: real): real { Round4(Blend(rate, current)) }

  function Rewarded(current: real, reward: real): real {
    if reward > 0.0 then Min(1.0, current + reward) else current
  }

  function Penalised(current: real, penalty: real): real { Max(0.0, current - penalty) }

  // ---------------------------------------------------------------- bounds

  datatype Change = Reward(amount: real) | Penalty(amount: real) | Recalculation(history: History)

  function Apply(current: real, change: Change): real {
    match change
    case Reward(a) => Rewarded(current, a)
    case Penalty(a) => Penalised(current, a)
    case Recalculation(h) => if h.total > 0 then Recalculated(Rate(h), current) else current
  }

  function After(start: real, changes: seq<Change>): real {
    if |changes| == 0 then start else Apply(After(start, changes[..|changes| - 1]), changes[|changes| - 1])
  }

  predicate InUnit(x: real) { 0.0 <= x <= 1.0 }

  /** Under any mix of changes the reputation stays in [0, 1]. */
  lemma {:induction false} StaysInUnit(start: real, changes: seq<Change>)
    requires InUnit(start) && forall c :: c in changes ==> c.Penalty? ==> c.amount >= 0.0
    ensures InUnit(After(start, changes))
  {
    if |changes| > 0 {
      var last := changes[|changes| - 1];
      assert last in changes;
      StaysInUnit(start, changes[..|changes| - 1]);
      if last.Recalculation? && last.history.total > 0 {
        RoundKeepsBounds(Blend(Rate(last.history), After(start, changes[..|changes| - 1])));
      }
    }
  }

  /** Rewards are guarded by their sign and penalties are not: a penalty keeps every reputation
      in range if and only if it is not negative. */
  lemma PenaltyInRangeExactly(penalty: real)
    ensures (forall current :: InUnit(current) ==> InUnit(Penalised(current, penalty))) <==> penalty >= 0.0
  {
    if penalty < 0.0 {
      assert InUnit(1.0) && !InUnit(Penalised(1.0, penalty));
    }
  }

  // ---------------------------------------------------------------- convergence

  function Power(k: nat): real { if k == 0 then 1.0 else 0.3 * Power(k - 1) }

  /** k recalculations with the same success rate. */
  function Repeated(rate: real, start: real, k: nat): real {
    if k == 0 then start else Recalculated(rate, Repeated(rate, start, k - 1))
  }

  /** Without rounding a recalculation leaves three tenths of the distance to the goal. */
  lemma BlendContracts(rate: real, current: real)
    requires InUnit(rate) && InUnit(current)
    ensures Abs(Blend(rate, current) - Clamp(rate)) <= 0.3 * Abs(current - Clamp(rate))
  {}

  lemma RecalculationContracts(rate: real, current: real)
    requires InUnit(rate) && InUnit(current)
    ensures Abs(Recalculated(rate, current) - Clamp(rate)) <= 0.3 * Abs(current - Clamp(rate)) + 0.00005
    ensures InUnit(Recalculated(rate, current))
  {
    BlendContracts(rate, current);
    RoundIsNear(Blend(rate, current));
    RoundKeepsBounds(Blend(rate, current));
    hide Round4, Blend;
  }

  const ROUNDING: real := 0.00005 / 0.7

  /** The rounding that k recalculations accumulate. */
  function Accumulated(k: nat): real { if k == 0 then 0.0 else 0.3 * Accumulated(k - 1) + 0.00005 }

  lemma {:induction false} AccumulatedBound(k: nat)
    ensures 0.0 <= Accumulated(k) <= ROUNDING
  {
    if k > 0 {
      AccumulatedBound(k - 1);
    }
  }

  lemma {:induction false} ErrorAfter(rate: real, start: real, k: nat)
    requires InUnit(rate) && InUnit(start)
    ensures InUnit(Repeated(rate, start, k))
    ensures Abs(Repeated(rate, start, k) - Clamp(rate)) <= Power(k) + Accumulated(k)
  {
    if k > 0 {
      ErrorAfter(rate, start, k - 1);
      RecalculationContracts(rate, Repeated(rate, start, k - 1));
      hide Recalculated, Clamp, Abs;
    }
  }

  /** k recalculations at success rate s bring the reputation within 0.3^k, plus at most
      0.00005/0.7 of rounding, of s clamped to [0.1, 1]. */
  lemma Converges(h: History, start: real, k: nat)
    requires h.total > 0 && Consistent(h) && InUnit(start)
    ensures Abs(Repeated(Rate(h), start, k) - Clamp(Rate(h))) <= Power(k) + ROUNDING
  {
    RateInRange(h);
    ErrorAfter(Rate(h), start, k);
    AccumulatedBound(k);
  }

  // ---------------------------------------------------------------- the stored values

  /** The reputations in the worker records; a record without one counts as 1. */
  class ReputationStore {
    var workers: set<WorkerId>
    var stored: map<WorkerId, real>

    constructor (workers: set<WorkerId>)
      ensures this.workers == workers && stored == map[]
    {
      this.workers, stored := workers, map[];
    }

    function Of(w: WorkerId): real
      reads this
    {
      if w in stored then stored[w] else 1.0
    }

    predicate Valid()
      reads this
    {
      forall w :: w in stored ==> InUnit(stored[w])
    }

    /** A successful task. */
    method RewardSuccess(w: WorkerId, reward: real)
      requires Valid()
      modifies this`stored
      ensures Valid()
      ensures Of(w) == if w in workers then Apply(old(Of(w)), Reward(reward)) else old(Of(w))
      ensures w in workers && reward > 0.0 ==>
        Of(w) == if old(Of(w)) + reward <= 1.0 then old(Of(w)) + reward else 1.0
      ensures w !in workers || reward <= 0.0 ==> Of(w) == old(Of(w))
      ensures forall v :: v != w ==> Of(v) == old(Of(v))
    {
      if reward > 0.0 && w in workers {
        stored := stored[w := Min(1.0, Of(w) + reward)];
      }
    }

    /** A failed task or a violated contract. */
    method Penalise(w: WorkerId, penalty: real)
      requires Valid()
      modifies this`stored
      ensures penalty >= 0.0 ==> Valid()
      ensures Of(w) == if w in workers then Apply(old(Of(w)), Penalty(penalty)) else old(Of(w))
      ensures w in workers ==> Of(w) == if old(Of(w)) - penalty >= 0.0 then old(Of(w)) - penalty else 0.0
      ensures forall v :: v != w ==> Of(v) == old(Of(v))
    {
      if w in workers {
        stored := stored[w := Max(0.0, Of(w) - penalty)];
      }
    }

    method Recalculate(w: WorkerId, h: History)
      requires Valid() && Consistent(h)
      modifies this`stored
      ensures Valid()
      ensures Of(w) == if w in workers then Apply(old(Of(w)), Recalculation(h)) else old(Of(w))
      // Seven tenths of the success rate and three of what was, kept in [0.1, 1] and rounded.
      ensures h.total > 0 && w in workers ==>
        var x := 0.7 * (h.successful as real / h.total as real) + 0.3 * old(Of(w));
        var y := if x < 0.1 then 0.1 else if x > 1.0 then 1.0 else x;
        -0.00005 <= Of(w) - y <= 0.00005 && (Of(w) * 10000.0).Floor as real == Of(w) * 10000.0
      ensures forall v :: v != w ==> Of(v) == old(Of(v))
    {
      if h.total == 0 || w !in workers { return; }
      RoundKeepsBounds(Blend(Rate(h), Of(w)));
      RoundIsNear(Blend(Rate(h), Of(w)));
      stored := stored[w := Round4(Clamp(Rate(h) * 0.7 + Of(w) * 0.3))];
    }

    /** `calculate_all_reputations`: in chunks of twenty, each active worker once. */
    method RecalculateAll(active: seq<WorkerId>, histories: map<WorkerId, History>)
      requires Valid() && (forall w :: w in active ==> w in histories && Consistent(histories[w]))
      requires forall i, k :: 0 <= i < k < |active| ==> active[i] != active[k]
      modifies this`stored
      ensures Valid()
      ensures forall w :: Of(w) == if w in active && w in workers
                                   then Apply(old(Of(w)), Recalculation(histories[w])) else old(Of(w))
    {
      var i := 0;
      while i < |active|
        invariant i <= |active| && Valid()
        invariant forall w :: Of(w) == if w in active[..i] && w in workers
                                       then Apply(old(Of(w)), Recalculation(histories[w])) else old(Of(w))
      {
        var end := if i + 20 < |active| then i + 20 else |active|;
        RecalculateChunk(active, i, end, histories);
        i := end;
      }
      assert active[..|active|] == active;
    }

    method RecalculateChunk(active: seq<WorkerId>, from: nat, end: nat, histories: map<WorkerId, History>)
      requires Valid() && from <= end <= |active|
          && (forall w :: w in active ==> w in histories && Consistent(histories[w]))
      requires forall i, k :: 0 <= i < k < |active| ==> active[i] != active[k]
      modifies this`stored
      ensures Valid()
      ensures forall w :: Of(w) == if w in active[from..end] && w in workers
                                   then Apply(old(Of(w)), Recalculation(histories[w])) else old(Of(w))
    {
      for i := from to end
        invariant Valid()
        invariant forall w :: Of(w) == if w in active[from..i] && w in workers
                                       then Apply(old(Of(w)), Recalculation(histories[w])) else old(Of(w))
      {
        assert active[from..i + 1] == active[from..i] + [active[i]];
        Recalculate(active[i], histories[active[i]]);
      }
    }
  }
}
