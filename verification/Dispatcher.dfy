/** How the dispatcher chooses a worker: warm workers before others, then the filters for
    compliance, cost and reputation, each with its own error, then the strategy. */
module Dispatcher {
  import opened Basics
  import opened Overflow

  datatype Strategy = Default | RoundRobin | LeastConnections | Cheapest | BestValue | OverflowFill

  datatype DispatchError = NoWorkers | NotCompliant | TooExpensive | Untrusted

  datatype Selection = Selected(worker: Worker) | Refused(error: DispatchError)

  // ---------------------------------------------------------------- the strategies

  /** Python's min over a key: the first of the smallest; None is infinity. */
  function ArgMin(keys: seq<Option<real>>): (r: nat)
    requires keys != []
    ensures r < |keys|
    ensures forall k :: 0 <= k < |keys| ==> !CostBelow(keys[k], keys[r])
    ensures forall k :: 0 <= k < r ==> CostBelow(keys[r], keys[k])
  {
    var n := |keys| - 1;
    if n == 0 then 0
    else
      var best := ArgMin(keys[..n]);
      if CostBelow(keys[n], keys[best]) then n else best
  }

  function Costs(ws: seq<Worker>): seq<Option<real>> { seq(|ws|, i requires 0 <= i < |ws| => ws[i].cost) }

  /** `_get_best_value_score`. */
  function Score(w: Worker): Option<real> {
    if w.reputation == 0.0 || w.cost.None? then None else Some(w.cost.value / w.reputation)
  }

  function SelectCheapest(ws: seq<Worker>): Worker
    requires ws != []
  {
    ws[ArgMin(Costs(ws))]
  }

  function SelectLeastConnections(ws: seq<Worker>): Worker
    requires ws != []
  {
    ws[ArgMin(seq(|ws|, i requires 0 <= i < |ws| => Some(ws[i].load as real)))]
  }

  function SelectBestValue(ws: seq<Worker>): Worker
    requires ws != []
  {
    ws[ArgMin(seq(|ws|, i requires 0 <= i < |ws| => Score(ws[i])))]
  }

  function HotOnes(ws: seq<Worker>): (r: seq<Worker>)
    ensures forall w :: w in r <==> w in ws && w.hot
  {
    if |ws| == 0 then []
    else
      assert ws == [ws[0]] + ws[1..];
      (if ws[0].hot then [ws[0]] else []) + HotOnes(ws[1..])
  }

  function WithCost(ws: seq<Worker>, cost: Option<real>): (r: seq<Worker>)
    ensures forall w :: w in r <==> w in ws && w.cost == cost
  {
    if |ws| == 0 then []
    else
      assert ws == [ws[0]] + ws[1..];
      (if ws[0].cost == cost then [ws[0]] else []) + WithCost(ws[1..], cost)
  }

  /** `_select_default`: the warm ones if there are any, the cheapest of those, the most reputed of those. */
  function SelectDefault(ws: seq<Worker>): Worker
    requires ws != []
  {
    var pool := if HotOnes(ws) != [] then HotOnes(ws) else ws;
    var cheapest := WithCost(pool, SelectCheapest(pool).cost);
    assert SelectCheapest(pool) in cheapest;
    cheapest[ArgMin(seq(|cheapest|, i requires 0 <= i < |cheapest| => Some(-cheapest[i].reputation)))]
  }

  /** What each strategy promises about its choice among the workers that passed the filters. */
  ghost predicate Fits(strategy: Strategy, ws: seq<Worker>, w: Worker, turn: nat, maxCost: Option<real>,
                       lengths: map<nat, nat>, limit: nat)
    requires ws != [] && forall v :: v in ws ==> v.id in lengths
  {
    w in ws &&
    match strategy
    case Default =>
      && ((exists v :: v in ws && v.hot) ==> w.hot)
      && forall v :: v in ws && (w.hot ==> v.hot) ==>
           && (v.cost.Some? ==> w.cost.Some? && w.cost.value <= v.cost.value)
           && (v.cost == w.cost ==> v.reputation <= w.reputation)
    case RoundRobin => w == ws[turn % |ws|]
    case LeastConnections => forall v :: v in ws ==> w.load <= v.load
    case Cheapest => forall v :: v in ws ==> v.cost.Some? ==> w.cost.Some? && w.cost.value <= v.cost.value
    case BestValue =>
      && (forall v :: v in ws ==> !CostBelow(Score(v), Score(w)))
      && (forall v :: v in ws && v.cost.Some? && v.reputation != 0.0 ==> w.cost.Some? && w.reputation != 0.0)
      && (forall v :: v in ws && v.cost.Some? && v.reputation > 0.0 && w.reputation > 0.0 ==>
            w.cost.value * v.reputation <= v.cost.value * w.reputation)
    case OverflowFill =>
      // Of those within the cost, the cheapest with room; or, with no room anywhere, the cheapest
      // of the shortest queues.
      && (exists place: nat :: Right(ws, maxCost, lengths, limit, Candidate(w, place)))
      && (maxCost.Some? ==> w.cost.Some? && w.cost.value <= maxCost.value)
      && forall v :: v in ws && (maxCost.Some? ==> v.cost.Some? && v.cost.value <= maxCost.value) ==>
           if lengths[w.id] < limit
           then lengths[v.id] < limit && v.cost.Some? ==> w.cost.Some? && w.cost.value <= v.cost.value
           else lengths[v.id] >= limit && lengths[w.id] <= lengths[v.id]
                && (lengths[w.id] == lengths[v.id] && v.cost.Some? ==> w.cost.Some? && w.cost.value <= v.cost.value)
  }

  lemma CheapestFits(ws: seq<Worker>)
    requires ws != []
    ensures var w := SelectCheapest(ws);
      w in ws && forall v :: v in ws ==> v.cost.Some? ==> w.cost.Some? && w.cost.value <= v.cost.value
  {
    forall v | v in ws ensures !CostBelow(v.cost, SelectCheapest(ws).cost) {
      var k :| 0 <= k < |ws| && ws[k] == v;
      assert Costs(ws)[k] == v.cost;
    }
  }

  lemma LeastConnectionsFits(ws: seq<Worker>)
    requires ws != []
    ensures SelectLeastConnections(ws) in ws && forall v :: v in ws ==> SelectLeastConnections(ws).load <= v.load
  {
    var keys := seq(|ws|, i requires 0 <= i < |ws| => Some(ws[i].load as real));
    forall v | v in ws ensures SelectLeastConnections(ws).load <= v.load {
      var k :| 0 <= k < |ws| && ws[k] == v;
      assert !CostBelow(keys[k], keys[ArgMin(keys)]);
    }
  }

  lemma BestValueFits(ws: seq<Worker>)
    requires ws != []
    ensures var w := SelectBestValue(ws);
      && w in ws && (forall v :: v in ws ==> !CostBelow(Score(v), Score(w)))
      && (forall v :: v in ws && v.cost.Some? && v.reputation != 0.0 ==> w.cost.Some? && w.reputation != 0.0)
      && (forall v :: v in ws && v.cost.Some? && v.reputation > 0.0 && w.reputation > 0.0 ==>
            w.cost.value * v.reputation <= v.cost.value * w.reputation)
  {
    var w := SelectBestValue(ws);
    BestScore(ws);
    forall v | v in ws && v.cost.Some? && v.reputation != 0.0 ensures w.cost.Some? && w.reputation != 0.0 {
      assert !CostBelow(Score(v), Score(w));
    }
    forall v | v in ws && v.cost.Some? && v.reputation > 0.0 && w.reputation > 0.0
      ensures w.cost.value * v.reputation <= v.cost.value * w.reputation
    {
      assert !CostBelow(Score(v), Score(w));
      CrossMultiplied(w.cost.value, w.reputation, v.cost.value, v.reputation);
    }
  }

  lemma CrossMultiplied(a: real, b: real, c: real, d: real)
    requires b > 0.0 && d > 0.0 && a / b <= c / d
    ensures a * d <= c * b
  {
    var x, y := a / b, c / d;
    assert a == x * b && c == y * d;
    Widened(x, y, b * d);
    assert a * d == x * (b * d) && c * b == y * (b * d);
  }

  lemma Widened(x: real, y: real, k: real)
    requires x <= y && k > 0.0
    ensures x * k <= y * k
  {}

  lemma BestScore(ws: seq<Worker>)
    requires ws != []
    ensures SelectBestValue(ws) in ws && forall v :: v in ws ==> !CostBelow(Score(v), Score(SelectBestValue(ws)))
  {
    var keys := seq(|ws|, i requires 0 <= i < |ws| => Score(ws[i]));
    forall v | v in ws ensures !CostBelow(Score(v), Score(SelectBestValue(ws))) {
      var k :| 0 <= k < |ws| && ws[k] == v;
      assert !CostBelow(keys[k], keys[ArgMin(keys)]);
    }
  }

  lemma DefaultFits(ws: seq<Worker>)
    requires ws != []
    ensures var w := SelectDefault(ws);
      && w in ws && ((exists v :: v in ws && v.hot) ==> w.hot)
      && forall v :: v in ws && (w.hot ==> v.hot) ==>
           && (v.cost.Some? ==> w.cost.Some? && w.cost.value <= v.cost.value)
           && (v.cost == w.cost ==> v.reputation <= w.reputation)
  {
    var pool := if HotOnes(ws) != [] then HotOnes(ws) else ws;
    CheapestFits(pool);
    var least := SelectCheapest(pool).cost;
    var cheapest := WithCost(pool, least);
    var keys := seq(|cheapest|, i requires 0 <= i < |cheapest| => Some(-cheapest[i].reputation));
    var w := SelectDefault(ws);
    assert SelectCheapest(pool) in cheapest;
    assert w == cheapest[ArgMin(keys)];
    assert w in pool && w.cost == least;
    if v :| v in ws && v.hot {
      assert v in HotOnes(ws);
    }
    forall v | v in ws && (w.hot ==> v.hot)
      ensures v.cost.Some? ==> w.cost.Some? && w.cost.value <= v.cost.value
      ensures v.cost == w.cost ==> v.reputation <= w.reputation
    {
      assert v in pool by {
        if HotOnes(ws) != [] { assert HotOnes(ws)[0] in HotOnes(ws); }
      }
      if v.cost == w.cost {
        assert v in cheapest;
        var k :| 0 <= k < |cheapest| && cheapest[k] == v;
        assert !CostBelow(keys[k], keys[ArgMin(keys)]);
      }
    }
  }

  lemma OverflowFits(ws: seq<Worker>, maxCost: Option<real>, lengths: map<nat, nat>, limit: nat, c: Candidate)
    requires ws != [] && (forall v :: v in ws ==> v.id in lengths) && Right(ws, maxCost, lengths, limit, c)
    ensures Fits(OverflowFill, ws, c.worker, 0, maxCost, lengths, limit)
  {
    var w := c.worker;
    assert Candidate(w, c.place) == c;
    forall v | v in ws && (maxCost.Some? ==> v.cost.Some? && v.cost.value <= maxCost.value)
      ensures if lengths[w.id] < limit
              then lengths[v.id] < limit && v.cost.Some? ==> w.cost.Some? && w.cost.value <= v.cost.value
              else lengths[v.id] >= limit && lengths[w.id] <= lengths[v.id]
                   && (lengths[w.id] == lengths[v.id] && v.cost.Some? ==>
                         w.cost.Some? && w.cost.value <= v.cost.value)
    {
      var i :| 0 <= i < |ws| && ws[i] == v;
      assert Affordable(ws[i], maxCost);
    }
  }

  // ---------------------------------------------------------------- the filters

  /** The first n workers that comply. */
  function FirstCompliant(ws: seq<Worker>, n: nat): (r: seq<Worker>)
    ensures forall w :: w in r ==> w in ws && w.compliant
    ensures |r| < n ==> forall w :: w in ws && w.compliant ==> w in r
    ensures |r| <= n
  {
    if |ws| == 0 || n == 0 then []
    else
      assert ws == [ws[0]] + ws[1..];
      if ws[0].compliant then [ws[0]] + FirstCompliant(ws[1..], n - 1) else FirstCompliant(ws[1..], n)
  }

  lemma CompliantOne(ws: seq<Worker>, n: nat)
    requires |ws| > 0 && n > 0
    ensures FirstCompliant(ws, n)
         == if ws[0].compliant then [ws[0]] + FirstCompliant(ws[1..], n - 1) else FirstCompliant(ws[1..], n)
  {}

  lemma CompliantNone(ws: seq<Worker>, n: nat)
    requires |ws| == 0 || n == 0
    ensures FirstCompliant(ws, n) == []
  {}

  /** How many comply. */
  function Compliant(ws: seq<Worker>): nat {
    if |ws| == 0 then 0 else Compliant(ws[..|ws| - 1]) + if ws[|ws| - 1].compliant then 1 else 0
  }

  lemma {:induction false} CompliantFront(ws: seq<Worker>)
    requires |ws| > 0
    ensures Compliant(ws) == Compliant(ws[1..]) + if ws[0].compliant then 1 else 0
  {
    if |ws| > 1 {
      CompliantFront(ws[..|ws| - 1]);
      assert ws[..|ws| - 1][1..] == ws[1..][..|ws| - 2];
    }
  }

  lemma {:induction false} KeptLength(ws: seq<Worker>, n: nat)
    ensures |FirstCompliant(ws, n)| == if Compliant(ws) < n then Compliant(ws) else n
  {
    if |ws| > 0 && n > 0 {
      CompliantFront(ws);
      KeptLength(ws[1..], if ws[0].compliant then n - 1 else n);
    }
  }

  /** The k-th worker that complies is the k-th one kept, and n are kept if so many comply. */
  lemma {:induction false} KeptAreFirst(ws: seq<Worker>, n: nat, i: nat)
    requires i < |ws| && ws[i].compliant && Compliant(ws[..i]) < n
    ensures |FirstCompliant(ws, n)| == if Compliant(ws) < n then Compliant(ws) else n
    ensures Compliant(ws[..i]) < Compliant(ws) && FirstCompliant(ws, n)[Compliant(ws[..i])] == ws[i]
  {
    KeptLength(ws, n);
    CompliantBefore(ws, i);
    if i > 0 {
      CompliantFront(ws[..i]);
      assert ws[..i][1..] == ws[1..][..i - 1] && ws[1..][i - 1] == ws[i];
      KeptAreFirst(ws[1..], if ws[0].compliant then n - 1 else n, i - 1);
    }
  }

  lemma {:induction false} CompliantBefore(ws: seq<Worker>, i: nat)
    requires i < |ws| && ws[i].compliant
    ensures Compliant(ws[..i]) < Compliant(ws)
  {
    var last := |ws| - 1;
    if i < last {
      assert ws[..last][..i] == ws[..i];
      CompliantBefore(ws[..last], i);
    }
  }

  function AtLeastOne(n: int): nat { if n < 1 then 1 else n }

  ghost predicate NonePays(ws: seq<Worker>, maxCost: Option<real>) {
    maxCost.Some? && forall w :: w in ws ==> w.cost.Some? ==> w.cost.value > maxCost.value
  }

  predicate Passes(w: Worker, maxCost: Option<real>, minReputation: real) {
    (maxCost.Some? ==> w.cost.Some? && w.cost.value <= maxCost.value) && w.reputation >= minReputation
  }

  ghost predicate NonePasses(ws: seq<Worker>, maxCost: Option<real>, minReputation: real) {
    forall w :: w in ws ==> !Passes(w, maxCost, minReputation)
  }

  class Dispatcher {
    /** The cluster-wide counter of one task type. */
    var turn: nat

    constructor ()
      ensures turn == 0
    {
      turn := 0;
    }

    /** The loop over the candidates. It ends once enough of them comply, and a limit below one
        lets one through. */
    method KeepCompliant(ws: seq<Worker>, maxCandidates: int) returns (kept: seq<Worker>)
      ensures kept == FirstCompliant(ws, AtLeastOne(maxCandidates))
    {
      kept := [];
      var i := 0;
      ghost var most := AtLeastOne(maxCandidates);
      ghost var room := most;
      assert ws[0..] == ws;
      hide FirstCompliant;
      while i < |ws|
        invariant i <= |ws| && room > 0 && room == most - |kept|
        invariant FirstCompliant(ws, most) == kept + FirstCompliant(ws[i..], room)
      {
        ghost var rest := ws[i..];
        CompliantOne(rest, room);
        assert rest[1..] == ws[i + 1..] && rest[0] == ws[i];
        if ws[i].compliant {
          kept := kept + [ws[i]];
          room := room - 1;
          if |kept| >= maxCandidates {
            CompliantNone(ws[i + 1..], 0);
            return;
          }
        }
        i := i + 1;
      }
      CompliantNone(ws[i..], room);
    }

    method KeepAffordable(ws: seq<Worker>, maxCost: Option<real>) returns (kept: seq<Worker>)
      ensures forall w :: w in kept <==> w in ws && Affordable(w, maxCost)
    {
      kept := [];
      for i := 0 to |ws|
        invariant forall w :: w in kept <==> w in ws[..i] && Affordable(w, maxCost)
      {
        assert ws[..i + 1] == ws[..i] + [ws[i]];
        if Affordable(ws[i], maxCost) { kept := kept + [ws[i]]; }
      }
      assert ws[..|ws|] == ws;
    }

    method KeepTrusted(ws: seq<Worker>, minReputation: real) returns (kept: seq<Worker>)
      ensures forall w :: w in kept <==> w in ws && w.reputation >= minReputation
    {
      kept := [];
      for i := 0 to |ws|
        invariant forall w :: w in kept <==> w in ws[..i] && w.reputation >= minReputation
      {
        assert ws[..i + 1] == ws[..i] + [ws[i]];
        if ws[i].reputation >= minReputation { kept := kept + [ws[i]]; }
      }
      assert ws[..|ws|] == ws;
    }

    /** The choice made by `dispatch`. `warm` are the workers that have the skill loaded, `idle`
        those the index lists for it; the answer names the pool the strategy chose from. */
    method Select(warm: seq<Worker>, idle: seq<Worker>, maxCandidates: int, maxCost: Option<real>, minReputation: real,
                  strategy: Strategy, lengths: map<nat, nat>, limit: nat)
        returns (choice: Selection, ghost pool: seq<Worker>)
      requires forall w :: w in warm || w in idle ==> w.id in lengths
      modifies this
      ensures var capable := if warm != [] then warm else idle;
        var compliant := FirstCompliant(capable, AtLeastOne(maxCandidates));
        match choice
        case Refused(NoWorkers) => capable == []
        case Refused(NotCompliant) => capable != [] && forall w :: w in capable ==> !w.compliant
        case Refused(TooExpensive) => compliant != [] && NonePays(compliant, maxCost)
        case Refused(Untrusted) => !NonePays(compliant, maxCost) && NonePasses(compliant, maxCost, minReputation)
        case Selected(w) =>
          && (forall v :: v in pool <==> v in compliant && Passes(v, maxCost, minReputation))
          && pool != [] && (forall v :: v in pool ==> v.id in lengths)
          && Fits(strategy, pool, w, turn, maxCost, lengths, limit)
      ensures turn == old(turn) + if choice.Selected? && strategy.RoundRobin? then 1 else 0
    {
      pool := [];
      var capable := if warm != [] then warm else idle;
      if capable == [] { return Refused(NoWorkers), pool; }
      var compliant := KeepCompliant(capable, maxCandidates);
      if compliant == [] { return Refused(NotCompliant), pool; }
      var affordable := KeepAffordable(compliant, maxCost);
      assert compliant[0] in compliant && (compliant[0] in affordable <==> Affordable(compliant[0], maxCost));
      if affordable == [] { return Refused(TooExpensive), pool; }
      assert affordable[0] in affordable;
      var trusted := KeepTrusted(affordable, minReputation);
      if trusted == [] {
        assert forall w :: w in affordable ==> w.reputation < minReputation;
        return Refused(Untrusted), pool;
      }
      pool := trusted;
      var w := Choose(strategy, trusted, maxCost, lengths, limit);
      choice := Selected(w);
    }

    method Choose(strategy: Strategy, ws: seq<Worker>, maxCost: Option<real>, lengths: map<nat, nat>, limit: nat)
        returns (w: Worker)
      requires ws != [] && forall v :: v in ws ==> v.id in lengths && Affordable(v, maxCost)
      modifies this
      ensures Fits(strategy, ws, w, turn, maxCost, lengths, limit)
      ensures turn == old(turn) + if strategy.RoundRobin? then 1 else 0
    {
      match strategy
      case Default =>
        DefaultFits(ws);
        w := SelectDefault(ws);
      case RoundRobin =>
        turn := turn + 1;
        w := ws[turn % |ws|];
      case LeastConnections =>
        LeastConnectionsFits(ws);
        w := SelectLeastConnections(ws);
      case Cheapest =>
        CheapestFits(ws);
        w := SelectCheapest(ws);
      case BestValue =>
        BestValueFits(ws);
        w := SelectBestValue(ws);
      case OverflowFill =>
        var c := SelectOverflow(ws, maxCost, lengths, limit);
        assert Affordable(ws[0], maxCost);
        w := c.value.worker;
        OverflowFits(ws, maxCost, lengths, limit, c.value);
    }
  }

  // ---------------------------------------------------------------- round robin

  lemma SameResidue(k: nat, a: nat, b: nat)
    requires k > 0 && a % k == b % k && a <= b < a + k
    ensures a == b
  {
    assert a == k * (a / k) + a % k && b == k * (b / k) + b % k;
    if a / k < b / k {
      Times(a / k, b / k, k);
    } else if b / k < a / k {
      Times(b / k, a / k, k);
    }
  }

  lemma TurnOf(k: nat, first: nat, i: nat) returns (turn: nat)
    requires i < k
    ensures first <= turn < first + k && turn % k == i
  {
    var q, r := first / k, first % k;
    assert first == k * q + r;
    if i >= r {
      turn := first + (i - r);
      DivUnique(turn, k, q, i);
    } else {
      turn := first + (k - r + i);
      assert k * (q + 1) == k * q + k;
      DivUnique(turn, k, q + 1, i);
    }
  }

  /** Over any k consecutive turns each of k workers is chosen exactly once. */
  lemma RoundRobinIsFair(k: nat, first: nat, i: nat) returns (turn: nat)
    requires i < k
    ensures first <= turn < first + k && turn % k == i
    ensures forall other :: first <= other < first + k && other % k == i ==> other == turn
  {
    turn := TurnOf(k, first, i);
    forall other | first <= other < first + k && other % k == i ensures other == turn {
      if other <= turn { SameResidue(k, other, turn); } else { SameResidue(k, turn, other); }
    }
  }
}
