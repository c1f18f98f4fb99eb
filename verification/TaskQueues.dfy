/** The in-memory task queues of the workers: one priority queue each, and a worker whose
    own queue stays empty steals from another. Tasks are neither lost nor duplicated,
    except for those that a deregistered worker takes with it, which are accounted for. */
module TaskQueues {
  import opened Basics

  type WorkerId = nat
  type Payload = nat

  /** `rank` is the negated priority; `counter` is the arrival number. */
  datatype Item = Item(rank: real, counter: nat, payload: Payload)

  datatype Skill = Skill(name: string, kind: string)

  /** `skill.get("name") or skill.get("type")`. */
  function Label(s: Skill): string { if s.name != "" then s.name else s.kind }

  predicate Before(a: Item, b: Item) { a.rank < b.rank || (a.rank == b.rank && a.counter < b.counter) }

  ghost predicate Sorted(q: seq<Item>) { forall i, k :: 0 <= i < k < |q| ==> Before(q[i], q[k]) }

  /** A priority queue, kept in the order in which it gives its items out. */
  function Insert(q: seq<Item>, x: Item): (r: seq<Item>)
    ensures multiset(r) == multiset(q) + multiset{x}
  {
    if |q| == 0 || Before(x, q[0]) then [x] + q
    else
      assert q == [q[0]] + q[1..];
      [q[0]] + Insert(q[1..], x)
  }

  lemma {:induction false} InsertSorts(q: seq<Item>, x: Item)
    requires Sorted(q) && forall y :: y in q ==> y.counter != x.counter
    ensures Sorted(Insert(q, x))
  {
    if |q| > 0 && !Before(x, q[0]) {
      InsertSorts(q[1..], x);
      var rest := Insert(q[1..], x);
      forall k | 0 <= k < |rest| ensures Before(q[0], rest[k]) {
        assert rest[k] in multiset(rest);
        assert rest[k] == x || rest[k] in q[1..];
      }
    }
  }

  predicate Distinct(order: seq<WorkerId>) { forall i, k :: 0 <= i < k < |order| ==> order[i] != order[k] }

  /** Everything queued anywhere. */
  ghost function Queued(order: seq<WorkerId>, queues: map<WorkerId, seq<Item>>): multiset<Item>
    requires forall w :: w in order ==> w in queues
  {
    if |order| == 0 then multiset{}
    else multiset(queues[order[0]]) + Queued(order[1..], queues)
  }

  lemma {:induction false} QueuedElsewhere(order: seq<WorkerId>, queues: map<WorkerId, seq<Item>>, w: WorkerId,
                                           q: seq<Item>)
    requires (forall v :: v in order ==> v in queues) && w !in order
    ensures Queued(order, queues[w := q]) == Queued(order, queues)
  {
    if |order| > 0 {
      QueuedElsewhere(order[1..], queues, w, q);
    }
  }

  /** What changing one queue does to the whole. */
  lemma {:induction false} QueuedUpdate(order: seq<WorkerId>, queues: map<WorkerId, seq<Item>>, w: WorkerId,
                                        q: seq<Item>)
    requires (forall v :: v in order ==> v in queues) && w in order && Distinct(order)
    ensures Queued(order, queues[w := q]) + multiset(queues[w]) == Queued(order, queues) + multiset(q)
  {
    if order[0] == w {
      assert w !in order[1..];
      QueuedElsewhere(order[1..], queues, w, q);
      Swap(multiset(q), Queued(order[1..], queues), multiset(queues[w]));
    } else {
      QueuedUpdate(order[1..], queues, w, q);
      var head, rest := multiset(queues[order[0]]), Queued(order[1..], queues);
      AddBoth(head, Queued(order[1..], queues[w := q]), multiset(queues[w]), rest, multiset(q));
    }
  }

  lemma Swap(a: multiset<Item>, b: multiset<Item>, c: multiset<Item>)
    ensures a + b + c == c + b + a
  {}

  lemma AddBoth(head: multiset<Item>, a: multiset<Item>, b: multiset<Item>, c: multiset<Item>, d: multiset<Item>)
    requires a + b == c + d
    ensures head + a + b == head + c + d
  {
    assert head + a + b == head + (a + b) && head + c + d == head + (c + d);
  }

  lemma AddFront(head: multiset<Item>, a: multiset<Item>, b: multiset<Item>, c: multiset<Item>)
    requires a + b == c
    ensures head + a + b == head + c
  {
    assert head + a + b == head + (a + b);
  }

  lemma {:induction false} QueuedAppend(order: seq<WorkerId>, queues: map<WorkerId, seq<Item>>, w: WorkerId)
    requires (forall v :: v in order ==> v in queues) && w !in order
    ensures Queued(order + [w], queues[w := []]) == Queued(order, queues)
  {
    if |order| == 0 {
      assert order + [w] == [w];
      QueuedElsewhere([], queues, w, []);
      assert [w][1..] == [];
    } else {
      assert (order + [w])[1..] == order[1..] + [w];
      QueuedAppend(order[1..], queues, w);
    }
  }

  function Without(order: seq<WorkerId>, w: WorkerId): (r: seq<WorkerId>)
    ensures forall v :: v in r <==> v in order && v != w
  {
    if |order| == 0 then [] else (if order[0] == w then [] else [order[0]]) + Without(order[1..], w)
  }

  lemma {:induction false} WithoutDistinct(order: seq<WorkerId>, w: WorkerId)
    requires Distinct(order)
    ensures Distinct(Without(order, w))
  {
    if |order| > 0 {
      WithoutDistinct(order[1..], w);
      assert order[0] !in order[1..];
    }
  }

  lemma {:induction false} QueuedWithout(order: seq<WorkerId>, queues: map<WorkerId, seq<Item>>, w: WorkerId)
    requires (forall v :: v in order ==> v in queues) && w in order && Distinct(order)
    ensures Queued(Without(order, w), queues - {w}) + multiset(queues[w]) == Queued(order, queues)
  {
    if order[0] == w {
      QueuedWithoutFirst(order, queues);
    } else {
      QueuedWithout(order[1..], queues, w);
      QueuedWithoutLater(order, queues, w);
    }
  }

  lemma QueuedWithoutFirst(order: seq<WorkerId>, queues: map<WorkerId, seq<Item>>)
    requires (forall v :: v in order ==> v in queues) && |order| > 0 && Distinct(order)
    ensures var w := order[0];
      Queued(Without(order, w), queues - {w}) + multiset(queues[w]) == Queued(order, queues)
  {
    var w, rest := order[0], order[1..];
    assert w !in rest;
    WithoutAbsent(rest, w);
    assert Without(order, w) == rest;
    QueuedMinus(rest, queues, w);
    Swap(multiset{}, Queued(rest, queues), multiset(queues[w]));
  }

  lemma QueuedCons(first: WorkerId, rest: seq<WorkerId>, queues: map<WorkerId, seq<Item>>)
    requires first in queues && forall v :: v in rest ==> v in queues
    ensures Queued([first] + rest, queues) == multiset(queues[first]) + Queued(rest, queues)
  {
    assert ([first] + rest)[1..] == rest;
  }

  lemma WithoutLater(order: seq<WorkerId>, w: WorkerId)
    requires |order| > 0 && order[0] != w
    ensures Without(order, w) == [order[0]] + Without(order[1..], w)
  {}

  lemma QueuedWithoutLater(order: seq<WorkerId>, queues: map<WorkerId, seq<Item>>, w: WorkerId)
    requires (forall v :: v in order ==> v in queues) && |order| > 0 && order[0] != w && w in queues
    requires Queued(Without(order[1..], w), queues - {w}) + multiset(queues[w]) == Queued(order[1..], queues)
    ensures Queued(Without(order, w), queues - {w}) + multiset(queues[w]) == Queued(order, queues)
  {
    hide Queued, Without;
    var rest := Without(order[1..], w);
    WithoutLater(order, w);
    var head := multiset(queues[order[0]]);
    assert order == [order[0]] + order[1..] && (queues - {w})[order[0]] == queues[order[0]];
    QueuedCons(order[0], rest, queues - {w});
    QueuedCons(order[0], order[1..], queues);
    AddFront(head, Queued(rest, queues - {w}), multiset(queues[w]), Queued(order[1..], queues));
  }

  lemma {:induction false} WithoutAbsent(order: seq<WorkerId>, w: WorkerId)
    requires w !in order
    ensures Without(order, w) == order
  {
    if |order| > 0 {
      WithoutAbsent(order[1..], w);
    }
  }

  lemma {:induction false} QueuedMinus(order: seq<WorkerId>, queues: map<WorkerId, seq<Item>>, w: WorkerId)
    requires (forall v :: v in order ==> v in queues) && w !in order
    ensures Queued(order, queues - {w}) == Queued(order, queues)
  {
    if |order| > 0 {
      QueuedMinus(order[1..], queues, w);
    }
  }

  lemma {:induction false} QueuedHas(order: seq<WorkerId>, queues: map<WorkerId, seq<Item>>, w: WorkerId)
    requires (forall v :: v in order ==> v in queues) && w in order
    ensures multiset(queues[w]) <= Queued(order, queues)
  {
    if order[0] != w {
      QueuedHas(order[1..], queues, w);
    }
  }

  // ---------------------------------------------------------------- stealing

  predicate Shares(skills: map<WorkerId, seq<Skill>>, w: WorkerId, skill: string) {
    w in skills && exists s :: s in skills[w] && Label(s) == skill
  }

  /** Another registered worker that shares the skill and has something queued. */
  predicate Victim(skills: map<WorkerId, seq<Skill>>, queues: map<WorkerId, seq<Item>>, thief: WorkerId, w: WorkerId,
                   skill: string) {
    w != thief && Shares(skills, w, skill) && w in queues && queues[w] != []
  }

  /** No victim has a longer queue than the one at `at`, and none that comes earlier in the
      dictionary an equally long one. */
  ghost predicate LongestAt(order: seq<WorkerId>, skills: map<WorkerId, seq<Skill>>, queues: map<WorkerId, seq<Item>>,
                            thief: WorkerId, at: nat, skill: string) {
    && at < |order| && Victim(skills, queues, thief, order[at], skill)
    && forall k :: 0 <= k < |order| && Victim(skills, queues, thief, order[k], skill) ==>
         |queues[order[k]]| <= |queues[order[at]]| && (k < at ==> |queues[order[k]]| < |queues[order[at]]|)
  }

  ghost predicate Longest(order: seq<WorkerId>, skills: map<WorkerId, seq<Skill>>, queues: map<WorkerId, seq<Item>>,
                          thief: WorkerId, w: WorkerId, skill: string) {
    exists at: nat :: LongestAt(order, skills, queues, thief, at, skill) && order[at] == w
  }

  ghost predicate NoVictim(order: seq<WorkerId>, skills: map<WorkerId, seq<Skill>>, queues: map<WorkerId, seq<Item>>,
                           thief: WorkerId, skill: string) {
    skill == "" || forall w :: w in order ==> !Victim(skills, queues, thief, w, skill)
  }

  /** The first of the thief's skills for which there is a victim decides. */
  ghost predicate StealsFor(order: seq<WorkerId>, skills: map<WorkerId, seq<Skill>>, queues: map<WorkerId, seq<Item>>,
                            thief: WorkerId, w: WorkerId, n: nat) {
    && thief in skills && n < |skills[thief]| && Label(skills[thief][n]) != ""
    && Longest(order, skills, queues, thief, w, Label(skills[thief][n]))
    && forall m :: 0 <= m < n ==> NoVictim(order, skills, queues, thief, Label(skills[thief][m]))
  }

  ghost predicate ProperSteal(order: seq<WorkerId>, skills: map<WorkerId, seq<Skill>>, queues: map<WorkerId, seq<Item>>,
                              thief: WorkerId, w: WorkerId) {
    exists n: nat :: StealsFor(order, skills, queues, thief, w, n)
  }

  ghost predicate NothingToSteal(order: seq<WorkerId>, skills: map<WorkerId, seq<Skill>>, queues: map<WorkerId,
                                 seq<Item>>,
                                 thief: WorkerId) {
    thief in skills ==> forall s :: s in skills[thief] ==> NoVictim(order, skills, queues, thief, Label(s))
  }

  /** Queued, delivered and dropped items together are the enqueued ones, all different. */
  ghost predicate Ledger(queued: multiset<Item>, delivered: multiset<Item>, dropped: multiset<Item>,
                         entered: multiset<Item>,
                         counter: nat) {
    && queued + delivered + dropped == entered
    && (forall x :: x in entered ==> entered[x] == 1 && x.counter <= counter)
    && (forall x, y :: x in entered && y in entered && x.counter == y.counter ==> x == y)
  }

  /** `q` grows by a new item. */
  lemma Entering(before: multiset<Item>, after: multiset<Item>, q: multiset<Item>, x: Item, delivered: multiset<Item>,
                 dropped: multiset<Item>, entered: multiset<Item>, counter: nat)
    requires Ledger(before, delivered, dropped, entered, counter) && x.counter == counter + 1
    requires after + q == before + (q + multiset{x})
    ensures Ledger(after, delivered, dropped, entered + multiset{x}, counter + 1) && x !in entered
  {
    forall y ensures after[y] == before[y] + multiset{x}[y] {
      assert (after + q)[y] == (before + (q + multiset{x}))[y];
    }
    assert after + delivered + dropped == entered + multiset{x};
  }

  /** `q` gives out its first item. */
  lemma Leaving(before: multiset<Item>, after: multiset<Item>, q: multiset<Item>, rest: multiset<Item>, x: Item,
                delivered: multiset<Item>, dropped: multiset<Item>, entered: multiset<Item>, counter: nat)
    requires Ledger(before, delivered, dropped, entered, counter)
    requires q <= before && q == multiset{x} + rest && after + q == before + rest
    ensures Ledger(after, delivered + multiset{x}, dropped, entered, counter)
    ensures x !in delivered && x in entered
  {
    forall y ensures after[y] + multiset{x}[y] == before[y] {
      assert (after + q)[y] == (before + rest)[y];
    }
    assert before[x] >= q[x] >= 1;
    assert entered[x] == before[x] + delivered[x] + dropped[x];
    assert after + (delivered + multiset{x}) + dropped == entered;
  }

  /** A whole queue goes. */
  lemma Dropping(before: multiset<Item>, after: multiset<Item>, q: multiset<Item>, delivered: multiset<Item>,
                 dropped: multiset<Item>, entered: multiset<Item>, counter: nat)
    requires Ledger(before, delivered, dropped, entered, counter) && after + q == before
    ensures Ledger(after, delivered, dropped + q, entered, counter)
  {
    assert after + delivered + (dropped + q) == entered;
  }

  ghost predicate Shaped(order: seq<WorkerId>, queues: map<WorkerId, seq<Item>>) {
    && Distinct(order) && (forall w :: w in order <==> w in queues)
    && (forall w :: w in queues ==> Sorted(queues[w]))
  }

  /** What every operation keeps. */
  ghost predicate Books(order: seq<WorkerId>, queues: map<WorkerId, seq<Item>>, delivered: multiset<Item>,
                        dropped: multiset<Item>, entered: multiset<Item>, counter: nat) {
    Shaped(order, queues) && Ledger(Queued(order, queues), delivered, dropped, entered, counter)
  }

  lemma NewQueue(order: seq<WorkerId>, queues: map<WorkerId, seq<Item>>, delivered: multiset<Item>,
                 dropped: multiset<Item>, entered: multiset<Item>, counter: nat, w: WorkerId)
    requires Books(order, queues, delivered, dropped, entered, counter) && w !in queues
    ensures Books(order + [w], queues[w := []], delivered, dropped, entered, counter)
  {
    hide Ledger;
    QueuedAppend(order, queues, w);
  }

  lemma Refilled(order: seq<WorkerId>, queues: map<WorkerId, seq<Item>>, w: WorkerId, q: seq<Item>)
    requires Shaped(order, queues) && w in queues && Sorted(q)
    ensures Shaped(order, queues[w := q])
  {
    hide Sorted;
  }

  lemma NewItem(order: seq<WorkerId>, queues: map<WorkerId, seq<Item>>, delivered: multiset<Item>,
                dropped: multiset<Item>, entered: multiset<Item>, counter: nat, w: WorkerId, x: Item)
    requires Books(order, queues, delivered, dropped, entered, counter) && w in queues && x.counter == counter + 1
    ensures Books(order, queues[w := Insert(queues[w], x)], delivered, dropped, entered + multiset{x}, counter + 1)
    ensures x !in entered
  {
    var q, longer := queues[w], Insert(queues[w], x);
    QueuedHas(order, queues, w);
    assert forall y :: y in q ==> y.counter != x.counter by {
      forall y | y in q ensures y.counter != x.counter {
        assert y in multiset(q) && y in Queued(order, queues) && y in entered;
      }
    }
    InsertSorts(q, x);
    Refilled(order, queues, w, longer);
    QueuedUpdate(order, queues, w, longer);
    hide Ledger, Queued, Insert, Sorted;
    Entering(Queued(order, queues), Queued(order, queues[w := longer]), multiset(q), x, delivered, dropped, entered,
        counter);
  }

  lemma GivenOut(order: seq<WorkerId>, queues: map<WorkerId, seq<Item>>, delivered: multiset<Item>,
                 dropped: multiset<Item>, entered: multiset<Item>, counter: nat, w: WorkerId)
    requires Books(order, queues, delivered, dropped, entered, counter) && w in queues && queues[w] != []
    ensures var x := queues[w][0];
      && Books(order, queues[w := queues[w][1..]], delivered + multiset{x}, dropped, entered, counter)
      && x !in delivered && x in entered
      && forall y :: y in queues[w][1..] ==> y.rank > x.rank || (y.rank == x.rank && y.counter > x.counter)
  {
    var q, rest := queues[w], queues[w][1..];
    QueuedHas(order, queues, w);
    assert Sorted(q);
    assert q == [q[0]] + rest;
    Refilled(order, queues, w, rest);
    QueuedUpdate(order, queues, w, rest);
    hide Ledger, Queued;
    Leaving(Queued(order, queues), Queued(order, queues[w := rest]), multiset(q), multiset(rest), q[0], delivered,
        dropped,
            entered, counter);
  }

  lemma ShapedWithout(order: seq<WorkerId>, queues: map<WorkerId, seq<Item>>, w: WorkerId)
    requires Shaped(order, queues)
    ensures Shaped(Without(order, w), queues - {w}) && Distinct(order) && forall v :: v in order <==> v in queues
  {
    WithoutDistinct(order, w);
    hide Sorted, Distinct, Without;
  }

  lemma GoneQueue(order: seq<WorkerId>, queues: map<WorkerId, seq<Item>>, delivered: multiset<Item>,
                  dropped: multiset<Item>, entered: multiset<Item>, counter: nat, w: WorkerId)
    requires Books(order, queues, delivered, dropped, entered, counter) && w in queues
    ensures Books(Without(order, w), queues - {w}, delivered, dropped + multiset(queues[w]), entered, counter)
  {
    ShapedWithout(order, queues, w);
    QueuedWithout(order, queues, w);
    hide Ledger, Queued, Sorted, Shaped, Without;
    Dropping(Queued(order, queues), Queued(Without(order, w), queues - {w}), multiset(queues[w]), delivered, dropped,
             entered, counter);
  }

  /** Each item is in exactly one place: queued, delivered once, or dropped. */
  lemma InOnePlace(order: seq<WorkerId>, queues: map<WorkerId, seq<Item>>, delivered: multiset<Item>,
                   dropped: multiset<Item>, entered: multiset<Item>, counter: nat, x: Item)
    requires Books(order, queues, delivered, dropped, entered, counter)
    ensures Queued(order, queues)[x] + delivered[x] + dropped[x] == if x in entered then 1 else 0
  {
    assert (Queued(order, queues) + delivered + dropped)[x] == entered[x];
  }

  class TaskQueues {
    var order: seq<WorkerId>
    var queues: map<WorkerId, seq<Item>>
    var skills: map<WorkerId, seq<Skill>>
    var counter: nat
    /** All items ever enqueued, ever given out, and lost to a deregistration. */
    ghost var entered: multiset<Item>
    ghost var delivered: multiset<Item>
    ghost var dropped: multiset<Item>

    ghost predicate Valid()
      reads this
    {
      Books(order, queues, delivered, dropped, entered, counter)
    }

    constructor ()
      ensures Valid() && entered == multiset{} && queues == map[]
    {
      order, queues, skills, counter := [], map[], map[], 0;
      entered, delivered, dropped := multiset{}, multiset{}, multiset{};
    }

    /** A queue is made on first use. */
    method EnsureQueue(w: WorkerId)
      requires Valid()
      modifies this`order, this`queues
      ensures Valid() && w in queues
      ensures queues == if w in old(queues) then old(queues) else old(queues)[w := []]
      ensures order == if w in old(queues) then old(order) else old(order) + [w]
    {
      hide Books;
      if w !in queues {
        NewQueue(order, queues, delivered, dropped, entered, counter, w);
        order, queues := order + [w], queues[w := []];
      }
    }

    method RegisterWorker(w: WorkerId, offered: seq<Skill>)
      requires Valid()
      modifies this
      ensures Valid() && skills == old(skills)[w := offered]
      ensures queues == if w in old(queues) then old(queues) else old(queues)[w := []]
      ensures entered == old(entered) && delivered == old(delivered) && dropped == old(dropped)
    {
      hide Books;
      skills := skills[w := offered];
      EnsureQueue(w);
    }

    /** The queue goes with the worker; so do its tasks. */
    method DeregisterWorker(w: WorkerId)
      requires Valid()
      modifies this
      ensures Valid() && queues == old(queues) - {w} && skills == old(skills) - {w}
      ensures entered == old(entered) && delivered == old(delivered)
      ensures dropped == old(dropped) + if w in old(queues) then multiset(old(queues)[w]) else multiset{}
    {
      hide Books;
      skills := skills - {w};
      if w in queues {
        GoneQueue(order, queues, delivered, dropped, entered, counter, w);
        dropped := dropped + multiset(queues[w]);
        order, queues := Without(order, w), queues - {w};
      }
    }

    method EnqueueTask(w: WorkerId, payload: Payload, priority: real) returns (ghost item: Item)
      requires Valid()
      modifies this
      ensures Valid() && item == Item(-priority, old(counter) + 1, payload) && counter == item.counter
      ensures item !in old(entered) && entered == old(entered) + multiset{item}
      ensures w in queues && multiset(queues[w])
          == (if w in old(queues) then multiset(old(queues)[w]) else multiset{}) + multiset{item}
      ensures forall v :: v in queues && v != w ==> v in old(queues) && queues[v] == old(queues)[v]
      ensures delivered == old(delivered) && dropped == old(dropped)
    {
      hide Books;
      EnsureQueue(w);
      var x := Item(-priority, counter + 1, payload);
      NewItem(order, queues, delivered, dropped, entered, counter, w, x);
      counter := counter + 1;
      queues := queues[w := Insert(queues[w], x)];
      entered := entered + multiset{x};
      item := x;
    }

    /** `get_nowait` on a queue that is not empty. */
    method TakeFirst(w: WorkerId) returns (item: Item)
      requires Valid() && w in queues && queues[w] != []
      modifies this`queues, this`delivered
      ensures Valid() && item == old(queues)[w][0] && queues == old(queues)[w := old(queues)[w][1..]]
      ensures forall x :: x in queues[w] ==> x.rank > item.rank || (x.rank == item.rank && x.counter > item.counter)
      ensures delivered == old(delivered) + multiset{item} && item !in old(delivered) && item in entered
    {
      hide Books;
      GivenOut(order, queues, delivered, dropped, entered, counter, w);
      item := queues[w][0];
      queues := queues[w := queues[w][1..]];
      delivered := delivered + multiset{item};
    }

    /** The inner loop of the theft: a longest queue among those of the workers that share the skill. */
    method FindVictim(thief: WorkerId, skill: string) returns (best: Option<WorkerId>)
      requires Valid() && skill != ""
      ensures best.Some? ==> best.value in queues && Longest(order, skills, queues, thief, best.value, skill)
      ensures best.None? ==> NoVictim(order, skills, queues, thief, skill)
    {
      best := None;
      var longest, at, i := 0, 0, 0;
      while i < |order|
        invariant i <= |order|
        invariant best.None? ==> longest == 0
        invariant best.Some? ==> at < i && order[at] == best.value && Victim(skills, queues, thief, best.value, skill)
                                 && |queues[best.value]| == longest
        invariant forall k :: 0 <= k < i && Victim(skills, queues, thief, order[k], skill) ==>
                    |queues[order[k]]| <= longest && (k < at ==> |queues[order[k]]| < longest)
      {
        var w := order[i];
        if w != thief && w in skills {
          var shares := SharesSkill(skills[w], skill);
          if shares && |queues[w]| > longest {
            longest, best, at := |queues[w]|, Some(w), i;
          }
        }
        i := i + 1;
      }
      assert best.Some? ==> LongestAt(order, skills, queues, thief, at, skill);
    }

    method SharesSkill(offered: seq<Skill>, skill: string) returns (shares: bool)
      ensures shares <==> exists s :: s in offered && Label(s) == skill
      ensures shares <==> exists s :: s in offered && skill == if s.name != "" then s.name else s.kind
    {
      shares := false;
      for i := 0 to |offered|
        invariant shares <==> exists s :: s in offered[..i] && Label(s) == skill
      {
        assert offered[..i + 1] == offered[..i] + [offered[i]];
        if Label(offered[i]) == skill { shares := true; }
      }
      assert offered[..|offered|] == offered;
    }

    /** `dequeue_task_for_worker`. `timedOut` says that the wait on the worker's own queue ended
        without an item. `from` is the queue that gave the item. */
    method DequeueTask(w: WorkerId, timedOut: bool) returns (item: Option<Item>, ghost from: WorkerId)
      requires Valid()
      modifies this`order, this`queues, this`delivered
      ensures Valid() && (var before := if w in old(queues) then old(queues) else old(queues)[w := []];
        match item
        case Some(x) =>
          && from in before && before[from] != [] && x == before[from][0]
          && queues == before[from := before[from][1..]]
          // Whatever stays in that queue has a lower priority, or the same one and came later.
          && (forall y :: y in queues[from] ==> -y.rank < -x.rank || (y.rank == x.rank && y.counter > x.counter))
          && delivered == old(delivered) + multiset{x} && x !in old(delivered) && x in entered
          && (if !timedOut && before[w] != [] then from == w else ProperSteal(order, skills, before, w, from))
        case None =>
          && queues == before && delivered == old(delivered) && (timedOut || before[w] == [])
          && NothingToSteal(order, skills, before, w))
    {
      hide Books;
      EnsureQueue(w);
      hide ProperSteal, NothingToSteal;
      var source := Some(w);
      if timedOut || queues[w] == [] {
        source := FindTheft(w);
      }
      if source.None? { return None, w; }
      var x := TakeFirst(source.value);
      return Some(x), source.value;
    }

    /** The outer loop of the theft, over the thief's skills. */
    method FindTheft(thief: WorkerId) returns (best: Option<WorkerId>)
      requires Valid()
      ensures best.Some? ==> best.value in queues && queues[best.value] != []
                             && ProperSteal(order, skills, queues, thief, best.value)
      ensures best.None? ==> NothingToSteal(order, skills, queues, thief)
    {
      if thief !in skills { return None; }
      hide Books;
      var n := 0;
      while n < |skills[thief]|
        invariant n <= |skills[thief]|
        invariant forall m :: 0 <= m < n ==> NoVictim(order, skills, queues, thief, Label(skills[thief][m]))
      {
        var skill := Label(skills[thief][n]);
        if skill != "" {
          best := FindVictim(thief, skill);
          if best.Some? {
            assert StealsFor(order, skills, queues, thief, best.value, n);
            return;
          }
        }
        n := n + 1;
      }
      best := None;
    }
  }
}
