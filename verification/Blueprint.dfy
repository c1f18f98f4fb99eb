/** A blueprint: its handler tables, the choice of a handler, and the integrity
    check of its transition graph. The transition map is an input: it is what
    the program reads off the handlers' source. */
module BlueprintGraph {
  import opened Basics

  type State = string
  type Func = nat
  type Transitions = map<State, set<State>>

  // ------------------------------------------------ paths

  ghost predicate IsPath(t: Transitions, p: seq<State>) {
    p != [] && forall i :: 0 <= i < |p| - 1 ==> p[i] in t && p[i + 1] in t[p[i]]
  }

  ghost predicate Reaches(t: Transitions, a: State, b: State) {
    exists p :: IsPath(t, p) && p[0] == a && p[|p| - 1] == b
  }

  lemma ReachesSelf(t: Transitions, a: State)
    ensures Reaches(t, a, a)
  {
    assert IsPath(t, [a]);
  }

  lemma ReachesStep(t: Transitions, a: State, b: State, c: State)
    requires Reaches(t, a, b) && b in t && c in t[b]
    ensures Reaches(t, a, c)
  {
    var p :| IsPath(t, p) && p[0] == a && p[|p| - 1] == b;
    assert IsPath(t, p + [c]);
  }

  ghost predicate Closed(t: Transitions, s: set<State>) {
    forall x, y :: x in s && x in t && y in t[x] ==> y in s
  }

  lemma {:induction false} PathStaysInside(t: Transitions, s: set<State>, p: seq<State>, i: nat)
    requires Closed(t, s) && IsPath(t, p) && p[0] in s && i < |p|
    ensures p[i] in s
  {
    if i > 0 {
      PathStaysInside(t, s, p, i - 1);
    }
  }

  /** A closed set that holds the start holds everything reachable from it. */
  lemma ClosedHoldsReachable(t: Transitions, s: set<State>, a: State)
    requires Closed(t, s) && a in s
    ensures forall b :: Reaches(t, a, b) ==> b in s
  {
    forall b | Reaches(t, a, b) ensures b in s {
      var p :| IsPath(t, p) && p[0] == a && p[|p| - 1] == b;
      PathStaysInside(t, s, p, |p| - 1);
    }
  }

  // ------------------------------------------------ the reachability walk

  function Successors(t: Transitions, s: State): set<State> { if s in t then t[s] else {} }

  function Targets(t: Transitions): set<State> { set x, y | x in t && y in t[x] :: y }

  /** The stack walk of `validate_integrity` computes exactly the states joined to the start. */
  method Walk(t: Transitions, start: State) returns (reachable: set<State>)
    ensures forall s :: s in reachable <==> Reaches(t, start, s)
  {
    reachable := {start};
    var stack := [start];
    ReachesSelf(t, start);
    ghost var universe := {start} + Targets(t);
    while stack != []
      invariant start in reachable && reachable <= universe
      invariant forall s :: s in reachable ==> Reaches(t, start, s)
      invariant forall s :: s in stack ==> s in reachable
      invariant forall x, y :: x in reachable && x !in stack && y in Successors(t, x) ==> y in reachable
      decreases universe - reachable, |stack|
    {
      var current := stack[|stack| - 1];
      stack := stack[..|stack| - 1];
      var pending := Successors(t, current);
      ghost var before, rest := reachable, stack;
      while pending != {}
        invariant pending <= Successors(t, current) && current in reachable
        invariant start in reachable && before <= reachable <= universe
        invariant reachable == before ==> stack == rest
        invariant forall s :: s in reachable ==> Reaches(t, start, s)
        invariant forall s :: s in stack ==> s in reachable
        invariant forall x, y :: x in reachable && x !in stack && x != current && y in Successors(t, x) ==>
            y in reachable
        invariant forall y :: y in Successors(t, current) && y !in pending ==> y in reachable
        decreases pending
      {
        var target :| target in pending;
        pending := pending - {target};
        if target !in reachable {
          ReachesStep(t, start, current, target);
          reachable := reachable + {target};
          stack := stack + [target];
        }
      }
      if reachable != before {
        assert universe - reachable < universe - before;
      }
    }
    assert Closed(t, reachable);
    ClosedHoldsReachable(t, reachable, start);
  }

  // ------------------------------------------------ the blueprint

  /** A default slot is empty while only conditional handlers are registered for the state. */
  datatype Slot = Placeholder | Default(func: Func)

  datatype Conditional = Conditional(state: State, condition: nat, func: Func)

  datatype Verdict = Accepted | Dangling(source: State, target: State) | Unreachable(states: set<State>)

  datatype Registration = Registered | DuplicateDefault | SecondStart

  class Blueprint {
    var handlers: map<State, Slot>
    var aggregators: map<State, Func>
    var conditionals: seq<Conditional>
    var start: Option<State>
    var ends: set<State>

    ghost predicate Valid()
      reads this
    {
      && (start.Some? ==> start.value in handlers)
      && (forall c :: c in conditionals ==> c.state in handlers)
      && (forall e :: e in ends ==> e in handlers)
    }

    constructor ()
      ensures Valid() && handlers == map[] && aggregators == map[] && conditionals == [] && start == None && ends == {}
    {
      handlers, aggregators, conditionals, start, ends := map[], map[], [], None, {};
    }

    function Defined(): (defined: set<State>)
      reads this
      ensures forall s :: s in defined <==>
        s in handlers || s in aggregators || exists c :: c in conditionals && c.state == s
    {
      handlers.Keys + aggregators.Keys + set c | c in conditionals :: c.state
    }

    /** `HandlerDecorator.__call__`. A second start state is refused only after the handler
        was entered. */
    method Register(state: State, func: Func, condition: Option<nat>, isStart: bool, isEnd: bool)
      returns (r: Registration)
      requires Valid()
      modifies this
      ensures Valid() && aggregators == old(aggregators)
      ensures r == DuplicateDefault <==>
                condition.None? && state in old(handlers) && old(handlers)[state].Default?
      ensures r == DuplicateDefault ==>
                handlers == old(handlers) && conditionals == old(conditionals) && start == old(start)
                    && ends == old(ends)
      ensures r == SecondStart <==>
                r != DuplicateDefault && isStart && old(start).Some? && old(start) != Some(state)
      ensures r != DuplicateDefault && condition.Some? ==>
                && conditionals == old(conditionals) + [Conditional(state, condition.value, func)]
                && handlers == (if state in old(handlers) then old(handlers) else old(handlers)[state := Placeholder])
      ensures r != DuplicateDefault && condition.None? ==>
                handlers == old(handlers)[state := Default(func)] && conditionals == old(conditionals)
      ensures start == (if r == Registered && isStart then Some(state) else old(start))
      ensures ends == (if r == Registered && isEnd then old(ends) + {state} else old(ends))
    {
      if condition.Some? {
        if state !in handlers {
          handlers := handlers[state := Placeholder];
        }
        conditionals := conditionals + [Conditional(state, condition.value, func)];
      } else {
        if state in handlers && handlers[state].Default? {
          return DuplicateDefault;
        }
        handlers := handlers[state := Default(func)];
      }
      if isStart {
        if start.Some? && start.value != state {
          return SecondStart;
        }
        start := Some(state);
      }
      if isEnd {
        ends := ends + {state};
      }
      r := Registered;
    }

    /** `aggregator`. */
    method RegisterAggregator(state: State, func: Func) returns (ok: bool)
      requires Valid()
      modifies this`aggregators
      ensures Valid()
      ensures ok <==> state !in old(aggregators)
      ensures aggregators == if ok then old(aggregators)[state := func] else old(aggregators)
    {
      ok := state !in aggregators;
      if ok {
        aggregators := aggregators[state := func];
      }
    }

    /** `find_handler`: the first conditional handler whose condition holds, else the default,
        else the aggregator; `holds` is the verdict of the conditions on the context. */
    method FindHandler(state: State, holds: nat -> bool) returns (r: Option<Func>)
      ensures forall i ::
                && 0 <= i < |conditionals| && conditionals[i].state == state && holds(conditionals[i].condition)
                && (forall k :: 0 <= k < i && conditionals[k].state == state ==> !holds(conditionals[k].condition))
                ==> r == Some(conditionals[i].func)
      ensures (forall i :: 0 <= i < |conditionals| && conditionals[i].state == state ==>
          !holds(conditionals[i].condition))
              ==> r == if state in handlers && handlers[state].Default? then Some(handlers[state].func)
                       else Find(aggregators, state)
    {
      for i := 0 to |conditionals|
        invariant forall k :: 0 <= k < i && conditionals[k].state == state ==> !holds(conditionals[k].condition)
      {
        if conditionals[i].state == state && holds(conditionals[i].condition) {
          return Some(conditionals[i].func);
        }
      }
      if state in handlers && handlers[state].Default? {
        return Some(handlers[state].func);
      }
      r := Find(aggregators, state);
    }

    /** `validate_integrity` on an analysed transition map. */
    method ValidateIntegrity(t: Transitions, parseErrors: nat) returns (v: Verdict)
      ensures v == Accepted <==>
                Sound(t, Defined()) && (start.None? || parseErrors > 0 || Connected(t, Defined(), start.value))
      ensures v.Dangling? ==> v.source in t && v.target in t[v.source] && v.target !in Defined()
      ensures v.Unreachable? ==>
                && start.Some? && v.states != {} && Sound(t, Defined())
                && forall s :: s in v.states <==> s in Defined() && !Reaches(t, start.value, s)
    {
      var defined := Defined();
      var sources := t.Keys;
      while sources != {}
        invariant sources <= t.Keys
        invariant forall x, y :: x in t && x !in sources && y in t[x] ==> y in defined
        decreases sources
      {
        var source :| source in sources;
        sources := sources - {source};
        var bad := t[source] - defined;
        if bad != {} {
          var target :| target in bad;
          assert target in t[source];
          return Dangling(source, target);
        }
        assert forall y :: y in t[source] && y !in defined ==> y in bad;
      }
      assert Sound(t, defined);
      if start.None? {
        return Accepted;
      }
      var reachable := Walk(t, start.value);
      var unreachable := defined - reachable;
      assert forall s :: s in defined && s !in reachable ==> s in unreachable;
      if unreachable != {} && parseErrors == 0 {
        v := Unreachable(unreachable);
      } else {
        v := Accepted;
      }
    }
  }

  /** No transition leads out of the defined states. */
  ghost predicate Sound(t: Transitions, defined: set<State>) {
    forall x, y :: x in t && y in t[x] ==> y in defined
  }

  /** Every defined state is joined to the start by a path. */
  ghost predicate Connected(t: Transitions, defined: set<State>, start: State) {
    forall s :: s in defined ==> Reaches(t, start, s)
  }

  /** Two independent readings agree: in a sound graph whose states are all reachable, the
      defined states are precisely the start and what it reaches. */
  lemma AcceptedGraphIsItsReachableSet(t: Transitions, defined: set<State>, start: State)
    requires Sound(t, defined) && Connected(t, defined, start) && start in defined
    ensures forall s :: s in defined <==> Reaches(t, start, s)
  {
    ClosedHoldsReachable(t, defined, start);
  }
}
