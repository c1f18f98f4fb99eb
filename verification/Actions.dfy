/** The guard behind "a handler chooses at most one action", on which the executor's
    if-chain relies. The guard tests fields for truth, so an empty state name does not
    count as an action: it neither blocks a later action nor survives one. */
module Actions {
  import opened Basics

  type State = string

  /** What a handler may ask for; the details of an action are of no interest here. */
  datatype Request =
    | GoTo(next: State)
    | DispatchTask(kind: string)
    | AwaitHuman(transitions: map<string, State>)
    | DispatchParallel(tasks: seq<string>, into: State)
    | RunBlueprint(name: string)

  /** The four private fields, as the executor's properties show them. */
  datatype Slots = Slots(next: Option<State>, task: Option<Request>, parallel: Option<Request>, sub: Option<Request>)

  const NONE := Slots(None, None, None, None)

  predicate Truth(next: Option<State>) { next.Some? && next.value != "" }

  predicate Taken(s: Slots) { Truth(s.next) || s.task.Some? || s.sub.Some? || s.parallel.Some? }

  /** The field a request is stored in. */
  function Put(s: Slots, q: Request): Slots {
    match q
    case GoTo(next) => s.(next := Some(next))
    case DispatchTask(_) => s.(task := Some(q))
    case AwaitHuman(_) => s.(task := Some(q))
    case DispatchParallel(_, _) => s.(parallel := Some(q))
    case RunBlueprint(_) => s.(sub := Some(q))
  }

  /** The executor's chain: next state, task, parallel tasks, sub-blueprint, nothing. */
  function Chosen(s: Slots): Option<Request> {
    if Truth(s.next) then Some(GoTo(s.next.value))
    else if s.task.Some? then s.task
    else if s.parallel.Some? then s.parallel
    else s.sub
  }

  class ActionFactory {
    var nextState: Option<State>
    var taskToDispatch: Option<Request>
    var parallelTasks: Option<Request>
    var subBlueprint: Option<Request>

    function Fields(): Slots
      reads this
    {
      Slots(nextState, taskToDispatch, parallelTasks, subBlueprint)
    }

    constructor ()
      ensures Fields() == NONE
    {
      nextState, taskToDispatch, parallelTasks, subBlueprint := None, None, None, None;
    }

    /** `_check_for_existing_action`, over the list of the four fields. */
    method CheckForExistingAction() returns (raised: bool)
      ensures raised == Taken(Fields())
    {
      var present := [nextState.Some?
          && nextState.value != "", taskToDispatch.Some?, subBlueprint.Some?, parallelTasks.Some?];
      raised := false;
      for i := 0 to |present|
        invariant raised <==> exists k :: 0 <= k < i && present[k]
      {
        raised := raised || present[i];
      }
      assert raised <==> present[0] || present[1] || present[2] || present[3];
    }

    /** Any of the five action methods; `raised` is the RuntimeError of the guard. */
    method Ask(q: Request) returns (raised: bool)
      modifies this
      ensures raised == Taken(old(Fields()))
      ensures Fields() == if raised then old(Fields()) else Put(old(Fields()), q)
      ensures AtMostOne(old(Fields())) ==> AtMostOne(Fields())
    {
      raised := CheckForExistingAction();
      if raised { return; }
      match q {
        case GoTo(next) => nextState := Some(next);
        case DispatchTask(_) => taskToDispatch := Some(q);
        case AwaitHuman(_) => taskToDispatch := Some(q);
        case DispatchParallel(_, _) => parallelTasks := Some(q);
        case RunBlueprint(_) => subBlueprint := Some(q);
      }
    }

    /** The executor's if-chain over the factory. */
    method Choose() returns (action: Option<Request>)
      ensures action == Chosen(Fields())
    {
      if nextState.Some? && nextState.value != "" { return Some(GoTo(nextState.value)); }
      if taskToDispatch.Some? { return taskToDispatch; }
      if parallelTasks.Some? { return parallelTasks; }
      action := subBlueprint;
    }
  }

  /** The fields after a sequence of requests, refused ones included. */
  function After(qs: seq<Request>): Slots {
    if |qs| == 0 then NONE
    else
      var s := After(qs[..|qs| - 1]);
      if Taken(s) then s else Put(s, qs[|qs| - 1])
  }

  predicate Empty(q: Request) { q == GoTo("") }

  /** The first request that is not an empty transition. */
  function FirstReal(qs: seq<Request>): (r: Option<Request>)
    ensures r.None? <==> forall q :: q in qs ==> Empty(q)
    ensures r.Some? ==> exists k :: 0 <= k < |qs| && r == Some(qs[k]) && forall i :: 0 <= i < k ==> Empty(qs[i])
  {
    if |qs| == 0 then None
    else if !Empty(qs[0]) then Some(qs[0])
    else
      var rest := FirstReal(qs[1..]);
      assert forall q :: q in qs ==> q == qs[0] || q in qs[1..];
      assert rest.Some? ==> exists k :: 0 <= k < |qs| - 1 && rest == Some(qs[1..][k]) && forall i :: 0 <= i < k ==>
          Empty(qs[1..][i]);
      assert forall k :: 0 <= k < |qs| - 1 ==> qs[1..][k] == qs[k + 1];
      rest
  }

  lemma {:induction false} FirstRealOfLonger(qs: seq<Request>, q: Request)
    ensures FirstReal(qs + [q]) == if FirstReal(qs).Some? then FirstReal(qs) else if Empty(q) then None else Some(q)
  {
    if |qs| > 0 && Empty(qs[0]) {
      assert (qs + [q])[1..] == qs[1..] + [q];
      FirstRealOfLonger(qs[1..], q);
    }
  }

  /** At most one field holds an action, whatever the handler calls and whatever it catches. */
  predicate AtMostOne(s: Slots) {
    && (Truth(s.next) ==> s.task.None? && s.parallel.None? && s.sub.None?)
    && (s.task.Some? ==> s.parallel.None? && s.sub.None?)
    && (s.parallel.Some? ==> s.sub.None?)
  }

  /** The executor carries out the first real request and no other. */
  lemma {:induction false} TheFirstRequestWins(qs: seq<Request>)
    ensures Chosen(After(qs)) == FirstReal(qs)
    ensures AtMostOne(After(qs))
    ensures Taken(After(qs)) <==> FirstReal(qs).Some?
  {
    if |qs| > 0 {
      var before, q := qs[..|qs| - 1], qs[|qs| - 1];
      TheFirstRequestWins(before);
      FirstRealOfLonger(before, q);
      assert qs == before + [q];
      PutOne(After(before), q);
      assert After(qs) == if Taken(After(before)) then After(before) else Put(After(before), q);
      hide FirstReal, After, Put, Chosen, Taken, AtMostOne;
    } else {
      NoneReal();
    }
  }

  lemma PutOne(s: Slots, q: Request)
    requires AtMostOne(s)
    ensures Taken(s) <==> Chosen(s).Some?
    ensures !Taken(s) ==>
      && AtMostOne(Put(s, q)) && Chosen(Put(s, q)) == (if Empty(q) then None else Some(q))
      && (Taken(Put(s, q)) <==> !Empty(q))
  {}

  lemma NoneReal()
    ensures FirstReal([]) == None
  {}

  /** A request is refused exactly when a real one came before it. */
  lemma RefusedExactly(qs: seq<Request>)
    ensures Taken(After(qs)) <==> exists q :: q in qs && !Empty(q)
  {
    TheFirstRequestWins(qs);
  }

  /** An empty transition slips past the guard: the action that follows it is the one taken. */
  lemma EmptyTransitionIsNoAction(q: Request)
    requires !Empty(q)
    ensures !Taken(After([GoTo("")])) && Chosen(After([GoTo(""), q])) == Some(q)
  {
    TheFirstRequestWins([GoTo("")]);
    TheFirstRequestWins([GoTo(""), q]);
  }
}
