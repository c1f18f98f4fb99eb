/** Hand-out of timed-out entries to any number of watchers. A lock with a lifetime keeps the
    watchers from working at the same time, but a watcher may outlive its lock; what makes
    hand-out exactly once is that the pop is atomic. */
module Watcher {
  import opened Basics

  type Key = string
  type Instance = nat

  const LOCK_TTL: nat := 60

  /** A registration: setting a key again makes a new one in the old place. */
  datatype Entry = Entry(key: Key, due: nat, id: nat)

  predicate IsDue(e: Entry, now: nat) { e.due <= now }

  function DueIn(es: seq<Entry>, now: nat): seq<Entry> {
    if |es| == 0 then [] else (if IsDue(es[0], now) then [es[0]] else []) + DueIn(es[1..], now)
  }

  /** The first `limit` due entries, in dictionary order. */
  function Taken(es: seq<Entry>, now: nat, limit: nat): seq<Entry> {
    if |es| == 0 || limit == 0 then []
    else if IsDue(es[0], now) then [es[0]] + Taken(es[1..], now, limit - 1)
    else Taken(es[1..], now, limit)
  }

  /** What the pop leaves. */
  function Kept(es: seq<Entry>, now: nat, limit: nat): seq<Entry> {
    if |es| == 0 || limit == 0 then es
    else if IsDue(es[0], now) then Kept(es[1..], now, limit - 1)
    else [es[0]] + Kept(es[1..], now, limit)
  }

  function Drop(s: seq<Entry>, n: nat): seq<Entry> { if n >= |s| then [] else s[n..] }

  /** A pop loses nothing. */
  lemma {:induction false} PopSplits(es: seq<Entry>, now: nat, limit: nat)
    ensures multiset(Taken(es, now, limit)) + multiset(Kept(es, now, limit)) == multiset(es)
  {
    if |es| > 0 && limit > 0 {
      assert es == [es[0]] + es[1..];
      PopSplits(es[1..], now, if IsDue(es[0], now) then limit - 1 else limit);
    }
  }

  /** It takes the first due entries, as many as the limit allows. */
  lemma {:induction false} PopTakesFirst(es: seq<Entry>, now: nat, limit: nat)
    ensures DueIn(es, now) == Taken(es, now, limit) + DueIn(Kept(es, now, limit), now)
    ensures DueIn(Kept(es, now, limit), now) == Drop(DueIn(es, now), limit)
  {
    if |es| > 0 && limit > 0 {
      var first, rest := es[0], es[1..];
      if IsDue(first, now) {
        PopTakesFirst(rest, now, limit - 1);
        DropCons(first, DueIn(rest, now), limit);
        Regroup([first], Taken(rest, now, limit - 1), DueIn(Kept(rest, now, limit - 1), now));
      } else {
        PopTakesFirst(rest, now, limit);
        NotDueFirst(first, Kept(rest, now, limit), now);
      }
    }
  }

  lemma Regroup(a: seq<Entry>, b: seq<Entry>, c: seq<Entry>)
    ensures a + (b + c) == (a + b) + c
  {}

  lemma NotDueFirst(first: Entry, rest: seq<Entry>, now: nat)
    requires !IsDue(first, now)
    ensures DueIn([first] + rest, now) == DueIn(rest, now)
  {
    assert ([first] + rest)[1..] == rest;
  }

  lemma DropCons(first: Entry, s: seq<Entry>, n: nat)
    requires n > 0
    ensures Drop([first] + s, n) == Drop(s, n - 1)
  {}

  /** `k` pops at one moment, with nobody adding entries. */
  function AfterPops(es: seq<Entry>, now: nat, limit: nat, k: nat): seq<Entry> {
    if k == 0 then es else Kept(AfterPops(es, now, limit, k - 1), now, limit)
  }

  lemma {:induction false} DueAfterPops(es: seq<Entry>, now: nat, limit: nat, k: nat, n: nat)
    requires n == k * limit
    ensures DueIn(AfterPops(es, now, limit, k), now) == Drop(DueIn(es, now), n)
  {
    if k > 0 {
      Distribute(k, limit);
      DueAfterPops(es, now, limit, k - 1, n - limit);
      hide DueIn, Kept, Drop;
      PopTakesFirst(AfterPops(es, now, limit, k - 1), now, limit);
      DropTwice(DueIn(es, now), n - limit, limit);
    }
  }

  lemma Distribute(k: nat, limit: nat)
    requires k > 0
    ensures k * limit == (k - 1) * limit + limit >= limit
  {}

  lemma DropTwice(s: seq<Entry>, n: nat, m: nat)
    ensures Drop(Drop(s, n), m) == Drop(s, n + m)
  {}

  lemma CeilingReached(d: nat, limit: nat, k: nat)
    requires limit > 0
    ensures k * limit >= d <==> k >= (d + limit - 1) / limit
  {
    var c := (d + limit - 1) / limit;
    var r := (d + limit - 1) % limit;
    assert d + limit - 1 == c * limit + r;
    if k >= c {
      assert k * limit == c * limit + (k - c) * limit;
      assert (k - c) * limit >= 0;
    } else {
      assert c * limit == (k + 1) * limit + (c - k - 1) * limit;
      assert (c - k - 1) * limit >= 0;
      assert (k + 1) * limit == k * limit + limit;
    }
  }

  /** d due entries are drained by ceil(d / limit) pops and by no fewer. */
  lemma DrainedByCeiling(es: seq<Entry>, now: nat, limit: nat, k: nat)
    requires limit > 0
    ensures DueIn(AfterPops(es, now, limit, k), now) == [] <==> k >= (|DueIn(es, now)| + limit - 1) / limit
  {
    DueAfterPops(es, now, limit, k, k * limit);
    CeilingReached(|DueIn(es, now)|, limit, k);
  }

  // ---------------------------------------------------------------- the store in place

  datatype Lock = Lock(holder: Instance, expiry: nat)

  function Locked(lock: Option<Lock>, holder: Instance, now: nat): Option<Lock> {
    if lock.Some? && lock.value.expiry > now then lock else Some(Lock(holder, now + LOCK_TTL))
  }

  function Released(lock: Option<Lock>, holder: Instance): Option<Lock> {
    if lock.Some? && lock.value.holder == holder then None else lock
  }

  function Without(es: seq<Entry>, key: Key): seq<Entry> {
    if |es| == 0 then [] else (if es[0].key == key then [] else [es[0]]) + Without(es[1..], key)
  }

  /** A dictionary keeps the place of a key that it has. */
  function Set(es: seq<Entry>, e: Entry): seq<Entry> {
    if |es| == 0 then [e]
    else if es[0].key == e.key then [e] + es[1..]
    else [es[0]] + Set(es[1..], e)
  }

  class WatchStore {
    var entries: seq<Entry>
    var lock: Option<Lock>
    var nextId: nat

    constructor ()
      ensures entries == [] && lock == None && nextId == 0
    {
      entries, lock, nextId := [], None, 0;
    }

    method AcquireLock(holder: Instance, now: nat) returns (acquired: bool)
      modifies this`lock
      ensures acquired <==> !(old(lock).Some? && old(lock).value.expiry > now)
      ensures lock == Locked(old(lock), holder, now)
      ensures lock == if acquired then Some(Lock(holder, now + 60)) else old(lock)
    {
      if lock.Some? && lock.value.expiry > now { return false; }
      lock := Some(Lock(holder, now + LOCK_TTL));
      acquired := true;
    }

    /** The release of one who does not hold the lock changes nothing. */
    method ReleaseLock(holder: Instance) returns (released: bool)
      modifies this`lock
      ensures released <==> old(lock).Some? && old(lock).value.holder == holder
      ensures lock == if released then None else old(lock)
    {
      released := lock.Some? && lock.value.holder == holder;
      if released { lock := None; }
    }

    method AddToWatch(key: Key, due: nat)
      modifies this`entries, this`nextId
      ensures entries == Set(old(entries), Entry(key, due, old(nextId))) && nextId == old(nextId) + 1
      ensures Placed(old(entries), entries, Entry(key, due, old(nextId)))
    {
      var e := Entry(key, due, nextId);
      SetPlaces(entries, e);
      hide Placed, Set;
      nextId := nextId + 1;
      var i := 0;
      assert entries[0..] == entries;
      while i < |entries|
        invariant i <= |entries| && entries == old(entries) && nextId == old(nextId) + 1
        invariant Set(entries, e) == entries[..i] + Set(entries[i..], e)
      {
        SetOne(entries[i..], e);
        if entries[i].key == key {
          assert entries[i..][1..] == entries[i + 1..] && entries[i..][0] == entries[i];
          assert Set(entries, e) == entries[..i] + [e] + entries[i + 1..];
          entries := entries[..i] + [e] + entries[i + 1..];
          return;
        }
        assert entries[i..][1..] == entries[i + 1..] && entries[..i + 1] == entries[..i] + [entries[i]];
        i := i + 1;
      }
      assert entries[i..] == [] && entries[..i] == entries;
      SetOne([], e);
      assert Set(entries, e) == entries + [e];
      entries := entries + [e];
    }

    /** `remove_job_from_watch`. */
    method RemoveFromWatch(key: Key)
      modifies this`entries
      ensures entries == Without(old(entries), key)
      ensures forall e :: e in entries <==> e in old(entries) && e.key != key
    {
      WithoutKey(entries, key);
      entries := Without(entries, key);
    }

    /** `get_timed_out_jobs`: collect the due keys, cut the list to the limit, remove them. */
    method PopTimedOut(now: nat, limit: nat) returns (popped: seq<Entry>)
      modifies this`entries
      ensures popped == Taken(old(entries), now, limit) && entries == Kept(old(entries), now, limit)
      // Only entries that are due, up to the limit, and no due one stays behind while there is room.
      ensures (forall e :: e in popped ==> e.due <= now) && |popped| <= limit
      ensures |popped| < limit ==> forall e :: e in entries ==> now < e.due
      ensures multiset(popped) + multiset(entries) == multiset(old(entries))
    {
      popped := [];
      var rest, i := [], 0;
      assert entries[0..] == entries;
      while i < |entries| && |popped| < limit
        invariant i <= |entries| && |popped| <= limit && entries == old(entries)
        invariant Taken(entries, now, limit) == popped + Taken(entries[i..], now, limit - |popped|)
        invariant Kept(entries, now, limit) == rest + Kept(entries[i..], now, limit - |popped|)
      {
        var e := entries[i];
        PopOne(entries[i..], now, limit - |popped|);
        assert entries[i..][1..] == entries[i + 1..];
        hide Taken, Kept;
        if IsDue(e, now) { popped := popped + [e]; } else { rest := rest + [e]; }
        i := i + 1;
      }
      PopNothing(entries[i..], now, limit - |popped|);
      entries := rest + entries[i..];
      assert popped == Taken(old(entries), now, limit) && entries == Kept(old(entries), now, limit);
      hide Taken, Kept, IsDue;
      PopSplits(old(entries), now, limit);
      TakenAreDue(old(entries), now, limit);
    }
  }

  lemma {:induction false} TakenAreDue(es: seq<Entry>, now: nat, limit: nat)
    ensures (forall e :: e in Taken(es, now, limit) ==> e.due <= now) && |Taken(es, now, limit)| <= limit
    ensures |Taken(es, now, limit)| < limit ==> forall e :: e in Kept(es, now, limit) ==> now < e.due
  {
    if |es| > 0 && limit > 0 {
      TakenAreDue(es[1..], now, if IsDue(es[0], now) then limit - 1 else limit);
    }
  }

  lemma SetOne(es: seq<Entry>, e: Entry)
    ensures |es| == 0 ==> Set(es, e) == [e]
    ensures |es| > 0 ==>
      Set(es, e) == if es[0].key == e.key then [e] + es[1..] else [es[0]] + Set(es[1..], e)
  {}

  /** An entry under a new key comes last, one under a key that is there takes its place. */
  ghost predicate Placed(es: seq<Entry>, es': seq<Entry>, e: Entry) {
    && ((forall x :: x in es ==> x.key != e.key) ==> es' == es + [e])
    && forall i :: 0 <= i < |es| && FirstOf(es, e.key, i) ==> es' == es[i := e]
  }

  ghost predicate FirstOf(es: seq<Entry>, key: Key, i: nat)
    requires i < |es|
  {
    es[i].key == key && forall k :: 0 <= k < i ==> es[k].key != key
  }

  lemma {:induction false} SetLast(es: seq<Entry>, e: Entry)
    requires forall x :: x in es ==> x.key != e.key
    ensures Set(es, e) == es + [e]
  {
    if |es| > 0 {
      assert es == [es[0]] + es[1..];
      SetLast(es[1..], e);
    }
  }

  lemma {:induction false} SetAt(es: seq<Entry>, e: Entry, i: nat)
    requires i < |es| && FirstOf(es, e.key, i)
    ensures Set(es, e) == es[i := e]
  {
    if i > 0 {
      assert forall k :: 0 <= k < i ==> es[1..][k] == es[k + 1];
      SetAt(es[1..], e, i - 1);
      assert es[i := e] == [es[0]] + es[1..][i - 1 := e];
    }
  }

  lemma SetPlaces(es: seq<Entry>, e: Entry)
    ensures Placed(es, Set(es, e), e)
  {
    hide Set, FirstOf;
    if forall x :: x in es ==> x.key != e.key { SetLast(es, e); }
    forall i | 0 <= i < |es| && FirstOf(es, e.key, i) ensures Set(es, e) == es[i := e] {
      SetAt(es, e, i);
    }
  }

  lemma {:induction false} WithoutKey(es: seq<Entry>, key: Key)
    ensures forall e :: e in Without(es, key) <==> e in es && e.key != key
  {
    if |es| > 0 {
      assert es == [es[0]] + es[1..];
      WithoutKey(es[1..], key);
    }
  }

  lemma PopOne(es: seq<Entry>, now: nat, limit: nat)
    requires |es| > 0 && limit > 0
    ensures IsDue(es[0], now) ==>
      Taken(es, now, limit) == [es[0]] + Taken(es[1..], now, limit - 1)
          && Kept(es, now, limit) == Kept(es[1..], now, limit - 1)
    ensures !IsDue(es[0], now) ==>
      Taken(es, now, limit) == Taken(es[1..], now, limit) && Kept(es, now, limit) == [es[0]] + Kept(es[1..], now, limit)
  {}

  lemma PopNothing(es: seq<Entry>, now: nat, limit: nat)
    requires |es| == 0 || limit == 0
    ensures Taken(es, now, limit) == [] && Kept(es, now, limit) == es
  {}

  // ---------------------------------------------------------------- many watchers

  datatype Phase = Resting | Working(since: nat)

  /** `handed[w]` lists the registrations that watcher w was given. */
  datatype System = System(
    time: nat,
    entries: seq<Entry>,
    lock: Option<Lock>,
    nextId: nat,
    phases: seq<Phase>,
    handed: seq<seq<nat>>)

  /** A working watcher may pop at any time before it releases, even long after its lock
      expired; a dead one never releases. */
  datatype Event =
    | Tick(to: nat)
    | Add(key: Key, due: nat)
    | Remove(key: Key)
    | Acquire(w: nat)
    | Pop(w: nat, limit: nat)
    | Release(w: nat)
    | Die(w: nat)

  predicate Enabled(s: System, e: Event) {
    |s.handed| == |s.phases| &&
    match e
    case Tick(to) => s.time <= to
    case Acquire(w) => w < |s.phases| && s.phases[w].Resting?
    case Pop(w, _) => w < |s.phases| && s.phases[w].Working?
    case Release(w) => w < |s.phases| && s.phases[w].Working?
    case Die(w) => w < |s.phases|
    case _ => true
  }

  function Ids(es: seq<Entry>): seq<nat> { seq(|es|, i requires 0 <= i < |es| => es[i].id) }

  /** `names[w]` is the instance id under which watcher w takes the lock. */
  function Next(names: seq<Instance>, s: System, e: Event): System
    requires Enabled(s, e) && |names| == |s.phases|
  {
    match e
    case Tick(to) => s.(time := to)
    case Add(key, due) => s.(entries := Set(s.entries, Entry(key, due, s.nextId)), nextId := s.nextId + 1)
    case Remove(key) => s.(entries := Without(s.entries, key))
    case Acquire(w) =>
      if s.lock.Some? && s.lock.value.expiry > s.time then s
      else s.(lock := Locked(s.lock, names[w], s.time), phases := s.phases[w := Working(s.time)])
    case Pop(w, limit) =>
      s.(entries := Kept(s.entries, s.time, limit),
         handed := s.handed[w := s.handed[w] + Ids(Taken(s.entries, s.time, limit))])
    case Release(w) => s.(lock := Released(s.lock, names[w]), phases := s.phases[w := Resting])
    case Die(w) => s.(phases := s.phases[w := Resting])
  }

  function Count(es: seq<Entry>, id: nat): nat {
    if |es| == 0 then 0 else (if es[0].id == id then 1 else 0) + Count(es[1..], id)
  }

  function Times(ids: seq<nat>, id: nat): nat {
    if |ids| == 0 then 0 else (if ids[0] == id then 1 else 0) + Times(ids[1..], id)
  }

  /** How often `id` was handed out, over all watchers. */
  function Handed(handed: seq<seq<nat>>, id: nat): nat {
    if |handed| == 0 then 0 else Times(handed[0], id) + Handed(handed[1..], id)
  }

  ghost predicate Once(s: System) {
    forall id: nat :: Count(s.entries, id) + Handed(s.handed, id) <= if id < s.nextId then 1 else 0
  }

  lemma {:induction false} TimesBoth(a: seq<nat>, b: seq<nat>, id: nat)
    ensures Times(a + b, id) == Times(a, id) + Times(b, id)
  {
    if |a| == 0 {
      assert a + b == b;
    } else {
      assert (a + b)[1..] == a[1..] + b;
      TimesBoth(a[1..], b, id);
    }
  }

  lemma {:induction false} HandedMore(handed: seq<seq<nat>>, w: nat, ids: seq<nat>, id: nat)
    requires w < |handed|
    ensures Handed(handed[w := handed[w] + ids], id) == Handed(handed, id) + Times(ids, id)
  {
    if w == 0 {
      TimesBoth(handed[0], ids, id);
      assert handed[0 := handed[0] + ids][1..] == handed[1..];
    } else {
      assert handed[w := handed[w] + ids][1..] == handed[1..][w - 1 := handed[w] + ids];
      HandedMore(handed[1..], w - 1, ids, id);
    }
  }

  lemma {:induction false} PopCounts(es: seq<Entry>, now: nat, limit: nat, id: nat)
    ensures Times(Ids(Taken(es, now, limit)), id) + Count(Kept(es, now, limit), id) == Count(es, id)
  {
    if |es| > 0 && limit > 0 {
      if IsDue(es[0], now) {
        PopCounts(es[1..], now, limit - 1, id);
        assert Ids(Taken(es, now, limit))[1..] == Ids(Taken(es[1..], now, limit - 1));
      } else {
        PopCounts(es[1..], now, limit, id);
        assert Kept(es, now, limit)[1..] == Kept(es[1..], now, limit);
      }
    }
  }

  lemma {:induction false} SetCounts(es: seq<Entry>, e: Entry, id: nat)
    ensures Count(Set(es, e), id) <= Count(es, id) + if e.id == id then 1 else 0
  {
    if |es| > 0 {
      if es[0].key == e.key {
        assert Set(es, e)[1..] == es[1..];
      } else {
        assert Set(es, e)[1..] == Set(es[1..], e);
        SetCounts(es[1..], e, id);
      }
    }
  }

  lemma {:induction false} WithoutCounts(es: seq<Entry>, key: Key, id: nat)
    ensures Count(Without(es, key), id) <= Count(es, id)
  {
    if |es| > 0 {
      WithoutCounts(es[1..], key, id);
      if es[0].key == key {
        assert Without(es, key) == Without(es[1..], key);
      } else {
        assert Without(es, key)[1..] == Without(es[1..], key);
      }
    }
  }

  lemma StepKeepsOnce(names: seq<Instance>, s: System, e: Event)
    requires Enabled(s, e) && |names| == |s.phases| && Once(s)
    ensures Once(Next(names, s, e))
  {
    var s' := Next(names, s, e);
    hide Set, Without, Taken, Kept, Count, Handed, Times;
    forall id: nat ensures Count(s'.entries, id) + Handed(s'.handed, id) <= if id < s'.nextId then 1 else 0 {
      assert Count(s.entries, id) + Handed(s.handed, id) <= if id < s.nextId then 1 else 0;
      match e
      case Add(key, due) => SetCounts(s.entries, Entry(key, due, s.nextId), id);
      case Remove(key) => WithoutCounts(s.entries, key, id);
      case Pop(w, limit) =>
        PopCounts(s.entries, s.time, limit, id);
        HandedMore(s.handed, w, Ids(Taken(s.entries, s.time, limit)), id);
      case _ =>
    }
  }

  ghost predicate IsRun(names: seq<Instance>, run: seq<System>, es: seq<Event>) {
    && |run| == |es| + 1 && run[0] == Start(|names|)
    && forall k :: 0 <= k < |es| ==>
        Enabled(run[k], es[k]) && |run[k].phases| == |names| && run[k + 1] == Next(names, run[k], es[k])
  }

  function Start(n: nat): System { System(0, [], None, 0, seq(n, i => Resting), NoneHanded(n)) }

  function NoneHanded(n: nat): seq<seq<nat>> { seq(n, i => []) }

  lemma {:induction false} NothingHanded(n: nat, id: nat)
    ensures Handed(NoneHanded(n), id) == 0
  {
    if n > 0 {
      assert NoneHanded(n)[1..] == NoneHanded(n - 1);
      NothingHanded(n - 1, id);
    }
  }

  /** Exactly once: in every interleaving of any number of watchers, those that outlive their
      lock included, each registration is handed out at most once over all of them, and not
      while it is still listed. */
  lemma {:induction false} HandedOutOnce(names: seq<Instance>, run: seq<System>, es: seq<Event>, m: nat)
    requires IsRun(names, run, es) && m < |run|
    ensures Once(run[m])
  {
    if m == 0 {
      forall id: nat ensures Handed(run[0].handed, id) == 0 {
        NothingHanded(|names|, id);
      }
    } else {
      HandedOutOnce(names, run, es, m - 1);
      hide Once, Next;
      StepKeepsOnce(names, run[m - 1], es[m - 1]);
    }
  }

  /** The event strikes registration `id` from the list: its key is removed, or set anew. */
  ghost predicate Strikes(s: System, e: Event, id: nat) {
    (e.Remove? || e.Add?) && exists x :: x in s.entries && x.id == id && x.key == e.key
  }

  lemma {:induction false} NotListed(es: seq<Entry>, id: nat)
    requires forall x :: x in es ==> x.id != id
    ensures Count(es, id) == 0
  {
    if |es| > 0 { NotListed(es[1..], id); }
  }

  /** An entry under another key is not touched by a removal or a new registration. */
  lemma {:induction false} OthersStay(es: seq<Entry>, key: Key, e: Entry, id: nat)
    requires e.key == key && forall x :: x in es && x.key == key ==> x.id != id
    ensures Count(Without(es, key), id) == Count(es, id)
    ensures Count(Set(es, e), id) == Count(es, id) + if e.id == id then 1 else 0
  {
    if |es| > 0 {
      OthersStay(es[1..], key, e, id);
      if es[0].key == key {
        assert Without(es, key) == Without(es[1..], key) && Set(es, e)[1..] == es[1..];
      } else {
        assert Without(es, key)[1..] == Without(es[1..], key) && Set(es, e)[1..] == Set(es[1..], e);
      }
    }
  }

  lemma StepKeepsListedOrHanded(names: seq<Instance>, s: System, e: Event, id: nat)
    requires Enabled(s, e) && |names| == |s.phases| && !Strikes(s, e, id)
    ensures var s' := Next(names, s, e);
      Count(s'.entries, id) + Handed(s'.handed, id)
      == Count(s.entries, id) + Handed(s.handed, id) + if e.Add? && id == s.nextId then 1 else 0
  {
    hide Set, Without, Taken, Kept, Count, Handed, Times;
    match e
    case Add(key, due) => OthersStay(s.entries, key, Entry(key, due, s.nextId), id);
    case Remove(key) => OthersStay(s.entries, key, Entry(key, 0, s.nextId), id);
    case Pop(w, limit) =>
      PopCounts(s.entries, s.time, limit, id);
      HandedMore(s.handed, w, Ids(Taken(s.entries, s.time, limit)), id);
    case _ =>
  }

  /** Nothing vanishes either: a registration that no removal and no new registration of its key
      struck is listed or was handed out, exactly once. */
  lemma {:induction false} ListedOrHandedOnce(names: seq<Instance>, run: seq<System>, es: seq<Event>, m: nat, id: nat)
    requires IsRun(names, run, es) && m < |run|
    requires forall k :: 0 <= k < m ==> !Strikes(run[k], es[k], id)
    ensures Count(run[m].entries, id) + Handed(run[m].handed, id) == if id < run[m].nextId then 1 else 0
  {
    if m == 0 {
      NothingHanded(|names|, id);
    } else {
      ListedOrHandedOnce(names, run, es, m - 1, id);
      IdsGrow(names, run[m - 1], es[m - 1]);
      hide Next;
      StepKeepsListedOrHanded(names, run[m - 1], es[m - 1], id);
    }
  }

  lemma IdsGrow(names: seq<Instance>, s: System, e: Event)
    requires Enabled(s, e) && |names| == |s.phases|
    ensures Next(names, s, e).nextId == s.nextId + if e.Add? then 1 else 0
  {}

  // ---------------------------------------------------------------- the lock

  predicate Distinct(names: seq<Instance>) { forall i, k :: 0 <= i < k < |names| ==> names[i] != names[k] }

  /** A watcher within its lock's lifetime is the one the store names. */
  ghost predicate Exclusive(names: seq<Instance>, s: System) {
    && |s.phases| == |names|
    && forall w :: 0 <= w < |s.phases| && s.phases[w].Working? ==>
         && s.phases[w].since <= s.time
         && (s.time < s.phases[w].since + LOCK_TTL ==> s.lock == Some(Lock(names[w], s.phases[w].since + LOCK_TTL)))
  }

  lemma StepKeepsExclusive(names: seq<Instance>, s: System, e: Event)
    requires Enabled(s, e) && Exclusive(names, s) && Distinct(names)
    ensures Exclusive(names, Next(names, s, e))
  {}

  lemma {:induction false} StaysExclusive(names: seq<Instance>, run: seq<System>, es: seq<Event>, m: nat)
    requires IsRun(names, run, es) && m < |run| && Distinct(names)
    ensures Exclusive(names, run[m])
  {
    if m > 0 {
      StaysExclusive(names, run, es, m - 1);
      hide Exclusive, Next;
      StepKeepsExclusive(names, run[m - 1], es[m - 1]);
    }
  }

  predicate Holds(s: System, w: nat) {
    w < |s.phases| && s.phases[w].Working? && s.time < s.phases[w].since + LOCK_TTL
  }

  /** At any moment at most one watcher is working within its lock's lifetime, if no two
      share an instance id. */
  lemma OneHolder(names: seq<Instance>, run: seq<System>, es: seq<Event>, m: nat, w: nat, v: nat)
    requires IsRun(names, run, es) && m < |run| && Distinct(names)
    requires Holds(run[m], w) && Holds(run[m], v)
    ensures w == v
  {
    StaysExclusive(names, run, es, m);
  }

  /** Watchers w and v both work within their lock's lifetime at moment m of the run. */
  ghost predicate TwoHolders(names: seq<Instance>, run: seq<System>, es: seq<Event>, m: nat, w: nat, v: nat) {
    IsRun(names, run, es) && m < |run| && w != v && Holds(run[m], w) && Holds(run[m], v)
  }

  ghost predicate SomeRunHasTwoHolders(names: seq<Instance>) {
    exists run: seq<System>, es: seq<Event>, m: nat, w: nat, v: nat :: TwoHolders(names, run, es, m, w, v)
  }

  /** Two watchers under one name are enough: the first outlives its lock, its release frees the
      second's, and it enters again. */
  lemma SharedNameBreaksTheLock(names: seq<Instance>, w: nat, v: nat) returns (run: seq<System>, es: seq<Event>)
    requires w < v < |names| && names[w] == names[v]
    ensures TwoHolders(names, run, es, 5, w, v)
  {
    var n := |names|;
    es := [Acquire(w), Tick(LOCK_TTL), Acquire(v), Release(w), Acquire(w)];
    var s0 := Start(n);
    var s1 := Next(names, s0, es[0]);
    var s2 := Next(names, s1, es[1]);
    var s3 := Next(names, s2, es[2]);
    assert s3.phases[w] == Working(0) && s3.phases[v] == Working(LOCK_TTL);
    var s4 := Next(names, s3, es[3]);
    assert s4.lock == None;
    var s5 := Next(names, s4, es[4]);
    run := [s0, s1, s2, s3, s4, s5];
  }

  /** Mutual exclusion, exactly: no run has two holders if and only if no two watchers share an
      instance id. */
  lemma ExclusionExactly(names: seq<Instance>)
    ensures Distinct(names) <==> !SomeRunHasTwoHolders(names)
  {
    if Distinct(names) {
      forall run: seq<System>, es: seq<Event>, m: nat, w: nat, v: nat ensures !TwoHolders(names, run, es, m, w, v) {
        if TwoHolders(names, run, es, m, w, v) {
          OneHolder(names, run, es, m, w, v);
        }
      }
    } else {
      var w, v :| 0 <= w < v < |names| && names[w] == names[v];
      var run, es := SharedNameBreaksTheLock(names, w, v);
      assert TwoHolders(names, run, es, 5, w, v);
    }
  }
}
