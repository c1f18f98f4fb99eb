/** The worker index of the Redis store: sorted sets for idle workers and for each skill, kept
    beside the worker records, against the plain scan that the in-memory store makes.
    Expiry scores are abstracted: a record may expire at any moment, and so may the set that
    remembers which skill indexes mention a worker. */
module WorkerIndex {
  import opened Basics

  type WorkerId = nat

  /** Missing fields are empty strings. */
  datatype Skill = Skill(name: string, kind: string)

  datatype Info = Info(status: Option<string>, skills: seq<Skill>)

  /** A heartbeat: what it does not mention stays. `hotChanged` says that it changes the hot skills. */
  datatype Update = Update(status: Option<string>, skills: Option<seq<Skill>>, hotChanged: bool)

  datatype Store = Store(
    info: map<WorkerId, Info>,
    all: set<WorkerId>,
    idle: set<WorkerId>,
    skillIndex: set<(string, WorkerId)>,
    skillsKey: map<WorkerId, set<string>>)

  const EMPTY := Store(map[], {}, {}, {}, map[])

  function StatusOf(i: Info): string { if i.status.Some? then i.status.value else "idle" }

  /** Registration indexes names and types; a heartbeat passes over a skill without a name. */
  function KeysAtRegistration(skills: seq<Skill>): set<string> {
    (set s | s in skills && s.name != "" :: s.name) + (set s | s in skills && s.kind != "" :: s.kind)
  }

  function KeysAtUpdate(skills: seq<Skill>): set<string> {
    (set s | s in skills && s.name != "" :: s.name) + (set s | s in skills && s.name != "" && s.kind != "" :: s.kind)
  }

  function Entries(keys: set<string>, w: WorkerId): set<(string, WorkerId)> { set k | k in keys :: (k, w) }

  function Indexed(s: Store, w: WorkerId, keys: set<string>): Store {
    s.(skillIndex := s.skillIndex + Entries(keys, w),
        skillsKey := if keys == {} then s.skillsKey else s.skillsKey[w := keys])
  }

  function SetIdle(s: Store, w: WorkerId, idle: bool): Store { s.(idle := if idle then s.idle + {w} else s.idle - {w}) }

  function Written(s: Store, w: WorkerId, i: Info): Store { s.(info := s.info[w := i], all := s.all + {w}) }

  function Registered(s: Store, w: WorkerId, i: Info): Store {
    Indexed(SetIdle(Written(s, w, i), w, StatusOf(i) == "idle"), w, KeysAtRegistration(i.skills))
  }

  function Merged(i: Info, u: Update): Info {
    Info(if u.status.Some? then u.status else i.status, if u.skills.Some? then u.skills.value else i.skills)
  }

  predicate NewSkills(i: Info, u: Update) { u.skills.Some? && u.skills.value != i.skills }

  predicate NewStatus(i: Info, u: Update) { u.status.Some? && u.status.value != StatusOf(i) }

  /** `update_worker_status`: a script when no index seems concerned, else a transaction. */
  function Updated(s: Store, w: WorkerId, u: Update): Store {
    if w !in s.info then s
    else
      var i := s.info[w];
      var merged := Merged(i, u);
      var written := Written(s, w, merged);
      if !NewSkills(i, u) && !NewStatus(i, u) && !u.hotChanged
      then SetIdle(written, w, merged.status == Some("idle"))
      else
        var skilled := if NewSkills(i, u) then Indexed(written, w, KeysAtUpdate(u.skills.value)) else written;
        if NewStatus(i, u) then SetIdle(skilled, w, u.status.value == "idle") else skilled
  }

  /** The index entries that the worker's own list mentions go; the list and the rest too. */
  function Struck(s: Store, w: WorkerId): Store {
    var keys := if w in s.skillsKey then s.skillsKey[w] else {};
    s.(all := s.all - {w}, idle := s.idle - {w}, skillIndex := s.skillIndex - Entries(keys, w),
        skillsKey := s.skillsKey - {w})
  }

  function Deregistered(s: Store, w: WorkerId): Store { Struck(s.(info := s.info - {w}), w) }

  /** The workers that the clean-up finds dead. */
  function Dead(s: Store): set<WorkerId> { s.all - s.info.Keys }

  // ---------------------------------------------------------------- the store in place

  class RedisStore {
    var info: map<WorkerId, Info>
    var all: set<WorkerId>
    var idle: set<WorkerId>
    var skillIndex: set<(string, WorkerId)>
    var skillsKey: map<WorkerId, set<string>>

    function State(): Store
      reads this
    {
      Store(info, all, idle, skillIndex, skillsKey)
    }

    constructor ()
      ensures State() == EMPTY
    {
      info, all, idle, skillIndex, skillsKey := map[], {}, {}, {}, map[];
    }

    method Write(w: WorkerId, i: Info)
      modifies this
      ensures State() == Written(old(State()), w, i)
    {
      info, all := info[w := i], all + {w};
    }

    method MarkIdle(w: WorkerId, isIdle: bool)
      modifies this
      ensures State() == SetIdle(old(State()), w, isIdle)
    {
      if isIdle { idle := idle + {w}; } else { idle := idle - {w}; }
    }

    /** The loop over the skills; `unnamed` says whether a skill without a name counts. */
    method IndexSkills(w: WorkerId, skills: seq<Skill>, unnamed: bool)
      modifies this
      ensures State() == Indexed(old(State()), w, if unnamed then KeysAtRegistration(skills) else KeysAtUpdate(skills))
    {
      var keys := {};
      assert Entries(keys, w) == {};
      NoKeys();
      hide KeysAtRegistration, KeysAtUpdate, Entries, KeysOf;
      for n := 0 to |skills|
        invariant keys == if unnamed then KeysAtRegistration(skills[..n]) else KeysAtUpdate(skills[..n])
        invariant State() == old(State()).(skillIndex := old(skillIndex) + Entries(keys, w))
      {
        assert skills[..n + 1] == skills[..n] + [skills[n]];
        KeysOfLonger(skills[..n], skills[n], unnamed);
        EntriesOfMore(keys, KeysOf(skills[n], unnamed), w);
        var more := IndexSkill(w, skills[n], unnamed);
        keys := keys + more;
      }
      assert skills[..|skills|] == skills;
      if keys != {} { skillsKey := skillsKey[w := keys]; }
    }

    method IndexSkill(w: WorkerId, s: Skill, unnamed: bool) returns (keys: set<string>)
      modifies this`skillIndex
      ensures keys == KeysOf(s, unnamed) && skillIndex == old(skillIndex) + Entries(keys, w)
    {
      keys := {};
      if s.name != "" { keys := keys + {s.name}; }
      if s.kind != "" && (unnamed || s.name != "") { keys := keys + {s.kind}; }
      skillIndex := skillIndex + Entries(keys, w);
    }

    method RegisterWorker(w: WorkerId, i: Info)
      modifies this
      ensures State() == Registered(old(State()), w, i)
      // The record; idle unless it says otherwise; an entry for each name and type, and the list of these.
      ensures info == old(info)[w := i] && all == old(all) + {w}
      ensures idle == if i.status == None || i.status == Some("idle") then old(idle) + {w} else old(idle) - {w}
      ensures forall e :: e in skillIndex <==>
        e in old(skillIndex) || (e.1 == w && e.0 != "" && exists s :: s in i.skills && (s.name == e.0 || s.kind == e.0))
      ensures forall v :: v != w ==> Find(skillsKey, v) == Find(old(skillsKey), v)
      ensures if Keyed(i.skills, true) then w in skillsKey && Listed(i.skills, skillsKey[w], true)
              else Find(skillsKey, w) == Find(old(skillsKey), w)
    {
      KeysListed(i.skills);
      Write(w, i);
      MarkIdle(w, StatusOf(i) == "idle");
      IndexSkills(w, i.skills, true);
    }

    method UpdateWorkerStatus(w: WorkerId, u: Update) returns (found: bool)
      modifies this
      ensures State() == Updated(old(State()), w, u) && (found <==> w in old(info))
      ensures !found ==> State() == old(State())
      // What the heartbeat brings is written, the rest stays.
      ensures found ==>
        && all == old(all) + {w} && w in info && info == old(info)[w := info[w]]
        && info[w].status == (if u.status.Some? then u.status else old(info)[w].status)
        && info[w].skills == (if u.skills.Some? then u.skills.value else old(info)[w].skills)
      // The idle index: by the script when nothing seems new, else only if the status is new.
      ensures found ==>
        var i := old(info)[w];
        var was := if i.status.Some? then i.status.value else "idle";
        if (u.skills.None? || u.skills.value == i.skills) && (u.status.None? || u.status.value == was) && !u.hotChanged
        then idle == if info[w].status == Some("idle") then old(idle) + {w} else old(idle) - {w}
        else if u.status.Some? && u.status.value != was
        then idle == if u.status.value == "idle" then old(idle) + {w} else old(idle) - {w}
        else idle == old(idle)
      // The skill indexes: names, and types of named skills, of a new list of skills.
      ensures found ==> forall e :: e in skillIndex <==>
        e in old(skillIndex)
        || (u.skills.Some? && u.skills.value != old(info)[w].skills && e.1 == w && e.0 != ""
            && exists s :: s in u.skills.value && s.name != "" && (s.name == e.0 || s.kind == e.0))
      ensures forall v :: v != w ==> Find(skillsKey, v) == Find(old(skillsKey), v)
      ensures found ==>
        if u.skills.Some? && u.skills.value != old(info)[w].skills && Keyed(u.skills.value, false)
        then w in skillsKey && Listed(u.skills.value, skillsKey[w], false)
        else Find(skillsKey, w) == Find(old(skillsKey), w)
    {
      if u.skills.Some? { KeysListed(u.skills.value); }
      if w !in info { return false; }
      var current := info[w];
      var newSkills, newStatus := NewSkills(current, u), NewStatus(current, u);
      var merged := Merged(current, u);
      Write(w, merged);
      if !newSkills && !newStatus && !u.hotChanged {
        MarkIdle(w, merged.status == Some("idle"));
      } else {
        if newSkills { IndexSkills(w, u.skills.value, false); }
        if newStatus { MarkIdle(w, u.status.value == "idle"); }
      }
      found := true;
    }

    method Strike(w: WorkerId)
      modifies this
      ensures State() == Struck(old(State()), w)
    {
      var keys := if w in skillsKey then skillsKey[w] else {};
      all, idle := all - {w}, idle - {w};
      skillIndex, skillsKey := skillIndex - Entries(keys, w), skillsKey - {w};
    }

    method DeregisterWorker(w: WorkerId)
      modifies this
      ensures State() == Deregistered(old(State()), w)
      // The worker is gone, from the idle index too, and from the skill indexes that its list names.
      ensures info == old(info) - {w} && all == old(all) - {w} && idle == old(idle) - {w}
      ensures skillsKey == old(skillsKey) - {w}
      ensures forall e :: e in skillIndex <==>
        e in old(skillIndex) && !(e.1 == w && w in old(skillsKey) && e.0 in old(skillsKey)[w])
    {
      info := info - {w};
      Strike(w);
    }

    /** `cleanup_expired_workers`, in any order of the dead. */
    method CleanUp()
      modifies this
      ensures info == old(info) && all == old(all) * info.Keys && idle == old(idle) - (old(all) - info.Keys)
      ensures forall e :: e in skillIndex <==>
        e in old(skillIndex) && !(e.1 in old(all) - info.Keys && e.1 in old(skillsKey) && e.0 in old(skillsKey)[e.1])
      ensures forall w :: w in skillsKey <==> w in old(skillsKey) && w !in old(all) - info.Keys
      ensures forall w :: w in skillsKey ==> skillsKey[w] == old(skillsKey)[w]
    {
      ghost var dead := Dead(State());
      var left := Dead(State());
      while left != {}
        invariant left <= dead && info == old(info) && dead == Dead(old(State()))
        invariant all == old(all) - (dead - left) && idle == old(idle) - (dead - left)
        invariant forall w :: w in skillsKey <==> w in old(skillsKey) && w !in dead - left
        invariant forall w :: w in skillsKey ==> skillsKey[w] == old(skillsKey)[w]
        invariant forall e :: e in skillIndex <==>
          e in old(skillIndex) && !(e.1 in dead - left && e.1 in old(skillsKey) && e.0 in old(skillsKey)[e.1])
        decreases left
      {
        var w :| w in left;
        assert w in skillsKey <==> w in old(skillsKey);
        ghost var before := skillIndex;
        ghost var keys := if w in skillsKey then skillsKey[w] else {};
        Strike(w);
        assert forall e :: e in skillIndex <==> e in before && !(e.1 == w && e.0 in keys) by {
          assert forall e :: e in Entries(keys, w) <==> e.1 == w && e.0 in keys;
        }
        left := left - {w};
      }
    }

    /** `find_workers_for_skill` of the Redis store. */
    method FindWorkersForSkill(skill: string) returns (found: set<WorkerId>)
      ensures found == Lookup(State(), skill)
      ensures forall w :: w in found <==> (skill, w) in skillIndex && w in idle
    {
      found := set e | e in skillIndex && e.0 == skill && e.1 in idle :: e.1;
    }
  }

  /** The keys under which a list of skills is indexed; `unnamed` says whether skills without a
      name count. */
  ghost predicate Listed(skills: seq<Skill>, keys: set<string>, unnamed: bool) {
    forall k :: k in keys <==>
      k != "" && exists s :: s in skills && (unnamed || s.name != "") && (s.name == k || s.kind == k)
  }

  ghost predicate Keyed(skills: seq<Skill>, unnamed: bool) {
    exists s :: s in skills && (s.name != "" || (unnamed && s.kind != ""))
  }

  lemma KeysListed(skills: seq<Skill>)
    ensures Listed(skills, KeysAtRegistration(skills), true) && Listed(skills, KeysAtUpdate(skills), false)
    ensures Keyed(skills, true) <==> KeysAtRegistration(skills) != {}
    ensures Keyed(skills, false) <==> KeysAtUpdate(skills) != {}
  {
    if s :| s in skills && s.name != "" {
      assert s.name in KeysAtUpdate(skills) && s.name in KeysAtRegistration(skills);
    }
    if s :| s in skills && s.kind != "" {
      assert s.kind in KeysAtRegistration(skills);
    }
  }

  function KeysOf(s: Skill, unnamed: bool): set<string> {
    (if s.name != "" then {s.name} else {}) + if s.kind != "" && (unnamed || s.name != "") then {s.kind} else {}
  }

  lemma KeysOfLonger(skills: seq<Skill>, s: Skill, unnamed: bool)
    ensures unnamed ==> KeysAtRegistration(skills + [s]) == KeysAtRegistration(skills) + KeysOf(s, true)
    ensures !unnamed ==> KeysAtUpdate(skills + [s]) == KeysAtUpdate(skills) + KeysOf(s, false)
  {
    assert forall x :: x in skills + [s] <==> x in skills || x == s;
  }

  lemma EntriesOfMore(less: set<string>, more: set<string>, w: WorkerId)
    ensures Entries(less + more, w) == Entries(less, w) + Entries(more, w)
  {}

  lemma NoKeys()
    ensures KeysAtRegistration([]) == {} && KeysAtUpdate([]) == {}
  {}

  // ---------------------------------------------------------------- lookup and scan

  /** The intersection of the two indexes. */
  function Lookup(s: Store, skill: string): set<WorkerId> {
    set e | e in s.skillIndex && e.0 == skill && e.1 in s.idle :: e.1
  }

  /** Indexes and scan take a skill by its name or by its type. */
  predicate Supports(i: Info, skill: string) { exists k :: k in i.skills && (k.name == skill || k.kind == skill) }

  /** The dispatcher takes it by its name only. */
  predicate Named(i: Info, skill: string) { exists k :: k in i.skills && k.name == skill }

  /** The scan of the in-memory store over the live records. */
  function Scan(s: Store, skill: string): set<WorkerId> {
    set w | w in s.info && StatusOf(s.info[w]) == "idle" && Supports(s.info[w], skill)
  }

  /** What the dispatcher keeps of a lookup: the records that are there, not draining, and
      name the skill. */
  function Rechecked(s: Store, skill: string): set<WorkerId> {
    set w | w in Lookup(s, skill) && w in s.info && StatusOf(s.info[w]) != "draining" && Named(s.info[w], skill)
  }

  /** A live worker is in the idle index exactly when it is idle, and in the index of every
      name and type it lists. */
  ghost predicate Agrees(s: Store, w: WorkerId)
    requires w in s.info
  {
    && w in s.all && (w in s.idle <==> StatusOf(s.info[w]) == "idle")
    && forall k :: k in s.info[w].skills ==> SkillIndexed(s, w, k)
  }

  predicate SkillIndexed(s: Store, w: WorkerId, k: Skill) {
    (k.name != "" ==> (k.name, w) in s.skillIndex) && (k.kind != "" ==> (k.kind, w) in s.skillIndex)
  }

  ghost predicate Inv(s: Store) { forall w :: w in s.info ==> Agrees(s, w) }

  datatype Op =
    | Register(worker: WorkerId, info: Info)
    | Heartbeat(worker: WorkerId, update: Update)
    | Deregister(worker: WorkerId)
    | Clean(worker: WorkerId)
    | Expire(worker: WorkerId)
    | ExpireKeys(worker: WorkerId)

  /** Clean-up strikes dead workers one after another; striking a live one never happens. */
  function Do(s: Store, op: Op): Store {
    match op
    case Register(w, i) => Registered(s, w, i)
    case Heartbeat(w, u) => Updated(s, w, u)
    case Deregister(w) => Deregistered(s, w)
    case Clean(w) => if w in Dead(s) then Struck(s, w) else s
    case Expire(w) => s.(info := s.info - {w})
    case ExpireKeys(w) => s.(skillsKey := s.skillsKey - {w})
  }

  /** The heartbeat that the script handles: no index seems concerned. */
  predicate Plain(i: Info, u: Update) { !NewSkills(i, u) && !NewStatus(i, u) && !u.hotChanged }

  /** A new skill is indexed whole: it has a name, or no type, or its type is indexed already or
      by another of the new skills. */
  predicate Covered(s: Store, w: WorkerId, skills: seq<Skill>) {
    forall k :: k in skills && k.name == "" && k.kind != "" ==>
      (k.kind, w) in s.skillIndex || k.kind in KeysAtUpdate(skills)
  }

  /** What a caller can see before the call: a plain heartbeat finds or brings a status, and new
      skills are covered. Nothing is asked of the other operations. */
  predicate Aligned(s: Store, op: Op) {
    op.Heartbeat? && op.worker in s.info ==>
      var i := s.info[op.worker];
      && (Plain(i, op.update) ==> Merged(i, op.update).status.Some?)
      && (NewSkills(i, op.update) ==> Covered(s, op.worker, op.update.skills.value))
  }

  /** The operation leaves what is known of worker w alone. */
  lemma OthersAgree(s: Store, op: Op, w: WorkerId)
    requires w in s.info && Agrees(s, w) && w != op.worker
    ensures w in Do(s, op).info && Agrees(Do(s, op), w)
  {}

  lemma KeysCover(skills: seq<Skill>, w: WorkerId, k: Skill)
    requires k in skills
    ensures k.name != "" ==> (k.name, w) in Entries(KeysAtRegistration(skills), w)
    ensures k.kind != "" ==> (k.kind, w) in Entries(KeysAtRegistration(skills), w)
    ensures k.name != "" ==> (k.name, w) in Entries(KeysAtUpdate(skills), w)
    ensures k.name != "" && k.kind != "" ==> (k.kind, w) in Entries(KeysAtUpdate(skills), w)
  {
    assert k.name != "" ==> k.name in KeysAtRegistration(skills) && k.name in KeysAtUpdate(skills);
    assert k.kind != "" ==> k.kind in KeysAtRegistration(skills) && (k.name != "" ==> k.kind in KeysAtUpdate(skills));
  }

  lemma RegisteredAgrees(s: Store, w: WorkerId, i: Info)
    ensures w in Registered(s, w, i).info && Agrees(Registered(s, w, i), w)
  {
    forall k | k in i.skills ensures SkillIndexed(Registered(s, w, i), w, k) {
      KeysCover(i.skills, w, k);
      hide KeysAtRegistration, KeysAtUpdate, Entries;
    }
    hide KeysAtRegistration, Entries;
  }

  /** The skills of a heartbeat: all indexed afterwards if and only if they were covered. */
  lemma SkillsAgreeExactly(s: Store, w: WorkerId, u: Update)
    requires w in s.info && Agrees(s, w) && NewSkills(s.info[w], u)
    ensures Covered(s, w, u.skills.value)
       <==> forall k :: k in u.skills.value ==> SkillIndexed(Updated(s, w, u), w, k)
  {
    var skills, s' := u.skills.value, Updated(s, w, u);
    assert s'.skillIndex == s.skillIndex + Entries(KeysAtUpdate(skills), w);
    hide Updated;
    forall k | k in skills
      ensures SkillIndexed(s', w, k) <==> (k.name == "" && k.kind != "" ==>
        (k.kind, w) in s.skillIndex || k.kind in KeysAtUpdate(skills))
    {
      KeysCover(skills, w, k);
    }
  }

  lemma IdleAgreesExactly(s: Store, w: WorkerId, u: Update)
    requires w in s.info && Agrees(s, w)
    ensures var s' := Updated(s, w, u);
      (Plain(s.info[w], u) ==> Merged(s.info[w], u).status.Some?)
      <==> (w in s'.idle <==> StatusOf(s'.info[w]) == "idle")
  {
    hide KeysAtUpdate, Entries;
  }

  lemma UpdatedAgreesExactly(s: Store, w: WorkerId, u: Update)
    requires w in s.info && Agrees(s, w)
    ensures Agrees(Updated(s, w, u), w) <==> Aligned(s, Heartbeat(w, u))
  {
    IdleAgreesExactly(s, w, u);
    var s' := Updated(s, w, u);
    assert s'.info[w] == Merged(s.info[w], u) && w in s'.all;
    if NewSkills(s.info[w], u) {
      SkillsAgreeExactly(s, w, u);
      hide Updated, SkillIndexed, Covered;
    } else {
      assert s'.info[w].skills == s.info[w].skills && s'.skillIndex == s.skillIndex;
      hide Updated;
    }
  }

  /** An operation keeps indexes and records in agreement if and only if it is aligned. */
  lemma DoKeepsInvExactly(s: Store, op: Op)
    requires Inv(s)
    ensures Inv(Do(s, op)) <==> Aligned(s, op)
  {
    var s' := Do(s, op);
    forall w | w in s'.info && w != op.worker ensures Agrees(s', w) {
      assert w in s.info;
      OthersAgree(s, op, w);
    }
    match op
    case Register(w, i) => RegisteredAgrees(s, w, i);
    case Heartbeat(w, u) => if w in s.info { UpdatedAgreesExactly(s, w, u); }
    case _ =>
  }

  function After(ops: seq<Op>): Store {
    if |ops| == 0 then EMPTY else Do(After(ops[..|ops| - 1]), ops[|ops| - 1])
  }

  /** Every operation was aligned when it came. */
  ghost predicate InLine(ops: seq<Op>) {
    |ops| == 0 || (InLine(ops[..|ops| - 1]) && Aligned(After(ops[..|ops| - 1]), ops[|ops| - 1]))
  }

  lemma {:induction false} RunKeepsInv(ops: seq<Op>)
    requires InLine(ops)
    ensures Inv(After(ops))
  {
    if |ops| > 0 {
      RunKeepsInv(ops[..|ops| - 1]);
      hide Inv, Do, Aligned;
      DoKeepsInvExactly(After(ops[..|ops| - 1]), ops[|ops| - 1]);
    }
  }

  /** Registrations state a status; the skills of heartbeats have names. */
  predicate Explicit(op: Op) {
    match op
    case Register(_, i) => i.status.Some?
    case Heartbeat(_, u) => u.skills.Some? ==> forall k :: k in u.skills.value ==> k.name != ""
    case _ => true
  }

  ghost predicate AllStated(s: Store) { forall w :: w in s.info ==> s.info[w].status.Some? }

  /** Stated statuses and named skills are enough. */
  lemma {:induction false} ExplicitIsInLine(ops: seq<Op>)
    requires forall op :: op in ops ==> Explicit(op)
    ensures InLine(ops) && AllStated(After(ops))
  {
    if |ops| > 0 {
      ExplicitIsInLine(ops[..|ops| - 1]);
      assert Explicit(ops[|ops| - 1]) by { assert ops[|ops| - 1] in ops; }
      ExplicitStep(After(ops[..|ops| - 1]), ops[|ops| - 1]);
    }
  }

  lemma ExplicitStep(s: Store, op: Op)
    requires AllStated(s) && Explicit(op)
    ensures AllStated(Do(s, op)) && Aligned(s, op)
  {}

  /** After any sequence of aligned operations, with records expiring in between, the index
      lookup finds every worker that the scan finds; of the live workers it finds no other that
      supports the skill; and the dispatcher's look at the records leaves exactly those of
      the scan that name the skill. */
  lemma LookupMatchesScan(ops: seq<Op>, skill: string)
    requires InLine(ops) && skill != ""
    ensures var s := After(ops);
      && Scan(s, skill) <= Lookup(s, skill)
      && (forall w :: w in s.info && Supports(s.info[w], skill) ==> (w in Lookup(s, skill) <==> w in Scan(s, skill)))
      && Rechecked(s, skill) == (set w | w in Scan(s, skill) && Named(s.info[w], skill))
      && (forall w :: w in s.info ==> (w in s.idle <==> StatusOf(s.info[w]) == "idle"))
  {
    RunKeepsInv(ops);
    hide After, InLine;
    InvMatches(After(ops), skill);
  }

  lemma InvMatches(s: Store, skill: string)
    requires Inv(s) && skill != ""
    ensures Scan(s, skill) <= Lookup(s, skill)
    ensures forall w :: w in s.info && Supports(s.info[w], skill) ==> (w in Lookup(s, skill) <==> w in Scan(s, skill))
    ensures Rechecked(s, skill) == set w | w in Scan(s, skill) && Named(s.info[w], skill)
    ensures forall w :: w in s.info ==> (w in s.idle <==> StatusOf(s.info[w]) == "idle")
  {
    forall w | w in s.info ensures w in s.idle <==> StatusOf(s.info[w]) == "idle" {
      assert Agrees(s, w);
    }
    forall w | w in Scan(s, skill) ensures w in Lookup(s, skill) {
      assert Agrees(s, w);
      var k :| k in s.info[w].skills && (k.name == skill || k.kind == skill);
      assert SkillIndexed(s, w, k) && (skill, w) in s.skillIndex;
    }
    hide Inv;
    forall w ensures w in Rechecked(s, skill) <==> w in Scan(s, skill) && Named(s.info[w], skill) {
      if w in s.info && Named(s.info[w], skill) {
        assert Supports(s.info[w], skill);
      }
    }
  }

  /** The dispatcher's look is the scan exactly when no scanned worker supports the skill by its
      type alone. */
  lemma RecheckIsScanExactly(ops: seq<Op>, skill: string)
    requires InLine(ops) && skill != ""
    ensures var s := After(ops);
      Rechecked(s, skill) == Scan(s, skill) <==> forall w :: w in Scan(s, skill) ==> Named(s.info[w], skill)
  {
    LookupMatchesScan(ops, skill);
    var s := After(ops);
    hide After, InLine;
    if Rechecked(s, skill) == Scan(s, skill) {
      forall w | w in Scan(s, skill) ensures Named(s.info[w], skill) {
        assert w in Rechecked(s, skill);
      }
    }
  }

  /** A worker that offers "resize" of type "image" is found for a task of type "image" by both
      the index and the scan, and dropped by the dispatcher. */
  lemma TypeAloneIsDropped(w: WorkerId)
    ensures var ops := [Register(w, Info(Some("idle"), [Skill("resize", "image")]))];
      && InLine(ops) && w in Scan(After(ops), "image") && w in Lookup(After(ops), "image")
      && w !in Rechecked(After(ops), "image")
  {
    var k := Skill("resize", "image");
    var ops := [Register(w, Info(Some("idle"), [k]))];
    assert ops[..0] == [] && After(ops[..0]) == EMPTY;
    var s := Registered(EMPTY, w, Info(Some("idle"), [k]));
    assert After(ops) == s && s.info[w].skills == [k];
    assert k in [k];
    KeysCover([k], w, k);
    assert ("image", w) in s.skillIndex;
    assert Supports(s.info[w], "image");
    assert forall x :: x in [k] ==> x == k;
    assert "resize" != "image";
    assert !Named(s.info[w], "image");
  }

  // ---------------------------------------------------------------- what the conditions are for

  /** A worker registered without a status is idle to the scan, and in the idle index until its
      first heartbeat that changes nothing, which removes it. */
  lemma HeartbeatHidesImplicitlyIdle(s: Store, w: WorkerId, skills: seq<Skill>)
    ensures var u := Update(None, None, false);
      var s' := Updated(Registered(s, w, Info(None, skills)), w, u);
      && w in Registered(s, w, Info(None, skills)).idle
      && w !in s'.idle && w in s'.info && StatusOf(s'.info[w]) == "idle"
  {}

  /** Exactly the missing status is to blame: a heartbeat without news keeps the idle index in
      line with the record if and only if the record states a status. */
  lemma PlainHeartbeat(s: Store, w: WorkerId)
    requires w in s.info && (w in s.idle <==> StatusOf(s.info[w]) == "idle")
    ensures var s' := Updated(s, w, Update(None, None, false));
      (w in s'.idle <==> StatusOf(s'.info[w]) == "idle") <==> s.info[w].status.Some?
  {}

  /** A skill without a name, new in a heartbeat, is found by the scan through its type and is
      not indexed. */
  lemma HeartbeatSkipsUnnamed(w: WorkerId, kind: string)
    requires kind != ""
    ensures var u := Update(None, Some([Skill("", kind)]), false);
      var s := Updated(Registered(EMPTY, w, Info(Some("idle"), [])), w, u);
      w in Scan(s, kind) && w !in Lookup(s, kind)
  {
    var s0 := Registered(EMPTY, w, Info(Some("idle"), []));
    assert KeysAtRegistration([]) == {} && Entries({}, w) == {};
    var u := Update(None, Some([Skill("", kind)]), false);
    assert KeysAtUpdate([Skill("", kind)]) == {};
    var s := Updated(s0, w, u);
    assert s.info[w].skills[0] == Skill("", kind);
    assert Skill("", kind) in s.info[w].skills;
    assert s.skillIndex == {};
  }

  /** The superset can be strict: a worker that changed its skills stays in the old index, even
      after it is gone. */
  lemma OldSkillStaysIndexed(w: WorkerId, a: string, b: string)
    requires a != "" && b != "" && a != b
    ensures var r1 := Register(w, Info(Some("idle"), [Skill(a, "")]));
      var r2 := Register(w, Info(Some("idle"), [Skill(b, "")]));
      var s := After([r1, r2, Deregister(w)]);
      (a, w) in s.skillIndex && w !in s.info
  {
    var r1, r2 := Register(w, Info(Some("idle"), [Skill(a, "")])), Register(w, Info(Some("idle"), [Skill(b, "")]));
    var ops := [r1, r2, Deregister(w)];
    assert ops[..2] == [r1, r2] && ops[..2][..1] == [r1] && ops[..2][..1][..0] == [];
    var s1 := Do(EMPTY, r1);
    assert After([r1]) == s1;
    assert Skill(a, "") in [Skill(a, "")] && Skill(b, "") in [Skill(b, "")];
    assert a in KeysAtRegistration([Skill(a, "")]) && b in KeysAtRegistration([Skill(b, "")]);
    assert (a, w) in s1.skillIndex;
    var s2 := Do(s1, r2);
    assert After([r1, r2]) == s2;
    assert KeysAtRegistration([Skill(b, "")]) == {b};
    assert s2.skillsKey[w] == {b};
    assert (a, w) !in Entries({b}, w);
  }
}
