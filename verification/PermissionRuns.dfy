/** Coherence of the role cache over every run of reads, member changes and role changes. */
module PermissionRuns {
  import opened Common
  import opened Cache
  import opened Permissions

  // ---------------------------------------------------------------- keys

  /** Business ids are UUIDs; all that matters here is that they contain no colon. */
  predicate Plain(id: string) { ':' !in id }

  /** Where a plain id ends inside a key. */
  lemma PrefixOfPlain(b: string, c: string, rest: string)
    requires Plain(b) && Plain(c)
    ensures HasPrefix(Prefix(c) + rest, Prefix(b)) <==> b == c
  {
    var key, base := Prefix(c) + rest, |ROLES|;
    assert key[base + |c|] == ':';
    assert forall i :: 0 <= i < |c| ==> key[base + i] == c[i];
    assert Prefix(b)[base + |b|] == ':';
    assert forall i :: 0 <= i < |b| ==> Prefix(b)[base + i] == b[i];
    if HasPrefix(key, Prefix(b)) {
      assert forall i :: 0 <= i < |Prefix(b)| ==> key[i] == Prefix(b)[i];
      assert |b| == |c|;
    }
  }

  lemma RoleKeyInjective(b: string, r: string, c: string, q: string)
    requires Plain(b) && Plain(c)
    ensures RoleKey(b, r) == RoleKey(c, q) ==> b == c && r == q
  {
    PrefixOfPlain(b, c, q);
    var n := |Prefix(b)|;
    assert RoleKey(b, r)[..n] == Prefix(b) && RoleKey(b, r)[n..] == r;
    assert b == c ==> RoleKey(c, q)[n..] == q;
  }

  // ---------------------------------------------------------------- coherence

  /** Every cached role, expired or not, is the one in the table. */
  ghost predicate Agrees(s: State) {
    forall b, r :: Plain(b) && RoleKey(b, r) in s.cache ==> r in s.roles && s.cache[RoleKey(b, r)].value == Some(s.roles[r])
  }

  /** The role belongs to every business, or to this one. */
  predicate Own(r: Role, business: string) { r.system || r.business == Some(business) }

  /** Roles are cached only under a business they belong to. */
  ghost predicate CachedOwn(s: State) {
    forall b, r :: Plain(b) && RoleKey(b, r) in s.cache && r in s.roles ==> Own(s.roles[r], b)
  }

  /** Members hold only their own business's roles or system roles. */
  ghost predicate MembersOwn(s: State) {
    forall m :: m in s.members ==> Plain(m.0) && s.members[m].role in s.roles && Own(s.roles[s.members[m].role], m.0)
  }

  ghost predicate Coherent(s: State) { Agrees(s) && CachedOwn(s) && MembersOwn(s) }

  /** Reading through an agreeing cache answers as the tables do, whenever the entries expire. */
  lemma ReadAgrees(s: State, business: string, user: string, ttl: int, now: int)
    requires Agrees(s) && Plain(business)
    ensures var a := AfterGetRole(s, business, user, ttl, now);
            a.role == Direct(s, business, user) && Agrees(a.state)
  {
    var id := RoleOf(s, business, user);
    var a := AfterGetRole(s, business, user, ttl, now).state;
    if id.Ok? {
      forall b, r | Plain(b) && RoleKey(b, r) in a.cache
        ensures r in a.roles && a.cache[RoleKey(b, r)].value == Some(a.roles[r])
      {
        RoleKeyInjective(b, r, business, id.value);
      }
    }
  }

  lemma ReadKeeps(s: State, business: string, user: string, ttl: int, now: int)
    requires Coherent(s)
    ensures Coherent(AfterGetRole(s, business, user, ttl, now).state)
  {
    var id := RoleOf(s, business, user);
    var a := AfterGetRole(s, business, user, ttl, now).state;
    if id.Ok? {
      ReadAgrees(s, business, user, ttl, now);
      forall b, r | Plain(b) && RoleKey(b, r) in a.cache && r in a.roles
        ensures Own(a.roles[r], b)
      {
        RoleKeyInjective(b, r, business, id.value);
      }
    }
  }

  /** What InvalidateCache leaves: the entries of the other businesses. */
  lemma InvalidatedKeys(s: State, business: string, b: string, r: string)
    requires Plain(business) && Plain(b)
    ensures RoleKey(b, r) in Invalidated(s, business).cache <==> b != business && RoleKey(b, r) in s.cache
    ensures b != business && RoleKey(b, r) in s.cache ==> Invalidated(s, business).cache[RoleKey(b, r)] == s.cache[RoleKey(b, r)]
  {
    PrefixOfPlain(business, b, r);
  }

  // ---------------------------------------------------------------- rewriting one role

  /** The role is cached under a business whose entries the write does not clear. */
  ghost predicate Exposed(s: State, id: string, cleared: Option<string>) {
    exists b :: Plain(b) && RoleKey(b, id) in s.cache && cleared != Some(b)
  }

  /** The update is turned down before anything is written. */
  predicate TurnedDown(s: State, id: string, q: Request) {
    || !q.valid || id !in s.roles || s.roles[id].system
    || NameTaken(s.roles, id, s.roles[id].business, Edited(s.roles[id], q).name)
  }

  /** The cache still agrees after a role update exactly when the update is turned down before writing,
      asks for what the role already is, or finds no entry of the role that it does not clear. Naming
      another business than the role's owner, or repeating a permission in the request, is how an entry
      survives. */
  lemma UpdateRoleExactly(s: State, business: string, id: string, q: Request)
    requires Agrees(s) && Plain(business)
    ensures var t := AfterUpdateRole(s, business, id, q).state;
            Agrees(t) <==>
              || TurnedDown(s, id, q) || Rewritten(s.roles[id], q) == s.roles[id]
              || !Exposed(s, id, if Distinct(q.permissions) then Some(business) else None)
  {
    var t := AfterUpdateRole(s, business, id, q).state;
    var cleared := if Distinct(q.permissions) then Some(business) else None;
    if !TurnedDown(s, id, q) {
      RewriteExactly(s, t, cleared, id, Rewritten(s.roles[id], q));
      assert t.roles[id] == Rewritten(s.roles[id], q);
    }
  }

  lemma RewriteExactly(s: State, t: State, cleared: Option<string>, id: string, role: Role)
    requires Agrees(s) && id in s.roles && (cleared.Some? ==> Plain(cleared.value))
    requires t.roles == s.roles[id := role]
    requires t.cache == if cleared.Some? then Invalidated(s, cleared.value).cache else s.cache
    ensures Agrees(t) <==> t.roles == s.roles || !Exposed(s, id, cleared)
  {
    forall b, r | Plain(b)
      ensures RoleKey(b, r) in t.cache <==> RoleKey(b, r) in s.cache && cleared != Some(b)
      ensures RoleKey(b, r) in t.cache ==> t.cache[RoleKey(b, r)] == s.cache[RoleKey(b, r)]
    {
      if cleared.Some? { InvalidatedKeys(s, cleared.value, b, r); }
    }
    if Exposed(s, id, cleared) {
      var b :| Plain(b) && RoleKey(b, id) in s.cache && cleared != Some(b);
      assert RoleKey(b, id) in t.cache;
      assert s.cache[RoleKey(b, id)].value == Some(s.roles[id]);
      assert Agrees(t) ==> role == s.roles[id];
      assert role == s.roles[id] ==> t.roles == s.roles;
      assert t.roles == s.roles ==> t.roles[id] == s.roles[id];
    }
  }

  // ---------------------------------------------------------------- runs

  datatype Op =
    | Read(business: string, user: string, ttl: int, now: int)
    | Invite(business: string, user: string, role: string)
    | UpdateMember(business: string, member: (string, string), role: string)
    | RemoveMember(business: string, member: (string, string))
    | CreateRole(business: string, id: string, request: Request)
    | UpdateRole(business: string, id: string, request: Request)
    | DeleteRole(business: string, id: string)

  function Step(s: State, op: Op): State {
    match op
    case Read(b, u, ttl, now) => AfterGetRole(s, b, u, ttl, now).state
    case Invite(b, u, r) => AfterInvite(s, b, u, r).state
    case UpdateMember(b, m, r) => AfterUpdateMemberRole(s, b, m, r).state
    case RemoveMember(b, m) => AfterRemoveMember(s, b, m).state
    case CreateRole(b, id, q) => AfterCreateRole(s, b, id, q).state
    case UpdateRole(b, id, q) => AfterUpdateRole(s, b, id, q).state
    case DeleteRole(b, id) => AfterDeleteRole(s, b, id).state
  }

  /** Role writes name the owning business, members are given only their own business's roles or system
      roles, and an update does not repeat a permission. */
  predicate Legal(s: State, op: Op) {
    Plain(op.business) &&
    match op
    case Read(_, _, _, _) => true
    case Invite(b, _, r) => r in s.roles ==> Own(s.roles[r], b)
    case UpdateMember(b, _, r) => r in s.roles ==> Own(s.roles[r], b)
    case RemoveMember(_, _) => true
    case CreateRole(_, _, _) => true
    case UpdateRole(b, id, q) => (id in s.roles ==> Own(s.roles[id], b)) && Distinct(q.permissions)
    case DeleteRole(b, id) => id in s.roles ==> Own(s.roles[id], b)
  }

  ghost predicate LegalRun(s: State, ops: seq<Op>)
    decreases |ops|
  {
    ops == [] || (Legal(s, ops[0]) && LegalRun(Step(s, ops[0]), ops[1..]))
  }

  function AfterRun(s: State, ops: seq<Op>): State
    decreases |ops|
  {
    if ops == [] then s else AfterRun(Step(s, ops[0]), ops[1..])
  }

  lemma UpdateMemberKeeps(s: State, business: string, member: (string, string), role: string)
    requires Coherent(s) && Legal(s, UpdateMember(business, member, role))
    ensures Coherent(AfterUpdateMemberRole(s, business, member, role).state)
  {
    var t := AfterUpdateMemberRole(s, business, member, role).state;
    if t != s {
      forall b, r | Plain(b) ensures RoleKey(b, r) in t.cache ==> RoleKey(b, r) in s.cache { InvalidatedKeys(s, business, b, r); }
    }
  }

  lemma CreateRoleKeeps(s: State, business: string, id: string, q: Request)
    requires Coherent(s) && Plain(business)
    ensures Coherent(AfterCreateRole(s, business, id, q).state)
  {
    var t := AfterCreateRole(s, business, id, q).state;
    if t != s {
      forall b, r | Plain(b) ensures RoleKey(b, r) in t.cache ==> RoleKey(b, r) in s.cache && r != id { InvalidatedKeys(s, business, b, r); }
    }
  }

  /** A role that may change is cached under its own business only. */
  lemma OwnedNotExposed(s: State, business: string, id: string)
    requires Coherent(s) && id in s.roles && !s.roles[id].system && Own(s.roles[id], business)
    ensures !Exposed(s, id, Some(business))
  {
  }

  lemma UpdateRoleKeeps(s: State, business: string, id: string, q: Request)
    requires Coherent(s) && Legal(s, UpdateRole(business, id, q))
    ensures Coherent(AfterUpdateRole(s, business, id, q).state)
  {
    var t := AfterUpdateRole(s, business, id, q).state;
    if t != s {
      OwnedNotExposed(s, business, id);
      UpdateRoleExactly(s, business, id, q);
      assert t.roles[id].business == s.roles[id].business && !t.roles[id].system;
      forall b, r | Plain(b) ensures RoleKey(b, r) in t.cache ==> RoleKey(b, r) in s.cache { InvalidatedKeys(s, business, b, r); }
    }
  }

  lemma DeleteRoleKeeps(s: State, business: string, id: string)
    requires Coherent(s) && Legal(s, DeleteRole(business, id))
    ensures Coherent(AfterDeleteRole(s, business, id).state)
  {
    var t := AfterDeleteRole(s, business, id).state;
    if t != s {
      OwnedNotExposed(s, business, id);
      forall b, r | Plain(b) ensures RoleKey(b, r) in t.cache ==> RoleKey(b, r) in s.cache && r != id { InvalidatedKeys(s, business, b, r); }
    }
  }

  lemma StepKeeps(s: State, op: Op)
    requires Coherent(s) && Legal(s, op)
    ensures Coherent(Step(s, op))
  {
    match op
    case Read(b, u, ttl, now) => ReadKeeps(s, b, u, ttl, now);
    case Invite(b, u, r) =>
    case UpdateMember(b, m, r) => UpdateMemberKeeps(s, b, m, r);
    case RemoveMember(b, m) =>
    case CreateRole(b, id, q) => CreateRoleKeeps(s, b, id, q);
    case UpdateRole(b, id, q) => UpdateRoleKeeps(s, b, id, q);
    case DeleteRole(b, id) => DeleteRoleKeeps(s, b, id);
  }

  lemma {:induction false} RunKeeps(s: State, ops: seq<Op>)
    requires Coherent(s) && LegalRun(s, ops)
    ensures Coherent(AfterRun(s, ops))
    decreases |ops|
  {
    if ops != [] {
      StepKeeps(s, ops[0]);
      RunKeeps(Step(s, ops[0]), ops[1..]);
    }
  }

  /** After every legal run, for every business, user, permission, instant and cache lifetime, asking
      through the cache gives what the role tables say. */
  lemma EveryRead(s: State, ops: seq<Op>, business: string, user: string, permission: string, ttl: int, now: int)
    requires Coherent(s) && LegalRun(s, ops) && Plain(business)
    ensures var t := AfterRun(s, ops);
            Granted(AfterGetRole(t, business, user, ttl, now).role, permission) == Granted(Direct(t, business, user), permission)
  {
    RunKeeps(s, ops);
    ReadAgrees(AfterRun(s, ops), business, user, ttl, now);
  }

  // ---------------------------------------------------------------- where it fails

  const VIEWER := Role(Some("a"), false, "viewer", "", None, None, None, {"pay", "view"})
  const NARROWED := Request("", "", None, None, None, ["view"], true)
  const REPEATED := Request("", "", None, None, None, ["view", "view"], true)

  function Cached(): State {
    State(map["r" := VIEWER], map[("a", "u") := Member("r", true)], map[RoleKey("a", "r") := Entry(Some(VIEWER), 0, None)])
  }

  /** A member keeps a permission the role no longer has: the update named another business, or failed
      on a repeated permission after writing. */
  lemma StaleExample(ttl: int, now: int)
    ensures var t := AfterUpdateRole(Cached(), "b", "r", NARROWED);
            t.error == None && "pay" !in t.state.roles["r"].permissions
            && Granted(AfterGetRole(t.state, "a", "u", ttl, now).role, "pay") == Ok(true)
            && Granted(Direct(t.state, "a", "u"), "pay") == Ok(false)
    ensures var t := AfterUpdateRole(Cached(), "a", "r", REPEATED);
            t.error == Some(Refused)
            && Granted(AfterGetRole(t.state, "a", "u", ttl, now).role, "pay") == Ok(true)
            && Granted(Direct(t.state, "a", "u"), "pay") == Ok(false)
  {
    var s := Cached();
    assert RoleKey("a", "r") in s.cache;
    InvalidatedKeys(s, "b", "a", "r");
    assert Distinct(["view"]) && Stored(["view"]) == {"view"} by {
      assert ["view"][..0] == [];
    }
    assert !Distinct(["view", "view"]) && Stored(["view", "view"]) == {"view"} by {
      StoredSnoc(["view"], "view");
      assert ["view"] + ["view"] == ["view", "view"];
    }
    assert "pay" != "view" by { assert "pay"[0] != "view"[0]; }
  }
}
