/** Business permissions: the role cache of internal/services/permissions/service.go and the role and
    member writers of internal/services/business/service.go that it must follow. */
module Permissions {
  import opened Common
  import opened Cache

  /** `business` is None for system roles. Permissions are a table keyed by (role, permission). */
  datatype Role = Role(
    business: Option<string>, system: bool, name: string, description: string,
    maxTransfer: Option<int>, dailyLimit: Option<int>, approvalAbove: Option<int>, permissions: set<string>)

  datatype Member = Member(role: string, active: bool)

  /** Members are keyed by (business, user), which the schema makes unique. */
  datatype State = State(roles: map<string, Role>, members: map<(string, string), Member>, cache: Items<Role>)

  /** `Refused` is a statement the database turns down: a key that is taken, or a row still referred to. */
  datatype Error =
    MemberNotFound | RoleNotFound | AlreadyMember | CannotRemoveOwner | SystemRoleImmutable | RoleInUse | InvalidInput | Refused

  datatype Result<T> = Ok(value: T) | Err(error: Error)

  const OWNER_ROLE := "00000000-0000-0000-0000-000000000001"

  const ROLES := "neo:roles:"

  function Prefix(business: string): string { ROLES + business + ":" }

  function RoleKey(business: string, role: string): string { Prefix(business) + role }

  // ---------------------------------------------------------------- reading

  /** The member's role id, straight from the members table. */
  function RoleOf(s: State, business: string, user: string): Result<string> {
    if (business, user) !in s.members || !s.members[(business, user)].active then Err(MemberNotFound)
    else Ok(s.members[(business, user)].role)
  }

  /** The member's role as the tables have it: the reference the cache must agree with. */
  function Direct(s: State, business: string, user: string): Result<Role> {
    var id := RoleOf(s, business, user);
    if id.Err? then Err(id.error)
    else if id.value !in s.roles then Err(RoleNotFound)
    else Ok(s.roles[id.value])
  }

  datatype Answer = Answer(state: State, role: Result<Role>)

  /** getMemberRole: through the cache, filling it on a miss. */
  function AfterGetRole(s: State, business: string, user: string, ttl: int, now: int): Answer {
    var id := RoleOf(s, business, user);
    if id.Err? then Answer(s, Err(id.error))
    else
      var key := RoleKey(business, id.value);
      var hit := Lookup(s.cache, key, now);
      var items := AfterGet(s.cache, key, now);
      if hit.Some? then Answer(s.(cache := items), Ok(hit.value))
      else if id.value !in s.roles then Answer(s.(cache := items), Err(RoleNotFound))
      else Answer(s.(cache := AfterSet(items, key, s.roles[id.value], ttl, now)), Ok(s.roles[id.value]))
  }

  function Granted(role: Result<Role>, permission: string): Result<bool> {
    if role.Err? then Err(role.error) else Ok(permission in role.value.permissions)
  }

  // ---------------------------------------------------------------- writing

  datatype Outcome = Outcome(state: State, error: Option<Error>)

  function Invalidated(s: State, business: string): State { s.(cache := AfterDeleteByPrefix(s.cache, Prefix(business))) }

  function AfterInvite(s: State, business: string, user: string, role: string): Outcome {
    if role !in s.roles then Outcome(s, Some(RoleNotFound))
    else if (business, user) in s.members then
      Outcome(s, Some(if s.members[(business, user)].active then AlreadyMember else Refused))
    else Outcome(s.(members := s.members[(business, user) := Member(role, true)]), None)
  }

  /** `member` is the row's own (business, user). */
  function AfterUpdateMemberRole(s: State, business: string, member: (string, string), role: string): Outcome {
    if member !in s.members || member.0 != business then Outcome(s, Some(MemberNotFound))
    else if s.members[member].role == OWNER_ROLE then Outcome(s, Some(CannotRemoveOwner))
    else if role !in s.roles then Outcome(s, Some(RoleNotFound))
    else if !s.members[member].active then Outcome(s, Some(MemberNotFound))
    else Outcome(Invalidated(s.(members := s.members[member := s.members[member].(role := role)]), business), None)
  }

  function AfterRemoveMember(s: State, business: string, member: (string, string)): Outcome {
    if member !in s.members || member.0 != business then Outcome(s, Some(MemberNotFound))
    else if s.members[member].role == OWNER_ROLE then Outcome(s, Some(CannotRemoveOwner))
    else if !s.members[member].active then Outcome(s, Some(MemberNotFound))
    else Outcome(s.(members := s.members[member := s.members[member].(active := false)]), None)
  }

  /** A role request. On update, fields left out keep their value and an empty permission list means
      no change. `valid` is the verdict of the request's field checks, which do not look for repeats. */
  datatype Request = Request(
    name: string, description: string, maxTransfer: Option<int>, dailyLimit: Option<int>, approvalAbove: Option<int>,
    permissions: seq<string>, valid: bool)

  /** No permission is listed twice. */
  predicate Distinct(permissions: seq<string>) {
    permissions == [] ||
    (Distinct(permissions[..|permissions| - 1]) && permissions[|permissions| - 1] !in permissions[..|permissions| - 1])
  }

  /** What inserting the list row by row leaves behind: everything before the first repeat. */
  function Stored(permissions: seq<string>): set<string> {
    if permissions == [] then {}
    else
      var init := permissions[..|permissions| - 1];
      if Distinct(permissions) then Stored(init) + {permissions[|permissions| - 1]} else Stored(init)
  }

  function Or(a: Option<int>, b: Option<int>): Option<int> { if a.Some? then a else b }

  /** The role with the request's scalar fields. */
  function Edited(r: Role, q: Request): Role {
    r.(name := if q.name != "" then q.name else r.name,
       description := if q.description != "" then q.description else r.description,
       maxTransfer := Or(q.maxTransfer, r.maxTransfer),
       dailyLimit := Or(q.dailyLimit, r.dailyLimit),
       approvalAbove := Or(q.approvalAbove, r.approvalAbove))
  }

  /** The role row a request leaves, complete or cut short by a repeated permission. */
  function Rewritten(r: Role, q: Request): Role {
    if q.permissions == [] then Edited(r, q) else Edited(r, q).(permissions := Stored(q.permissions))
  }

  function NewRole(business: string, q: Request): Role {
    Role(Some(business), false, q.name, q.description, q.maxTransfer, q.dailyLimit, q.approvalAbove, {})
  }

  /** (business, name) is unique among the roles that have a business. */
  predicate NameTaken(roles: map<string, Role>, id: string, business: Option<string>, name: string) {
    business.Some? && exists q :: q in roles && q != id && roles[q].business == business && roles[q].name == name
  }

  /** The id comes from the database; one already in use is refused. */
  function AfterCreateRole(s: State, business: string, id: string, q: Request): Outcome {
    if !q.valid then Outcome(s, Some(InvalidInput))
    else if id in s.roles || NameTaken(s.roles, id, Some(business), q.name) then Outcome(s, Some(Refused))
    else
      var t := s.(roles := s.roles[id := NewRole(business, q).(permissions := Stored(q.permissions))]);
      if Distinct(q.permissions) then Outcome(Invalidated(t, business), None) else Outcome(t, Some(Refused))
  }

  /** A repeated permission fails after the row and part of the list are written, and before the cache
      is invalidated. */
  function AfterUpdateRole(s: State, business: string, id: string, q: Request): Outcome {
    if !q.valid then Outcome(s, Some(InvalidInput))
    else if id !in s.roles then Outcome(s, Some(RoleNotFound))
    else if s.roles[id].system then Outcome(s, Some(SystemRoleImmutable))
    else if NameTaken(s.roles, id, s.roles[id].business, Edited(s.roles[id], q).name) then Outcome(s, Some(Refused))
    else
      var t := s.(roles := s.roles[id := Rewritten(s.roles[id], q)]);
      if Distinct(q.permissions) then Outcome(Invalidated(t, business), None) else Outcome(t, Some(Refused))
  }

  /** The service counts the active members, the foreign key guards the other rows. */
  function AfterDeleteRole(s: State, business: string, id: string): Outcome {
    if id !in s.roles then Outcome(s, Some(RoleNotFound))
    else if s.roles[id].system then Outcome(s, Some(SystemRoleImmutable))
    else if exists m :: m in s.members && s.members[m].role == id && s.members[m].active then Outcome(s, Some(RoleInUse))
    else if exists m :: m in s.members && s.members[m].role == id then Outcome(s, Some(Refused))
    else Outcome(Invalidated(s.(roles := s.roles - {id}), business), None)
  }

  // ---------------------------------------------------------------- the services

  class Service {
    const cache: MemoryCache<Role>
    const ttl: int
    var roles: map<string, Role>
    var members: map<(string, string), Member>

    constructor (cache: MemoryCache<Role>, ttl: int, roles: map<string, Role>, members: map<(string, string), Member>)
      ensures this.cache == cache && this.roles == roles && this.members == members
      ensures this.ttl == if ttl == 0 then 300 * 1_000_000_000 else ttl
    {
      this.cache := cache;
      this.ttl := if ttl == 0 then 300 * 1_000_000_000 else ttl;
      this.roles := roles;
      this.members := members;
    }

    function Now(): State
      reads this, cache
    {
      State(roles, members, cache.items)
    }

    method GetMemberRole(user: string, business: string, now: int) returns (r: Result<Role>)
      modifies cache
      ensures Now() == AfterGetRole(old(Now()), business, user, ttl, now).state
      ensures r == AfterGetRole(old(Now()), business, user, ttl, now).role
    {
      if (business, user) !in members || !members[(business, user)].active { return Err(MemberNotFound); }
      var id := members[(business, user)].role;
      var key := RoleKey(business, id);
      var hit := cache.Get(key, now);
      if hit.Some? { return Ok(hit.value); }
      if id !in roles { return Err(RoleNotFound); }
      cache.Set(key, roles[id], ttl, now);
      r := Ok(roles[id]);
    }

    method HasPermission(user: string, business: string, permission: string, now: int) returns (r: Result<bool>)
      modifies cache
      ensures Now() == AfterGetRole(old(Now()), business, user, ttl, now).state
      ensures r == Granted(AfterGetRole(old(Now()), business, user, ttl, now).role, permission)
    {
      var role := GetMemberRole(user, business, now);
      if role.Err? { return Err(role.error); }
      r := Ok(permission in role.value.permissions);
    }

    method InvalidateCache(business: string)
      modifies cache
      ensures Now() == Invalidated(old(Now()), business)
    {
      cache.DeleteByPrefix(Prefix(business));
    }

    method InviteMember(business: string, user: string, role: string) returns (error: Option<Error>)
      modifies this
      ensures Outcome(Now(), error) == AfterInvite(old(Now()), business, user, role)
    {
      if role !in roles { return Some(RoleNotFound); }
      if (business, user) in members {
        return Some(if members[(business, user)].active then AlreadyMember else Refused);
      }
      members := members[(business, user) := Member(role, true)];
      error := None;
    }

    method UpdateMemberRole(business: string, member: (string, string), role: string) returns (error: Option<Error>)
      modifies this, cache
      ensures Outcome(Now(), error) == AfterUpdateMemberRole(old(Now()), business, member, role)
    {
      if member !in members || member.0 != business { return Some(MemberNotFound); }
      if members[member].role == OWNER_ROLE { return Some(CannotRemoveOwner); }
      if role !in roles { return Some(RoleNotFound); }
      if !members[member].active { return Some(MemberNotFound); }
      members := members[member := members[member].(role := role)];
      InvalidateCache(business);
      error := None;
    }

    method RemoveMember(business: string, member: (string, string)) returns (error: Option<Error>)
      modifies this
      ensures Outcome(Now(), error) == AfterRemoveMember(old(Now()), business, member)
    {
      if member !in members || member.0 != business { return Some(MemberNotFound); }
      if members[member].role == OWNER_ROLE { return Some(CannotRemoveOwner); }
      if !members[member].active { return Some(MemberNotFound); }
      members := members[member := members[member].(active := false)];
      error := None;
    }

    /** Clears the role's permissions and inserts the list one by one. */
    method SetPermissions(id: string, permissions: seq<string>) returns (ok: bool)
      requires id in roles
      modifies this
      ensures roles == old(roles)[id := old(roles)[id].(permissions := Stored(permissions))] && members == old(members)
      ensures ok == Distinct(permissions)
    {
      ghost var before := roles;
      roles := roles[id := roles[id].(permissions := {})];
      for i := 0 to |permissions|
        invariant roles == before[id := before[id].(permissions := Stored(permissions[..i]))] && members == old(members)
        invariant Distinct(permissions[..i])
      {
        var p := permissions[i];
        StoredUntilRepeat(permissions, i);
        if p in roles[id].permissions { return false; }
        roles := roles[id := roles[id].(permissions := roles[id].permissions + {p})];
      }
      assert permissions[..|permissions|] == permissions;
      ok := true;
    }

    method CreateRole(business: string, id: string, q: Request) returns (error: Option<Error>)
      modifies this, cache
      ensures Outcome(Now(), error) == AfterCreateRole(old(Now()), business, id, q)
    {
      if !q.valid { return Some(InvalidInput); }
      if id in roles || NameTaken(roles, id, Some(business), q.name) { return Some(Refused); }
      roles := roles[id := NewRole(business, q)];
      var ok := SetPermissions(id, q.permissions);
      if !ok { return Some(Refused); }
      InvalidateCache(business);
      error := None;
    }

    method Edit(r: Role, q: Request) returns (role: Role)
      ensures role == Edited(r, q)
    {
      role := r;
      if q.name != "" { role := role.(name := q.name); }
      if q.description != "" { role := role.(description := q.description); }
      if q.maxTransfer.Some? { role := role.(maxTransfer := q.maxTransfer); }
      if q.dailyLimit.Some? { role := role.(dailyLimit := q.dailyLimit); }
      if q.approvalAbove.Some? { role := role.(approvalAbove := q.approvalAbove); }
    }

    method UpdateRole(business: string, id: string, q: Request) returns (error: Option<Error>)
      modifies this, cache
      ensures Outcome(Now(), error) == AfterUpdateRole(old(Now()), business, id, q)
    {
      if !q.valid { return Some(InvalidInput); }
      if id !in roles { return Some(RoleNotFound); }
      if roles[id].system { return Some(SystemRoleImmutable); }
      var role := Edit(roles[id], q);
      if NameTaken(roles, id, role.business, role.name) { return Some(Refused); }
      roles := roles[id := role];
      if |q.permissions| > 0 {
        var ok := SetPermissions(id, q.permissions);
        if !ok { return Some(Refused); }
      }
      InvalidateCache(business);
      error := None;
    }

    method DeleteRole(business: string, id: string) returns (error: Option<Error>)
      modifies this, cache
      ensures Outcome(Now(), error) == AfterDeleteRole(old(Now()), business, id)
    {
      if id !in roles { return Some(RoleNotFound); }
      if roles[id].system { return Some(SystemRoleImmutable); }
      if exists m :: m in members && members[m].role == id && members[m].active { return Some(RoleInUse); }
      if exists m :: m in members && members[m].role == id { return Some(Refused); }
      roles := roles - {id};
      InvalidateCache(business);
      error := None;
    }
  }

  /** Up to a repeat the stored set is the list so far; from a repeat on nothing more is stored. */
  lemma StoredUntilRepeat(permissions: seq<string>, i: nat)
    requires i < |permissions| && Distinct(permissions[..i])
    ensures permissions[i] in Stored(permissions[..i]) ==>
              !Distinct(permissions) && Stored(permissions) == Stored(permissions[..i])
    ensures permissions[i] !in Stored(permissions[..i]) ==>
              Distinct(permissions[..i + 1]) && Stored(permissions[..i + 1]) == Stored(permissions[..i]) + {permissions[i]}
  {
    var done, p := permissions[..i], permissions[i];
    assert permissions[..i + 1] == done + [p];
    assert p in Stored(done) <==> p in done by { StoredAll(done); }
    StoredSnoc(done, p);
    if p in done { StoredStops(permissions, i + 1); }
  }

  lemma StoredSnoc(done: seq<string>, p: string)
    requires Distinct(done)
    ensures Distinct(done + [p]) <==> p !in done
    ensures Stored(done + [p]) == if p in done then Stored(done) else Stored(done) + {p}
  {
    var longer := done + [p];
    assert longer[..|longer| - 1] == done && longer[|longer| - 1] == p;
  }

  lemma {:induction false} StoredAll(permissions: seq<string>)
    requires Distinct(permissions)
    ensures Stored(permissions) == set p | p in permissions
  {
    if permissions != [] {
      var init := permissions[..|permissions| - 1];
      StoredAll(init);
      assert permissions == init + [permissions[|permissions| - 1]];
    }
  }

  lemma {:induction false} StoredStops(permissions: seq<string>, i: nat)
    requires i <= |permissions| && !Distinct(permissions[..i])
    ensures !Distinct(permissions) && Stored(permissions) == Stored(permissions[..i])
  {
    if i < |permissions| {
      var init := permissions[..|permissions| - 1];
      assert init[..i] == permissions[..i];
      StoredStops(init, i);
    } else {
      assert permissions[..i] == permissions;
    }
  }
}
