/** What the member and role writers achieve: when each succeeds, and what the tables, and everyone who asks
    afterwards, say then. */
module PermissionOutcomes {
  import opened Common
  import opened Cache
  import opened Permissions
  import opened PermissionRuns

  // ---------------------------------------------------------------- members

  /** Nobody but the given member notices. */
  ghost predicate OthersSame(s: State, t: State, member: (string, string)) {
    && t.roles == s.roles
    && t.members.Keys == s.members.Keys + {member}
    && (forall m :: m in s.members && m != member ==> t.members[m] == s.members[m])
    && (forall b, u :: (b, u) != member ==> Direct(t, b, u) == Direct(s, b, u))
  }

  /** An active member of this business who is not the owner. */
  predicate Changeable(s: State, business: string, member: (string, string)) {
    member in s.members && member.0 == business && s.members[member].active
    && s.members[member].role != "00000000-0000-0000-0000-000000000001"
  }

  /** A removal succeeds exactly for an active member of the named business who is not its owner. From then on
      that member's role is not found, by the tables and through the cache, at every instant and with no
      invalidation; everyone else gets the answer they got before. A refused removal changes nothing. */
  lemma RemovalExactly(s: State, business: string, member: (string, string), ttl: int, now: int)
    ensures var o := AfterRemoveMember(s, business, member);
            && (o.error.None? <==> Changeable(s, business, member))
            && (o.error.Some? ==> o.state == s)
            && (o.error == Some(CannotRemoveOwner) <==>
                  member in s.members && member.0 == business && s.members[member].role == "00000000-0000-0000-0000-000000000001")
            && (o.error.None? ==>
                  && OthersSame(s, o.state, member) && o.state.cache == s.cache
                  && o.state.members[member] == Member(s.members[member].role, false)
                  && Direct(o.state, member.0, member.1) == Err(MemberNotFound)
                  && AfterGetRole(o.state, member.0, member.1, ttl, now).role == Err(MemberNotFound)
                  && forall b, u :: (b, u) != member ==>
                       AfterGetRole(o.state, b, u, ttl, now).role == AfterGetRole(s, b, u, ttl, now).role)
  {
    var o := AfterRemoveMember(s, business, member);
    if o.error.None? {
      forall b, u | (b, u) != member
        ensures Direct(o.state, b, u) == Direct(s, b, u)
        ensures AfterGetRole(o.state, b, u, ttl, now).role == AfterGetRole(s, b, u, ttl, now).role
      {
        assert RoleOf(o.state, b, u) == RoleOf(s, b, u);
      }
    }
  }

  /** A role change succeeds exactly for such a member and an existing role. The member then has the named
      role, everyone else what they had, and no entry of the business is left in the cache. */
  lemma RoleChangeExactly(s: State, business: string, member: (string, string), role: string, ttl: int, now: int)
    ensures var o := AfterUpdateMemberRole(s, business, member, role);
            && (o.error.None? <==> Changeable(s, business, member) && role in s.roles)
            && (o.error.Some? ==> o.state == s)
            && (o.error.None? ==>
                  && OthersSame(s, o.state, member)
                  && o.state.members[member] == Member(role, true)
                  && Direct(o.state, member.0, member.1) == Ok(s.roles[role])
                  && AfterGetRole(o.state, member.0, member.1, ttl, now).role == Ok(s.roles[role])
                  && forall r :: RoleKey(business, r) !in o.state.cache)
  {
    var o := AfterUpdateMemberRole(s, business, member, role);
    if o.error.None? {
      forall b, u | (b, u) != member ensures Direct(o.state, b, u) == Direct(s, b, u) {
        assert RoleOf(o.state, b, u) == RoleOf(s, b, u);
      }
      Cleared(s.(members := o.state.members), business);
    }
  }

  /** Invalidation leaves no role of the business in the cache. */
  lemma Cleared(s: State, business: string)
    ensures forall r :: RoleKey(business, r) !in Invalidated(s, business).cache
  {
    forall r ensures RoleKey(business, r) !in Invalidated(s, business).cache {
      assert RoleKey(business, r)[..|Prefix(business)|] == Prefix(business);
    }
  }

  /** An invitation succeeds exactly for an existing role and a user without a row in the business, active or
      removed; the new member has the role at once. */
  lemma InvitationExactly(s: State, business: string, user: string, role: string)
    ensures var o := AfterInvite(s, business, user, role);
            && (o.error.None? <==> role in s.roles && (business, user) !in s.members)
            && (o.error == Some(AlreadyMember) <==> role in s.roles && (business, user) in s.members && s.members[(business, user)].active)
            && (o.error.Some? ==> o.state == s)
            && (o.error.None? ==>
                  && OthersSame(s, o.state, (business, user)) && o.state.cache == s.cache
                  && o.state.members[(business, user)] == Member(role, true)
                  && Direct(o.state, business, user) == Ok(s.roles[role]))
  {
    var o := AfterInvite(s, business, user, role);
    if o.error.None? {
      forall b, u | (b, u) != (business, user) ensures Direct(o.state, b, u) == Direct(s, b, u) {
        assert RoleOf(o.state, b, u) == RoleOf(s, b, u);
      }
    }
  }

  // ---------------------------------------------------------------- roles

  /** No permission is listed twice. */
  predicate NoRepeats(permissions: seq<string>) { forall i, j :: 0 <= i < j < |permissions| ==> permissions[i] != permissions[j] }

  lemma {:induction false} DistinctMeans(permissions: seq<string>)
    ensures Distinct(permissions) <==> NoRepeats(permissions)
  {
    if permissions != [] {
      var n := |permissions| - 1;
      var init := permissions[..n];
      DistinctMeans(init);
      assert forall i :: 0 <= i < n ==> init[i] == permissions[i];
      assert permissions[n] in init <==> exists i :: 0 <= i < n && init[i] == permissions[n];
    }
  }

  /** Where the list first repeats itself, or its end. */
  lemma {:induction false} FirstRepeat(permissions: seq<string>) returns (k: nat)
    ensures k <= |permissions| && NoRepeats(permissions[..k])
    ensures k == |permissions| || permissions[k] in permissions[..k]
  {
    if permissions == [] { return 0; }
    var n := |permissions| - 1;
    var init := permissions[..n];
    k := FirstRepeat(init);
    assert permissions == init + [permissions[n]];
    if k < n {
      assert init[..k] == permissions[..k];
    } else if permissions[n] !in init {
      assert init[..n] == init;
      assert NoRepeats(permissions) by {
        assert forall i :: 0 <= i < n ==> permissions[i] == init[i];
      }
      k := n + 1;
      assert permissions[..k] == permissions;
    } else {
      assert init[..n] == init;
    }
  }

  /** Inserting the list stores all of it, or everything before the first repeat. */
  lemma StoredMeans(permissions: seq<string>) returns (k: nat)
    ensures k <= |permissions| && NoRepeats(permissions[..k])
    ensures k == |permissions| || permissions[k] in permissions[..k]
    ensures forall p :: p in Stored(permissions) <==> p in permissions[..k]
  {
    k := FirstRepeat(permissions);
    DistinctMeans(permissions[..k]);
    StoredAll(permissions[..k]);
    if k < |permissions| {
      StoredUntilRepeat(permissions, k);
    } else {
      assert permissions[..k] == permissions;
    }
  }

  /** Another role of the same business already has the name. */
  predicate Taken(s: State, id: string, business: string, name: string) {
    exists r :: r in s.roles && r != id && s.roles[r].business == Some(business) && s.roles[r].name == name
  }

  /** All other roles and all members are as they were. */
  ghost predicate OtherRolesSame(s: State, t: State, id: string) {
    && t.members == s.members
    && forall r :: r != id ==> (r in t.roles <==> r in s.roles) && (r in s.roles ==> t.roles[r] == s.roles[r])
  }

  /** A creation succeeds exactly for a valid request with a new name and no repeated permission. The new role
      belongs to the business and grants exactly what was listed, and no entry of the business is left in the
      cache. After a repeat the role is there all the same, with the permissions before it. */
  lemma CreationExactly(s: State, business: string, id: string, q: Request)
    requires id !in s.roles
    ensures var o := AfterCreateRole(s, business, id, q);
            && (o.error.None? <==> q.valid && !Taken(s, id, business, q.name) && NoRepeats(q.permissions))
            && (o.error == Some(InvalidInput) <==> !q.valid)
            && OtherRolesSame(s, o.state, id)
            && (id in o.state.roles <==> q.valid && !Taken(s, id, business, q.name))
            && (o.error.None? ==>
                  && var r := o.state.roles[id];
                  && r == Role(Some(business), false, q.name, q.description, q.maxTransfer, q.dailyLimit, q.approvalAbove, r.permissions)
                  && (forall p :: p in r.permissions <==> p in q.permissions)
                  && forall k :: RoleKey(business, k) !in o.state.cache)
  {
    DistinctMeans(q.permissions);
    if AfterCreateRole(s, business, id, q).error.None? {
      StoredAll(q.permissions);
      Cleared(s.(roles := AfterCreateRole(s, business, id, q).state.roles), business);
    }
  }

  /** An update succeeds exactly for a valid request about an existing role that is not a system role, with a
      name no other role of its business has and no repeated permission. Fields left out keep their value; the
      role then grants exactly what was listed, or what it granted before where nothing was. After a repeat the
      fields are written all the same, and of the permissions those before it. */
  lemma UpdateExactly(s: State, business: string, id: string, q: Request)
    ensures var o := AfterUpdateRole(s, business, id, q);
            var open := q.valid && id in s.roles && !s.roles[id].system
                        && (s.roles[id].business.Some? ==>
                              !Taken(s, id, s.roles[id].business.value, if q.name == "" then s.roles[id].name else q.name));
            && (o.error.None? <==> open && NoRepeats(q.permissions))
            && (!open ==> o.state == s)
            && OtherRolesSame(s, o.state, id)
            && (open ==>
                  && var was, r := s.roles[id], o.state.roles[id];
                  && r.business == was.business && !r.system
                  && r.name == (if q.name == "" then was.name else q.name)
                  && r.description == (if q.description == "" then was.description else q.description)
                  && r.maxTransfer == (if q.maxTransfer.None? then was.maxTransfer else q.maxTransfer)
                  && r.dailyLimit == (if q.dailyLimit.None? then was.dailyLimit else q.dailyLimit)
                  && r.approvalAbove == (if q.approvalAbove.None? then was.approvalAbove else q.approvalAbove)
                  && (q.permissions == [] ==> r.permissions == was.permissions)
                  && (q.permissions != [] && NoRepeats(q.permissions) ==> forall p :: p in r.permissions <==> p in q.permissions)
                  && (!NoRepeats(q.permissions) ==>
                        exists k :: 0 <= k < |q.permissions| && NoRepeats(q.permissions[..k]) && q.permissions[k] in q.permissions[..k]
                                    && forall p :: p in r.permissions <==> p in q.permissions[..k]))
  {
    DistinctMeans(q.permissions);
    var k := StoredMeans(q.permissions);
    assert k == |q.permissions| ==> q.permissions[..k] == q.permissions;
  }

  /** A deletion succeeds exactly for an existing role that is not a system role and that no member row, active
      or removed, refers to. Then the role is gone, and nobody's answer changes. */
  lemma DeletionExactly(s: State, business: string, id: string)
    ensures var o := AfterDeleteRole(s, business, id);
            var held := exists m :: m in s.members && s.members[m].role == id;
            && (o.error.None? <==> id in s.roles && !s.roles[id].system && !held)
            && (o.error == Some(RoleInUse) <==>
                  id in s.roles && !s.roles[id].system && exists m :: m in s.members && s.members[m].role == id && s.members[m].active)
            && (o.error.Some? ==> o.state == s)
            && (o.error.None? ==>
                  && id !in o.state.roles && OtherRolesSame(s, o.state, id)
                  && (forall b, u :: Direct(o.state, b, u) == Direct(s, b, u))
                  && forall k :: RoleKey(business, k) !in o.state.cache)
  {
    var o := AfterDeleteRole(s, business, id);
    if o.error.None? {
      forall b, u ensures Direct(o.state, b, u) == Direct(s, b, u) {
        assert RoleOf(o.state, b, u) == RoleOf(s, b, u);
      }
      Cleared(s.(roles := o.state.roles), business);
    }
  }

  // ---------------------------------------------------------------- what a member may do afterwards

  /** A member may do exactly what the updated role lists, from the first question after the update on, when
      the update names the role's own business: nothing the cache holds says otherwise. */
  lemma UpdateTakesEffect(s: State, business: string, id: string, q: Request, user: string, permission: string, ttl: int, now: int)
    requires Coherent(s) && Plain(business)
    requires (business, user) in s.members && s.members[(business, user)] == Member(id, true)
    requires q.permissions != [] && AfterUpdateRole(s, business, id, q).error.None? && s.roles[id].business == Some(business)
    ensures Granted(AfterGetRole(AfterUpdateRole(s, business, id, q).state, business, user, ttl, now).role, permission)
            == Ok(permission in q.permissions)
  {
    UpdateExactly(s, business, id, q);
    var t := AfterUpdateRole(s, business, id, q).state;
    assert Distinct(q.permissions);
    UpdateRoleKeeps(s, business, id, q);
    ReadAgrees(t, business, user, ttl, now);
  }

  /** A read that misses asks the table and keeps the answer for the cache's lifetime; one that hits leaves the
      entry and its remaining lifetime alone. */
  lemma ReadFills(s: State, business: string, user: string, ttl: int, now: int, later: int)
    requires RoleOf(s, business, user).Ok? && RoleOf(s, business, user).value in s.roles && now <= later
    ensures var id := RoleOf(s, business, user).value;
            var key, t := RoleKey(business, id), AfterGetRole(s, business, user, ttl, now).state;
            Lookup(t.cache, key, later) ==
              if Lookup(s.cache, key, now).Some? then Lookup(s.cache, key, later)
              else if ttl <= 0 || later <= now + ttl then Some(s.roles[id]) else None
  {
    AskingIsHarmless(s.cache, RoleKey(business, RoleOf(s, business, user).value), now, RoleKey(business, RoleOf(s, business, user).value), later);
  }
}
