/** What each writer leaves behind, read off the tables: roles, assignments, memberships and tenants. */
module Effects {
  import opened Tables
  import opened Provisioning
  import opened Handlers
  import opened Integrity
  import opened Coherence
  import Sessions

  // ---- What a member may do, row by row ---------------------------------------------------------------

  /** Row `a` is the member's own. */
  predicate RowOf(db: Db, m: Id, a: Id) {
    m in db.memberships && a in db.assignments
    && db.assignments[a].membership == m && db.assignments[a].tenant == db.memberships[m].tenant
  }

  /** Role `r` carries the permission key. */
  ghost predicate Carries(db: Db, r: Id, key: string) {
    r in db.roles && exists p :: p in db.roles[r].permissions && p in db.permissions && db.permissions[p].key == key
  }

  /** A member holds a permission key exactly when one of their rows names a role that carries it. */
  lemma HeldIff(db: Db, m: Id, key: string)
    requires m in db.memberships
    ensures key in LivePermissions(db, m) <==> exists a :: RowOf(db, m, a) && Carries(db, db.assignments[a].role, key)
  {
    if key in LivePermissions(db, m) {
      var p :| p in Granted(LiveRows(db, m), db.roles) && p in db.permissions && db.permissions[p].key == key;
      var a :| a in LiveRows(db, m) && LiveRows(db, m)[a].role in db.roles && p in db.roles[LiveRows(db, m)[a].role].permissions;
      assert RowOf(db, m, a) && Carries(db, db.assignments[a].role, key);
    }
    if a :| RowOf(db, m, a) && Carries(db, db.assignments[a].role, key) {
      var p :| p in db.roles[db.assignments[a].role].permissions && p in db.permissions && db.permissions[p].key == key;
      assert a in LiveRows(db, m) && p in Granted(LiveRows(db, m), db.roles);
    }
  }

  /** A member sees a store exactly when one of their rows is for the whole tenant, or none of them
      names a store, or one of them names this one. */
  lemma SeenIff(db: Db, m: Id, store: Id)
    requires m in db.memberships
    ensures Sees(LiveScope(db, m), store) <==>
              || (exists a :: RowOf(db, m, a) && db.assignments[a].scopeType == TenantScope)
              || (forall a | RowOf(db, m, a) :: db.assignments[a].scopeId.None?)
              || (exists a :: RowOf(db, m, a) && db.assignments[a].scopeId == Some(store))
  {
    var rows := LiveRows(db, m);
    assert forall a :: a in rows <==> RowOf(db, m, a);
    if !HasTenantRow(rows) {
      if store in ScopeOf(rows) {
        var a :| a in rows && rows[a].scopeId.Some? && rows[a].scopeId.value == store;
        assert RowOf(db, m, a) && db.assignments[a].scopeId == Some(store);
      }
      if a :| RowOf(db, m, a) && db.assignments[a].scopeId == Some(store) {
        assert a in rows && store in ScopeOf(rows);
      }
      assert forall a | a in rows && rows[a].scopeId.Some? :: rows[a].scopeId.value in ScopeOf(rows);
    } else {
      var a :| a in rows && rows[a].scopeType == TenantScope;
      assert RowOf(db, m, a);
    }
  }

  // ---- Assignments -------------------------------------------------------------------------------------

  /** An assignment is created exactly when member and role are the tenant's and no row says the same of
      the same store. */
  lemma AssignmentTable(db: Db, tenant: Id, m: Id, role: Id, scopeType: ScopeType, scopeId: Option<Id>)
    ensures var r := CreateAssignment(db, tenant, m, role, scopeType, scopeId).1;
            var same := exists a :: a in db.assignments && db.assignments[a] == Assignment(tenant, m, role, scopeType, scopeId);
            && (r.Done? <==> MemberInTenant(db, tenant, m) && RoleInTenant(db, tenant, role) && !(scopeId.Some? && same))
            && (r == Fail(MembershipNotFound) <==> !MemberInTenant(db, tenant, m))
            && (r == Fail(RoleNotFound) <==> MemberInTenant(db, tenant, m) && !RoleInTenant(db, tenant, role))
            && (r == Fail(AssignmentExists) <==>
                  MemberInTenant(db, tenant, m) && RoleInTenant(db, tenant, role) && scopeId.Some? && same)
  {
    var row := Assignment(tenant, m, role, scopeType, scopeId);
    assert row in db.assignments.Values <==> exists a :: a in db.assignments && db.assignments[a] == row;
  }

  /** The member's rows are the old ones and one more, which says what was asked for; the member holds
      what they held and what the role carries. Nobody else's row, and no other row's content, moves. */
  lemma AssignmentAdds(db: Db, tenant: Id, m: Id, role: Id, scopeType: ScopeType, scopeId: Option<Id>)
    requires Reachable(db) && CreateAssignment(db, tenant, m, role, scopeType, scopeId).1.Done?
    ensures var (db', a) := (CreateAssignment(db, tenant, m, role, scopeType, scopeId).0,
                             CreateAssignment(db, tenant, m, role, scopeType, scopeId).1.id);
            && a !in db.assignments && db'.assignments == db.assignments[a := db'.assignments[a]]
            && m in db.memberships && m in db'.memberships && a !in LiveRows(db, m)
            && LiveRows(db', m) == LiveRows(db, m)[a := db'.assignments[a]]
            && db'.assignments[a].role == role && db'.assignments[a].scopeType == scopeType && db'.assignments[a].scopeId == scopeId
            && (forall key :: key in LivePermissions(db', m) <==> key in LivePermissions(db, m) || Carries(db, role, key))
            && db' == db.(assignments := db'.assignments, memberships := NextVersion(db.memberships, m), next := db'.next)
  {
    hide Reachable;
    ReachableSound(db);
    Sessions.SoundRefers(db);
    var (db', r) := CreateAssignment(db, tenant, m, role, scopeType, scopeId);
    BumpIs(db.memberships, m);
    hide Sound, Refer, LivePermissions, NextVersion, Bump;
    AddsOne(db.assignments, tenant, m, db.next, db'.assignments[db.next]);
    forall key ensures key in LivePermissions(db', m) <==> key in LivePermissions(db, m) || Carries(db, role, key) {
      MoreHeld(db, db', m, db.next, key);
    }
    hide LiveRows, Carries, RowsOf;
  }

  /** The member's version counts one more, and nothing else of any member moves. */
  function NextVersion(ms: map<Id, Membership>, m: Id): map<Id, Membership>
    requires m in ms
  {
    map x | x in ms :: if x == m then ms[x].(version := ms[x].version + 1) else ms[x]
  }

  lemma BumpIs(ms: map<Id, Membership>, m: Id)
    requires m in ms
    ensures Bump(ms, m) == NextVersion(ms, m)
  {
  }

  lemma AddsOne(rows: map<Id, Assignment>, tenant: Id, m: Id, a: Id, row: Assignment)
    requires a !in rows && row.tenant == tenant && row.membership == m
    ensures RowsOf(rows[a := row], tenant, m) == RowsOf(rows, tenant, m)[a := row] && a !in RowsOf(rows, tenant, m)
  {
    assert forall b :: b in RowsOf(rows[a := row], tenant, m) <==> b == a || b in RowsOf(rows, tenant, m);
  }

  /** One more row of the member gives what its role carries. */
  lemma MoreHeld(db: Db, db': Db, m: Id, a: Id, key: string)
    requires m in db.memberships && m in db'.memberships && db'.memberships[m].tenant == db.memberships[m].tenant
    requires db'.roles == db.roles && db'.permissions == db.permissions
    requires a !in db.assignments && a in db'.assignments && db'.assignments == db.assignments[a := db'.assignments[a]]
    requires RowOf(db', m, a)
    ensures key in LivePermissions(db', m) <==> key in LivePermissions(db, m) || Carries(db, db'.assignments[a].role, key)
  {
    HeldIff(db, m, key);
    HeldIff(db', m, key);
    hide LivePermissions;
    assert forall r :: Carries(db', r, key) <==> Carries(db, r, key);
    hide Carries;
    assert forall b | b != a :: RowOf(db', m, b) <==> RowOf(db, m, b);
    if b :| RowOf(db, m, b) && Carries(db, db.assignments[b].role, key) {
      assert RowOf(db', m, b) && Carries(db', db'.assignments[b].role, key);
    }
  }

  /** Every row of the member is for one store, which it names. */
  ghost predicate StoresOnly(db: Db, m: Id) {
    forall a | RowOf(db, m, a) :: db.assignments[a].scopeType == StoreScope && db.assignments[a].scopeId.Some?
  }

  ghost predicate Names(db: Db, m: Id, store: Id) {
    exists a :: RowOf(db, m, a) && db.assignments[a].scopeId == Some(store)
  }

  /** A member with rows for named stores alone, or with none, sees after a row for one more store the old
      ones and that one; a row for the whole tenant opens every store. */
  lemma AssignmentScope(db: Db, tenant: Id, m: Id, role: Id, scopeType: ScopeType, scopeId: Option<Id>, store: Id)
    requires Reachable(db) && CreateAssignment(db, tenant, m, role, scopeType, scopeId).1.Done? && m in db.memberships
    ensures var db' := CreateAssignment(db, tenant, m, role, scopeType, scopeId).0;
            && m in db'.memberships
            && (scopeType == TenantScope ==> Sees(LiveScope(db', m), store))
            && (scopeType == StoreScope && scopeId.Some? && StoresOnly(db, m) ==>
                  (Sees(LiveScope(db', m), store) <==> Names(db, m, store) || scopeId == Some(store)))
  {
    hide Reachable;
    AssignmentAdds(db, tenant, m, role, scopeType, scopeId);
    var (db', r) := CreateAssignment(db, tenant, m, role, scopeType, scopeId);
    SeenIff(db', m, store);
    hide LivePermissions, LiveRows, Carries, LiveScope;
    assert RowOf(db', m, r.id);
    assert forall a | a != r.id :: RowOf(db', m, a) <==> RowOf(db, m, a);
    if a :| RowOf(db, m, a) && db.assignments[a].scopeId == Some(store) {
      assert RowOf(db', m, a);
    }
  }

  /** A row is deleted exactly when it is the tenant's, in every reachable state. */
  lemma RemovalTable(db: Db, tenant: Id, a: Id)
    requires Refer(db)
    ensures var (r, there) := (DeleteAssignment(db, tenant, a).1, a in db.assignments && db.assignments[a].tenant == tenant);
            (r == Done(a) <==> there) && (r == Fail(AssignmentNotFound) <==> !there)
  {
  }

  /** Then its member has every other row, and holds what those carry. */
  lemma RemovalTakes(db: Db, tenant: Id, a: Id)
    requires Reachable(db) && DeleteAssignment(db, tenant, a).1.Done?
    ensures var db' := DeleteAssignment(db, tenant, a).0;
            && a in db.assignments && a !in db'.assignments && db'.assignments == db.assignments - {a}
            && var m := db.assignments[a].membership;
               && m in db.memberships && m in db'.memberships && a in LiveRows(db, m)
               && LiveRows(db', m) == LiveRows(db, m) - {a}
               && (forall key :: key in LivePermissions(db', m) <==>
                     exists b :: b != a && RowOf(db, m, b) && Carries(db, db.assignments[b].role, key))
               && db' == db.(assignments := db'.assignments, memberships := NextVersion(db.memberships, m))
  {
    hide Reachable;
    ReachableSound(db);
    Sessions.SoundRefers(db);
    var (db', r) := DeleteAssignment(db, tenant, a);
    var m := db.assignments[a].membership;
    assert db.memberships[m].tenant == tenant;
    BumpIs(db.memberships, m);
    hide Sound, Refer, Fresh, LivePermissions, RowsOf, NextVersion, Bump;
    RowTaken(db.assignments, tenant, m, a);
    forall key ensures key in LivePermissions(db', m) <==>
        exists b :: b != a && RowOf(db, m, b) && Carries(db, db.assignments[b].role, key) {
      HeldIff(db', m, key);
      LessHeld(db, db', m, a, key);
    }
  }

  lemma RowTaken(rows: map<Id, Assignment>, tenant: Id, m: Id, a: Id)
    ensures RowsOf(rows - {a}, tenant, m) == RowsOf(rows, tenant, m) - {a}
    ensures a in rows && rows[a].tenant == tenant && rows[a].membership == m ==> a in RowsOf(rows, tenant, m)
  {
  }

  lemma LessHeld(db: Db, db': Db, m: Id, a: Id, key: string)
    requires m in db.memberships && m in db'.memberships && db'.memberships[m].tenant == db.memberships[m].tenant
    requires db'.roles == db.roles && db'.permissions == db.permissions && db'.assignments == db.assignments - {a}
    ensures (exists b :: RowOf(db', m, b) && Carries(db', db'.assignments[b].role, key))
       <==> (exists b :: b != a && RowOf(db, m, b) && Carries(db, db.assignments[b].role, key))
  {
    assert forall b :: RowOf(db', m, b) <==> b != a && RowOf(db, m, b);
    assert forall r :: Carries(db', r, key) <==> Carries(db, r, key);
    hide Carries;
    if b :| b != a && RowOf(db, m, b) && Carries(db, db.assignments[b].role, key) {
      assert RowOf(db', m, b) && Carries(db', db'.assignments[b].role, key);
    }
  }

  // ---- Roles -------------------------------------------------------------------------------------------

  /** A permission of the tenant's own or a seeded one. */
  predicate Grantable(db: Db, tenant: Id, p: Id) {
    p in db.permissions && (db.permissions[p].tenant == None || db.permissions[p].tenant == Some(tenant))
  }

  /** A role is created exactly when the tenant exists and has none of that key. It holds every
      permission that is open to the tenant and has one of the keys, and all other roles stay. */
  lemma CreatedRole(db: Db, tenant: Id, key: string, keys: set<string>)
    ensures var (db', r) := CreateRole(db, tenant, key, keys);
            var taken := exists x :: x in db.roles && db.roles[x].tenant == tenant && db.roles[x].key == key;
            && (r.Done? <==> !taken && tenant in db.tenants)
            && (r == Fail(RoleExists) <==> taken) && (r == Fail(TenantNotFound) <==> !taken && tenant !in db.tenants)
            && (r.Done? ==>
                  && r.id == db.next && db' == db.(roles := db.roles[r.id := db'.roles[r.id]], next := db.next + 1)
                  && db'.roles[r.id].tenant == tenant && db'.roles[r.id].key == key && !db'.roles[r.id].isSystem
                  && (forall p :: p in db'.roles[r.id].permissions <==> Grantable(db, tenant, p) && db.permissions[p].key in keys))
  {
    TakenKey(db.roles, tenant, key);
    hide RoleByKey, HasKey;
  }

  lemma TakenKey(roles: map<Id, Role>, tenant: Id, key: string)
    ensures RoleByKey(roles, tenant, key).Some? <==> exists x :: x in roles && roles[x].tenant == tenant && roles[x].key == key
  {
    var r := RoleByKey(roles, tenant, key);
    if x :| x in roles && roles[x].tenant == tenant && roles[x].key == key {
      assert HasKey(roles, x, tenant, key);
    }
  }

  /** A role is deleted exactly when it is the tenant's, is no system role, and neither an assignment nor
      an invitation names it; then it alone is gone, and no member holds less. */
  lemma DeletedRole(db: Db, tenant: Id, role: Id)
    requires Refer(db)
    ensures var (db', r) := DeleteRole(db, tenant, role);
            var named := (exists a :: a in db.assignments && db.assignments[a].role == role)
                      || (exists i :: i in db.invitations && db.invitations[i].role == role);
            && (r.Done? <==> RoleInTenant(db, tenant, role) && !db.roles[role].isSystem && !named)
            && (r == Fail(RoleNotFound) <==> !RoleInTenant(db, tenant, role))
            && (r == Fail(SystemRole) <==> RoleInTenant(db, tenant, role) && db.roles[role].isSystem)
            && (r.Done? ==> db' == db.(roles := db'.roles) && role !in db'.roles && db'.roles == db.roles - {role})
  {
    if a :| a in db.assignments && db.assignments[a].role == role {
      assert RoleInTenant(db, tenant, role) ==> Assigned(db, tenant, role);
    }
    if i :| i in db.invitations && db.invitations[i].role == role {
      assert Offered(db, role);
    }
  }

  /** What a rewrite of a role's permissions asks for: the listed ids, or the listed keys when there are no ids. */
  predicate AskedFor(db: Db, ids: set<Id>, keys: set<string>, p: Id)
    requires p in db.permissions
  {
    if ids == {} then db.permissions[p].key in keys else p in ids
  }

  /** The role ends with the permissions asked for that are open to the tenant, and with nothing else
      changed; other roles stay. */
  lemma RewrittenRole(db: Db, tenant: Id, role: Id, ids: set<Id>, keys: set<string>)
    requires Refer(db)
    ensures var (db', r) := SetRolePermissions(db, tenant, role, ids, keys);
            && (r.Done? <==> RoleInTenant(db, tenant, role)) && (r == Fail(RoleNotFound) <==> !RoleInTenant(db, tenant, role))
            && (r.Done? ==>
                  && role in db'.roles && db'.roles == db.roles[role := db'.roles[role]]
                  && db'.roles[role].(permissions := {}) == db.roles[role].(permissions := {})
                  && (forall p :: p in db'.roles[role].permissions <==> Grantable(db, tenant, p) && AskedFor(db, ids, keys, p))
                  && db'.assignments == db.assignments && db'.permissions == db.permissions
                  && db' == db.(roles := db'.roles, tenants := db'.tenants, memberships := db'.memberships)
                  && tenant in db.tenants
                  && db'.tenants == db.tenants[tenant := db.tenants[tenant].(rbacVersion := db.tenants[tenant].rbacVersion + 1)])
  {
  }

  /** The version moves of exactly those members who have a row of the role. */
  lemma RewriteMoves(db: Db, tenant: Id, role: Id, ids: set<Id>, keys: set<string>, m: Id)
    requires Reachable(db) && SetRolePermissions(db, tenant, role, ids, keys).1.Done?
    ensures var ms := SetRolePermissions(db, tenant, role, ids, keys).0.memberships;
            && ms.Keys == db.memberships.Keys
            && (m in db.memberships ==>
                  ms[m] == if exists a :: RowOf(db, m, a) && db.assignments[a].role == role
                           then db.memberships[m].(version := db.memberships[m].version + 1) else db.memberships[m])
  {
    hide Reachable;
    ReachableSound(db);
    Sessions.SoundRefers(db);
    hide Sound, PermissionIds;
    if m in db.memberships {
      RowsOfRole(db, tenant, role, m);
      hide Refer, Holds;
    }
  }

  lemma RowsOfRole(db: Db, tenant: Id, role: Id, m: Id)
    requires Refer(db) && RoleInTenant(db, tenant, role) && m in db.memberships
    ensures (db.memberships[m].tenant == tenant && Holds(db.assignments, tenant, m, role))
       <==> exists a :: RowOf(db, m, a) && db.assignments[a].role == role
  {
    if a :| RowOf(db, m, a) && db.assignments[a].role == role {
      assert db.assignments[a].tenant == tenant;
    }
    if db.memberships[m].tenant == tenant && Holds(db.assignments, tenant, m, role) {
      var a :| a in db.assignments && db.assignments[a].tenant == tenant && db.assignments[a].membership == m && db.assignments[a].role == role;
      assert RowOf(db, m, a);
    }
  }

  /** Each member holds afterwards what their other roles carry, and, if they hold the role, what was
      asked for. */
  lemma RewriteReaches(db: Db, tenant: Id, role: Id, ids: set<Id>, keys: set<string>, m: Id, key: string)
    requires Reachable(db) && SetRolePermissions(db, tenant, role, ids, keys).1.Done? && m in db.memberships
    ensures var db' := SetRolePermissions(db, tenant, role, ids, keys).0;
            && m in db'.memberships
            && (key in LivePermissions(db', m) <==>
                  || (exists a :: RowOf(db, m, a) && db.assignments[a].role != role && Carries(db, db.assignments[a].role, key))
                  || ((exists a :: RowOf(db, m, a) && db.assignments[a].role == role)
                      && exists p :: Grantable(db, tenant, p) && AskedFor(db, ids, keys, p) && db.permissions[p].key == key))
  {
    hide Reachable;
    ReachableSound(db);
    Sessions.SoundRefers(db);
    var db' := SetRolePermissions(db, tenant, role, ids, keys).0;
    RewrittenRole(db, tenant, role, ids, keys);
    HeldIff(db', m, key);
    hide Sound, Fresh, Refer, LivePermissions, PermissionIds, BumpHolders, Grantable, AskedFor;
    assert forall a :: RowOf(db', m, a) <==> RowOf(db, m, a);
    CarriesElsewhere(db, db', role, key);
    CarriesAsked(db, db', tenant, role, ids, keys, key);
    hide Carries, SetRolePermissions;
  }

  lemma CarriesElsewhere(db: Db, db': Db, role: Id, key: string)
    requires role in db.roles && role in db'.roles && db'.roles == db.roles[role := db'.roles[role]] && db'.permissions == db.permissions
    ensures forall r | r != role :: Carries(db', r, key) <==> Carries(db, r, key)
  {
  }

  lemma CarriesAsked(db: Db, db': Db, tenant: Id, role: Id, ids: set<Id>, keys: set<string>, key: string)
    requires role in db'.roles && db'.permissions == db.permissions
    requires forall p :: p in db'.roles[role].permissions <==> Grantable(db, tenant, p) && AskedFor(db, ids, keys, p)
    ensures Carries(db', role, key) <==> exists p :: Grantable(db, tenant, p) && AskedFor(db, ids, keys, p) && db.permissions[p].key == key
  {
    hide AskedFor;
  }

  // ---- The team ----------------------------------------------------------------------------------------

  /** A status is refused for strangers, and any but the active one for the owner. */
  lemma StatusTable(db: Db, tenant: Id, m: Id, status: MemberStatus)
    requires Refer(db)
    ensures var r := UpdateStatus(db, tenant, m, status).1;
            var ownersOwn := MemberInTenant(db, tenant, m) && db.tenants[tenant].owner == db.memberships[m].user;
            && (r == Fail(MembershipNotFound) <==> !MemberInTenant(db, tenant, m))
            && (r == Fail(CannotModifyOwner) <==> ownersOwn && status != Active)
            && (r.Done? <==> MemberInTenant(db, tenant, m) && (ownersOwn ==> status == Active))
  {
  }

  /** The member has the status, and a session is closed by it exactly when the member is no longer
      active and the session was their own open one in the tenant; nothing else moves but the version. */
  lemma StatusLeaves(db: Db, tenant: Id, m: Id, status: MemberStatus)
    requires UpdateStatus(db, tenant, m, status).1.Done?
    ensures var db' := UpdateStatus(db, tenant, m, status).0;
            && m in db.memberships && m in db'.memberships && db'.memberships[m].status == status
            && db'.memberships == db.memberships[m := db'.memberships[m]]
            && db'.memberships[m].version == db.memberships[m].version + 1
            && db'.memberships[m].(status := Active, version := 0) == db.memberships[m].(status := Active, version := 0)
            && db'.sessions.Keys == db.sessions.Keys
            && (forall s | s in db.sessions :: db'.sessions[s].(status := Open) == db.sessions[s].(status := Open))
            && (forall s | s in db.sessions ::
                  db'.sessions[s].status == Open <==>
                    db.sessions[s].status == Open
                    && (status == Active || db.sessions[s].user != db.memberships[m].user || db.sessions[s].tenant != Some(tenant)))
            && db' == db.(memberships := db'.memberships, sessions := db'.sessions)
  {
  }

  ghost predicate Distinct<T>(s: seq<T>) {
    forall i, j | 0 <= i < j < |s| :: s[i] != s[j]
  }

  lemma {:induction false} DistinctCount<T>(s: seq<T>)
    ensures |Elements(s)| == |s| <==> Distinct(s)
  {
    if s != [] {
      DistinctCount(s[1..]);
      ElementsCount(s[1..]);
      assert Elements(s) == {s[0]} + Elements(s[1..]);
      assert s[0] in s[1..] <==> exists j :: 0 < j < |s| && s[j] == s[0] by {
        if j :| 0 < j < |s| && s[j] == s[0] {
          assert s[1..][j - 1] == s[0];
        }
      }
      assert Distinct(s) <==> Distinct(s[1..]) && s[0] !in s[1..] by {
        assert forall j | 0 < j < |s| :: s[j] == s[1..][j - 1];
      }
    }
  }

  /** Roles are replaced exactly when the member is the tenant's and every listed role is too, each
      listed once. */
  lemma RolesTable(db: Db, tenant: Id, m: Id, roleIds: seq<Id>)
    ensures var r := UpdateRoles(db, tenant, m, roleIds).1;
            var good := Distinct(roleIds) && forall x | x in roleIds :: RoleInTenant(db, tenant, x);
            && (r.Done? <==> MemberInTenant(db, tenant, m) && good)
            && (r == Fail(MembershipNotFound) <==> !MemberInTenant(db, tenant, m))
            && (r == Fail(RoleNotFound) <==> MemberInTenant(db, tenant, m) && !good)
  {
    DistinctCount(roleIds);
    ElementsCount(roleIds);
    var found, listed := FoundRoles(db, tenant, roleIds), Elements(roleIds);
    if forall x | x in roleIds :: RoleInTenant(db, tenant, x) {
      assert found == listed;
    } else {
      assert found < listed by {
        var x :| x in roleIds && !RoleInTenant(db, tenant, x);
        assert x in listed && x !in found;
      }
      SubsetSmaller(found, listed);
    }
    hide Distinct, FoundRoles, Elements, FreshRows, WithoutMember;
  }

  /** The member's version moves, other members' rows stay, and no other table changes. */
  lemma RolesLeave(db: Db, tenant: Id, m: Id, roleIds: seq<Id>)
    requires Below(db.assignments, db.next) && UpdateRoles(db, tenant, m, roleIds).1.Done?
    ensures var db' := UpdateRoles(db, tenant, m, roleIds).0;
            && m in db.memberships
            && db' == db.(assignments := db'.assignments, memberships := NextVersion(db.memberships, m), next := db'.next)
            && (forall a | a in db.assignments && !(db.assignments[a].membership == m && db.assignments[a].tenant == tenant) ::
                  a in db'.assignments && db'.assignments[a] == db.assignments[a])
            && (forall a | a in db'.assignments && !(db'.assignments[a].membership == m && db'.assignments[a].tenant == tenant) ::
                  a in db.assignments)
  {
    hide FoundRoles;
  }

  // ---- Signup ------------------------------------------------------------------------------------------

  /** A signup goes through exactly when the address and the slug are free. */
  lemma SignupTable(db: Db, email: string, slug: string)
    requires Sound(db)
    ensures var r := SignUp(db, email, slug).1;
            var (taken, used) := (exists u :: u in db.users && db.users[u].email == email, exists t :: t in db.tenants && db.tenants[t].slug == slug);
            && (r.Done? <==> !taken && !used) && (r == Fail(EmailTaken) <==> taken) && (r == Fail(SlugTaken) <==> !taken && used)
  {
    hide Provision, RoleByKey, NewTenant, Sound;
    TakenEmail(db.users, email);
    TakenSlug(db.tenants, slug);
    OwnerProvisioned(db);
    hide UserByEmail, HasEmail, HasSlug, KeysUnique, HasKey, GrantedIds;
  }

  lemma TakenEmail(users: map<Id, User>, email: string)
    ensures UserByEmail(users, email).Some? <==> exists u :: u in users && users[u].email == email
  {
    var r := UserByEmail(users, email);
    if u :| u in users && users[u].email == email {
      assert HasEmail(users, u, email);
    }
  }

  lemma TakenSlug(tenants: map<Id, Tenant>, slug: string)
    ensures (exists t :: HasSlug(tenants, t, slug)) <==> exists t :: t in tenants && tenants[t].slug == slug
  {
    if t :| t in tenants && tenants[t].slug == slug {
      assert HasSlug(tenants, t, slug);
    }
  }

  lemma OwnerProvisioned(db: Db)
    requires Sound(db)
    ensures var roles := Provision(db.roles, db.permissions, db.next + 1, SYSTEM_ROLES, db.next + 4);
            exists r :: RoleByKey(roles, db.next + 1, OWNER) == Some(r) && HasKey(roles, r, db.next + 1, OWNER) && KeysUnique(roles)
                        && roles[r].permissions == GrantedIds(db.permissions, Everything)
  {
    ProvisionFrame(db.roles, db.permissions, db.next + 1, SYSTEM_ROLES, db.next + 4);
    ProvisionImplements(db.roles, db.permissions, db.next + 1, SYSTEM_ROLES, db.next + 4);
    var roles := Provision(db.roles, db.permissions, db.next + 1, SYSTEM_ROLES, db.next + 4);
    assert SYSTEM_ROLES[0] in SYSTEM_ROLES;
    assert Implements(roles, db.permissions, db.next + 1, SYSTEM_ROLES[0]);
    var r :| HasKey(roles, r, db.next + 1, OWNER) && roles[r].permissions == GrantedIds(db.permissions, Everything);
    hide Provision, GrantedIds, SYSTEM_ROLES;
  }

  lemma OnlyRowThere(rows: map<Id, Assignment>, tenant: Id, m: Id, a: Id, row: Assignment)
    requires (forall b | b in rows :: rows[b].tenant != tenant) && row.tenant == tenant && row.membership == m
    ensures RowsOf(rows[a := row], tenant, m) == map[a := row]
  {
    var now := RowsOf(rows[a := row], tenant, m);
    assert a in now && forall b | b in now :: b == a;
  }

  /** The owner's one row. */
  lemma OwnersRow(db: Db, db': Db, tenant: Id, m: Id, a: Id)
    requires Sound(db) && tenant !in db.tenants && a in db'.assignments && db'.assignments == db.assignments[a := db'.assignments[a]]
    requires db'.assignments[a].tenant == tenant && db'.assignments[a].membership == m
    requires m in db'.memberships && db'.memberships[m].tenant == tenant
    ensures forall b :: RowOf(db', m, b) <==> b == a
    ensures LiveRows(db', m) == map[a := db'.assignments[a]]
  {
    NoRowsThere(db, tenant);
    hide Sound;
    OnlyRowThere(db.assignments, tenant, m, a, db'.assignments[a]);
    hide RowsOf;
  }

  lemma NoRowsThere(db: Db, tenant: Id)
    requires Sound(db) && tenant !in db.tenants
    ensures forall b | b in db.assignments :: db.assignments[b].tenant != tenant
  {
    hide Fresh, Unique, Owned;
  }

  /** Whoever signs up owns a new tenant in business, is its active member and holds, for all of its
      stores, every permission of the catalogue that was seeded. The tables otherwise stay. */
  lemma SignupFounds(db: Db, email: string, slug: string, key: string, store: Id)
    requires Reachable(db) && SignUp(db, email, slug).1.Done?
    ensures var (db', m) := (SignUp(db, email, slug).0, SignUp(db, email, slug).1.id);
            && m !in db.memberships && m in db'.memberships && db'.memberships == db.memberships[m := db'.memberships[m]]
            && db'.memberships[m].status == Active
            && var (t, u) := (db'.memberships[m].tenant, db'.memberships[m].user);
               && t !in db.tenants && u !in db.users
               && db'.tenants == db.tenants[t := Tenant(slug, Running, u, 1)] && db'.users == db.users[u := User(email)]
               && (forall r | r in db'.roles && db'.roles[r].tenant != t :: r in db.roles && db'.roles[r] == db.roles[r])
               && (forall r | r in db.roles :: r in db'.roles && db'.roles[r] == db.roles[r])
               && (key in LivePermissions(db', m) <==>
                     key in ALL_PERMISSION_KEYS && exists p :: p in db.permissions && db.permissions[p] == Permission(None, key))
               && Sees(LiveScope(db', m), store)
  {
    hide Reachable;
    ReachableSound(db);
    var db' := SignUp(db, email, slug).0;
    var (tenant, m) := (db.next + 1, db.next + 2);
    FoundedTables(db, email, slug);
    hide SignUp;
    OwnersRow(db, db', tenant, m, db.next + 3);
    HeldIff(db', m, key);
    SeenIff(db', m, store);
    hide LivePermissions, LiveRows, LiveScope, Sound;
    SeededKeys(db', db'.assignments[db.next + 3].role, key);
    hide Carries, GrantedIds, ALL_PERMISSION_KEYS;
    assert RowOf(db', m, db.next + 3);
  }

  /** The new rows of a signup, by the ids they take. */
  lemma FoundedTables(db: Db, email: string, slug: string)
    requires Sound(db) && SignUp(db, email, slug).1.Done?
    ensures var (db', u, t, m, a) := (SignUp(db, email, slug).0, db.next, db.next + 1, db.next + 2, db.next + 3);
            && SignUp(db, email, slug).1.id == m && u !in db.users && t !in db.tenants && m !in db.memberships
            && db'.users == db.users[u := User(email)] && db'.tenants == db.tenants[t := Tenant(slug, Running, u, 1)]
            && db'.memberships == db.memberships[m := Membership(t, u, Active, 1)]
            && a in db'.assignments && db'.assignments == db.assignments[a := Assignment(t, m, db'.assignments[a].role, TenantScope, None)]
            && db'.permissions == db.permissions
            && db'.assignments[a].role in db'.roles
            && db'.roles[db'.assignments[a].role].permissions == GrantedIds(db.permissions, Everything)
            && (forall r | r in db.roles :: r in db'.roles && db'.roles[r] == db.roles[r])
            && (forall r | r in db'.roles && r !in db.roles :: db'.roles[r].tenant == t)
  {
    OwnerProvisioned(db);
    OtherRolesStay(db);
    hide Provision, RoleByKey, GrantedIds, SYSTEM_ROLES, Unique, Owned, Refer, KeysUnique, HasKey;
  }

  lemma OtherRolesStay(db: Db)
    requires Sound(db)
    ensures var roles := Provision(db.roles, db.permissions, db.next + 1, SYSTEM_ROLES, db.next + 4);
            && (forall r | r in db.roles :: r in roles && roles[r] == db.roles[r])
            && (forall r | r in roles && r !in db.roles :: roles[r].tenant == db.next + 1)
  {
    ProvisionFrame(db.roles, db.permissions, db.next + 1, SYSTEM_ROLES, db.next + 4);
    assert forall r | r in db.roles :: db.roles[r].tenant in db.tenants;
    hide Provision, SYSTEM_ROLES, MembersUnique, EmailsUnique, SlugsUnique, TokensUnique, KeysUnique, Owned;
  }

  lemma SeededKeys(db: Db, r: Id, key: string)
    requires r in db.roles && db.roles[r].permissions == GrantedIds(db.permissions, Everything)
    ensures Carries(db, r, key) <==> key in ALL_PERMISSION_KEYS && exists p :: p in db.permissions && db.permissions[p] == Permission(None, key)
  {
    hide ALL_PERMISSION_KEYS;
    if p :| p in db.permissions && db.permissions[p] == Permission(None, key) {
      assert key in ALL_PERMISSION_KEYS ==> p in GrantedIds(db.permissions, Everything);
    }
  }

  /** Whoever is invited without a role gets the light user's, which is there from the signup on: it
      carries less than the owner's, and lets nobody manage roles or invite. */
  lemma LightUserProvisioned(db: Db, email: string, slug: string)
    requires Reachable(db) && SignUp(db, email, slug).1.Done?
    ensures var (db', m) := (SignUp(db, email, slug).0, SignUp(db, email, slug).1.id);
            m in db'.memberships &&
            exists light: Id, owner: Id ::
              && HasKey(db'.roles, light, db'.memberships[m].tenant, "light_user")
              && HasKey(db'.roles, owner, db'.memberships[m].tenant, "owner") && Lesser(db', light, owner)
              && db'.roles[light].isSystem && db'.roles[owner].isSystem
  {
    hide Reachable;
    ReachableSound(db);
    var db' := SignUp(db, email, slug).0;
    SystemRoles(db);
    FoundedRoles(db, email, slug);
    FoundedTables(db, email, slug);
    SystemMarks(db);
    hide SignUp, Sound, Provision;
    var light :| HasKey(db'.roles, light, db.next + 1, "light_user") && db'.roles[light].permissions == GrantedIds(db.permissions, Only(LIGHT_USER_PERMISSIONS));
    var owner :| HasKey(db'.roles, owner, db.next + 1, "owner") && db'.roles[owner].permissions == GrantedIds(db.permissions, Everything);
    hide GrantedIds, Carries;
    LightIsLess(db', light, owner);
  }

  /** A role for readers beside the owner's. */
  ghost predicate Lesser(db: Db, light: Id, owner: Id) {
    && (forall key | Carries(db, light, key) :: Carries(db, owner, key))
    && !Carries(db, light, "roles.manage") && !Carries(db, light, "users.invite")
    && (Carries(db, light, "dashboard.read") <==> Carries(db, owner, "dashboard.read"))
  }

  lemma FoundedRoles(db: Db, email: string, slug: string)
    requires SignUp(db, email, slug).1.Done?
    ensures SignUp(db, email, slug).0.permissions == db.permissions
    ensures SignUp(db, email, slug).0.roles == Provision(db.roles, db.permissions, db.next + 1, SYSTEM_ROLES, db.next + 4)
  {
    hide Provision, RoleByKey, SYSTEM_ROLES;
  }

  lemma SystemRoles(db: Db)
    requires Sound(db)
    ensures var roles := Provision(db.roles, db.permissions, db.next + 1, SYSTEM_ROLES, db.next + 4);
            && Implements(roles, db.permissions, db.next + 1, RoleDef("owner", true, Everything))
            && Implements(roles, db.permissions, db.next + 1, RoleDef("light_user", true, Only(LIGHT_USER_PERMISSIONS)))
  {
    ProvisionImplements(db.roles, db.permissions, db.next + 1, SYSTEM_ROLES, db.next + 4);
    assert SYSTEM_ROLES[0] in SYSTEM_ROLES && SYSTEM_ROLES[1] in SYSTEM_ROLES;
    hide Provision, GrantedIds, Implements, Sound;
  }

  /** The roles of a new tenant are system roles, which cannot be deleted. */
  lemma SystemMarks(db: Db)
    requires Sound(db)
    ensures var roles := Provision(db.roles, db.permissions, db.next + 1, SYSTEM_ROLES, db.next + 4);
            forall r | r in roles && roles[r].tenant == db.next + 1 :: roles[r].isSystem
  {
    assert forall r | r in db.roles :: db.roles[r].tenant in db.tenants;
    ProvisionMarks(db.roles, db.permissions, db.next + 1, SYSTEM_ROLES, db.next + 4);
    hide Sound, Provision;
  }

  lemma LightIsLess(db: Db, light: Id, owner: Id)
    requires light in db.roles && db.roles[light].permissions == GrantedIds(db.permissions, Only(LIGHT_USER_PERMISSIONS))
    requires owner in db.roles && db.roles[owner].permissions == GrantedIds(db.permissions, Everything)
    ensures Lesser(db, light, owner)
  {
    LightKeys();
    hide ALL_PERMISSION_KEYS, LIGHT_USER_PERMISSIONS;
    forall key | Carries(db, light, key) ensures Carries(db, owner, key) && key in LIGHT_USER_PERMISSIONS {
      var p :| p in db.roles[light].permissions && p in db.permissions && db.permissions[p].key == key;
      assert p in db.roles[owner].permissions;
    }
    if Carries(db, owner, "dashboard.read") {
      var p :| p in db.roles[owner].permissions && p in db.permissions && db.permissions[p].key == "dashboard.read";
      assert p in db.roles[light].permissions;
    }
  }

  lemma LightKeys()
    ensures LIGHT_USER_PERMISSIONS <= ALL_PERMISSION_KEYS
    ensures "roles.manage" !in LIGHT_USER_PERMISSIONS && "users.invite" !in LIGHT_USER_PERMISSIONS
    ensures "dashboard.read" in LIGHT_USER_PERMISSIONS
  {
    assert |"roles.manage"| == 12 && |"users.invite"| == 12 && |"reports.read"| == 12 && |"profile.read"| == 12;
    assert "reports.read"[2] == 'p' && "profile.read"[0] == 'p' && "roles.manage"[2] == 'l' && "users.invite"[0] == 'u';
    assert forall k | k in LIGHT_USER_PERMISSIONS && |k| == 12 :: k == "reports.read" || k == "profile.read";
  }

  // ---- Refusals ----------------------------------------------------------------------------------------

  lemma IamRefusals(db: Db, op: IamOp)
    ensures DoIam(db, op).1.Fail? ==> DoIam(db, op).0 == db
  {
    hide PermissionIds, Bump, BumpHolders, RoleByKey, Assigned, Offered;
  }

  lemma TeamRefusals(db: Db, op: TeamOp)
    ensures DoTeam(db, op).1.Fail? ==> DoTeam(db, op).0 == db
  {
    hide CloseSessions, Bump, FreshRows, WithoutMember, FoundRoles;
  }

  lemma InvitingRefusals(db: Db, op: InviteOp)
    ensures DoInviting(db, op).1.Fail? ==> DoInviting(db, op).0 == db
  {
    hide Invited, Join, InvitedRole, AlreadyActive, Acceptable;
  }

  lemma AuthRefusals(db: Db, op: SessionOp)
    ensures DoAuth(db, op).1.Fail? && DoAuth(db, op).1 != Fail(RefreshReuse) ==> DoAuth(db, op).0 == db
  {
    hide KillFamily, Rotate, ClaimsOf, Resolved, CloseSession, RevokeSessionTokens;
  }

  lemma ResolvingRefusals(db: Db, op: ReadOp)
    ensures DoResolving(db, op).1.Fail? ==> DoResolving(db, op).0 == db
  {
    hide SeeTenant, SeeMembership, SeeRole, RowsOf, Wants;
  }

  /** A call that is refused leaves the database as it was; only a replayed refresh token leaves a trace. */
  lemma RefusalsChangeNothing(db: Db, op: Op)
    requires Do(db, op).1.Fail? && Do(db, op).1 != Fail(RefreshReuse)
    ensures Do(db, op).0 == db
  {
    hide SignUp, DoIam, DoTeam, DoInviting, DoAuth, DoResolving;
    match op
    case Signup(email, slug) => SignupRefusal(db, email, slug);
    case Iam(iam) => IamRefusals(db, iam);
    case Team(team) => TeamRefusals(db, team);
    case Inviting(inviting) => InvitingRefusals(db, inviting);
    case Auth(auth) => AuthRefusals(db, auth);
    case Resolving(resolving) => ResolvingRefusals(db, resolving);
  }

  lemma SignupRefusal(db: Db, email: string, slug: string)
    ensures SignUp(db, email, slug).1.Fail? ==> SignUp(db, email, slug).0 == db
  {
    hide NewTenant, Provision, RoleByKey, UserByEmail;
  }
}
