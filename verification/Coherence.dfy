/** Cache coherence of access tokens: what a token says about its holder's permissions, as long as
    its membership version is the current one. `resolve` reads the version first and the data
    later, row by row, while writers commit in between. */
module Coherence {
  import opened Tables
  import opened Provisioning
  import opened Handlers
  import opened Integrity

  ghost predicate ScopeWithin(a: set<Id>, b: set<Id>) {
    forall s :: Sees(a, s) ==> Sees(b, s)
  }

  ghost predicate Contains(small: map<Id, Assignment>, big: map<Id, Assignment>) {
    forall a | a in small :: a in big && big[a] == small[a]
  }

  /** How close a snapshot stays to what is held: within it, the same permissions and stores, or the
      same rows. */
  datatype Closeness = Within | Same | Identical

  function PermissionsOf(db: Db, rows: map<Id, Assignment>): set<string> {
    KeysOf(db.permissions, Granted(rows, db.roles))
  }

  /** How the rows seen at some version relate to the rows held now at that version: they are the
      same, or rows were added and the scope is the whole tenant. */
  ghost predicate Grown(db: Db, seen: map<Id, Assignment>, held: map<Id, Assignment>, mode: Closeness) {
    held == seen
    || (mode != Identical && Contains(seen, held) && HasTenantRow(held)
        && (mode == Same ==> ScopeOf(held) == ScopeOf(seen) && PermissionsOf(db, held) == PermissionsOf(db, seen)))
  }

  // ---- The invariant -------------------------------------------------------------

  /** A version read from membership `m`, and whether it is still the current one. */
  ghost predicate Holder(db: Db, m: Id, tenant: Id, user: Id, version: nat) {
    IsMember(db.memberships, m, tenant, user) && version <= db.memberships[m].version
  }

  ghost predicate Current(db: Db, m: Id, version: nat) {
    m in db.memberships && db.memberships[m].version == version
  }

  ghost predicate FlightShape(flight: Flight) {
    && (flight.rows.Some? ==> flight.member.Some?)
    && (forall r | r in flight.roles :: Wants(flight, r))
  }

  /** What a running `resolve` has collected so far, while its version is current. */
  ghost predicate FlightFits(db: Db, flight: Flight, mode: Closeness)
    requires flight.member.Some? && flight.member.value.id in db.memberships
  {
    var m := flight.member.value.id;
    && db.memberships[m].status == Active
    && (flight.rows.Some? ==> Grown(db, flight.rows.value, LiveRows(db, m), mode))
    && (forall r | r in flight.roles :: r in db.roles && db.roles[r] == flight.roles[r])
  }

  ghost predicate FlightCoherent(db: Db, flight: Flight, mode: Closeness) {
    && FlightShape(flight)
    && (flight.member.Some? ==>
          var seen := flight.member.value;
          && Holder(db, seen.id, flight.tenant, flight.user, seen.version)
          && (Current(db, seen.id, seen.version) ==> FlightFits(db, flight, mode)))
  }

  /** What an access token says about its holder, against what the holder has now. */
  ghost predicate ClaimsFit(db: Db, c: Claims, mode: Closeness)
    requires c.membership in db.memberships
  {
    && db.memberships[c.membership].status == Active
    && c.permissions <= LivePermissions(db, c.membership)
    && c.roles <= RoleKeys(LiveRows(db, c.membership), db.roles)
    && ScopeWithin(c.storeScope, LiveScope(db, c.membership))
    && (mode != Within ==> c.permissions == LivePermissions(db, c.membership) && c.storeScope == LiveScope(db, c.membership))
    && (mode == Identical ==> c.roles == RoleKeys(LiveRows(db, c.membership), db.roles))
  }

  ghost predicate ClaimsCoherent(db: Db, c: Claims, mode: Closeness) {
    && Holder(db, c.membership, c.tenant, c.user, c.memberVersion)
    && (Current(db, c.membership, c.memberVersion) ==> ClaimsFit(db, c, mode))
  }

  ghost predicate Coherent(db: Db, mode: Closeness) {
    && (forall f | f in db.flights :: FlightCoherent(db, db.flights[f], mode))
    && (forall c | c in db.issued :: ClaimsCoherent(db, c, mode))
  }

  // ---- What a writer may do to a membership without moving its version -------------

  ghost predicate RolesKept(rows: map<Id, Assignment>, roles: map<Id, Role>, roles': map<Id, Role>) {
    forall a | a in rows && rows[a].role in roles :: rows[a].role in roles' && roles'[rows[a].role] == roles[rows[a].role]
  }

  /** A membership whose version did not move and that was active still is, has at least its old
      rows, and finds the roles it holds untouched. */
  ghost predicate SteadyMember(db: Db, db': Db, m: Id, mode: Closeness)
    requires m in db.memberships
  {
    && Holder(db', m, db.memberships[m].tenant, db.memberships[m].user, db.memberships[m].version)
    && (Current(db', m, db.memberships[m].version) && db.memberships[m].status == Active ==>
          && db'.memberships[m].status == Active
          && Grown(db', LiveRows(db, m), LiveRows(db', m), mode)
          && RolesKept(LiveRows(db, m), db.roles, db'.roles))
  }

  ghost predicate Steady(db: Db, db': Db, mode: Closeness) {
    && db'.permissions == db.permissions
    && forall m | m in db.memberships :: SteadyMember(db, db', m, mode)
  }

  // ---- Growing rows grow permissions and scope --------------------------------------

  lemma GrownTransitive(db: Db, a: map<Id, Assignment>, b: map<Id, Assignment>, c: map<Id, Assignment>, mode: Closeness)
    requires Grown(db, a, b, mode) && Grown(db, b, c, mode)
    ensures Grown(db, a, c, mode)
  {
    hide PermissionsOf, ScopeOf;
  }

  lemma GrownContains(db: Db, a: map<Id, Assignment>, b: map<Id, Assignment>, mode: Closeness)
    requires Grown(db, a, b, mode)
    ensures Contains(a, b)
  {
  }

  lemma GrownScope(db: Db, a: map<Id, Assignment>, b: map<Id, Assignment>, mode: Closeness)
    requires Grown(db, a, b, mode)
    ensures ScopeWithin(ScopeOf(a), ScopeOf(b))
    ensures mode != Within ==> ScopeOf(a) == ScopeOf(b)
  {
    hide PermissionsOf;
  }

  /** Rows whose roles exist and are kept carry the same permissions afterwards. */
  lemma SamePermissions(db: Db, db': Db, rows: map<Id, Assignment>)
    requires db'.permissions == db.permissions && RolesKept(rows, db.roles, db'.roles)
    requires forall x | x in rows :: rows[x].role in db.roles
    ensures PermissionsOf(db', rows) == PermissionsOf(db, rows)
    ensures RoleKeys(rows, db'.roles) == RoleKeys(rows, db.roles)
  {
    assert Granted(rows, db'.roles) == Granted(rows, db.roles);
  }

  /** What had grown in one state has grown in the next, if the held rows' roles are kept. */
  lemma GrownMoves(db: Db, db': Db, a: map<Id, Assignment>, b: map<Id, Assignment>, mode: Closeness)
    requires Grown(db, a, b, mode) && db'.permissions == db.permissions && RolesKept(b, db.roles, db'.roles)
    requires forall x | x in b :: b[x].role in db.roles
    ensures Grown(db', a, b, mode)
  {
    GrownContains(db, a, b, mode);
    SamePermissions(db, db', a);
    SamePermissions(db, db', b);
    hide PermissionsOf, ScopeOf;
  }

  lemma GrownPermissions(db: Db, db': Db, a: map<Id, Assignment>, b: map<Id, Assignment>, mode: Closeness)
    requires db'.permissions == db.permissions && Grown(db', a, b, mode) && RolesKept(a, db.roles, db'.roles)
    ensures PermissionsOf(db, a) <= PermissionsOf(db', b)
    ensures RoleKeys(a, db.roles) <= RoleKeys(b, db'.roles)
    ensures (forall x | x in a :: a[x].role in db.roles) ==>
              && (mode != Within ==> PermissionsOf(db, a) == PermissionsOf(db', b))
              && (mode == Identical ==> RoleKeys(a, db.roles) == RoleKeys(b, db'.roles))
  {
    GrownContains(db', a, b, mode);
    assert Granted(a, db.roles) <= Granted(b, db'.roles);
    if forall x | x in a :: a[x].role in db.roles {
      SamePermissions(db, db', a);
    }
  }

  // ---- Steady steps keep the invariant -----------------------------------------------

  lemma SteadyClaims(db: Db, db': Db, c: Claims, mode: Closeness)
    requires Refer(db) && Steady(db, db', mode) && ClaimsCoherent(db, c, mode)
    ensures ClaimsCoherent(db', c, mode)
  {
    var m := c.membership;
    assert SteadyMember(db, db', m, mode);
    if Current(db', m, c.memberVersion) {
      GrownScope(db', LiveRows(db, m), LiveRows(db', m), mode);
      GrownPermissions(db, db', LiveRows(db, m), LiveRows(db', m), mode);
    }
  }

  lemma SteadyFlight(db: Db, db': Db, flight: Flight, mode: Closeness)
    requires Refer(db) && Steady(db, db', mode) && FlightCoherent(db, flight, mode)
    ensures FlightCoherent(db', flight, mode)
  {
    if flight.member.Some? {
      var m := flight.member.value.id;
      assert SteadyMember(db, db', m, mode);
      if Current(db', m, flight.member.value.version) && flight.rows.Some? {
        GrownContains(db, flight.rows.value, LiveRows(db, m), mode);
        GrownMoves(db, db', flight.rows.value, LiveRows(db, m), mode);
        GrownTransitive(db', flight.rows.value, LiveRows(db, m), LiveRows(db', m), mode);
      }
    }
  }

  /** A step that is steady and only adds coherent flights and tokens keeps everything coherent. */
  lemma SteadyCoherent(db: Db, db': Db, mode: Closeness)
    requires Refer(db) && Steady(db, db', mode) && Coherent(db, mode)
    requires forall f | f in db'.flights :: (f in db.flights && db'.flights[f] == db.flights[f]) || FlightCoherent(db', db'.flights[f], mode)
    requires forall c | c in db'.issued :: c in db.issued || ClaimsCoherent(db', c, mode)
    ensures Coherent(db', mode)
  {
    forall f | f in db'.flights ensures FlightCoherent(db', db'.flights[f], mode) {
      if f in db.flights && db'.flights[f] == db.flights[f] {
        SteadyFlight(db, db', db.flights[f], mode);
      }
    }
    forall c | c in db'.issued ensures ClaimsCoherent(db', c, mode) {
      if c in db.issued {
        SteadyClaims(db, db', c, mode);
      }
    }
  }

  // ---- Every writer is steady ----------------------------------------------------------

  lemma SameTablesSteady(db: Db, db': Db, mode: Closeness)
    requires db'.permissions == db.permissions && db'.roles == db.roles
    requires db'.memberships == db.memberships && db'.assignments == db.assignments
    ensures Steady(db, db', mode)
  {
  }

  /** No version moves and no row changes: enough that the assigned roles are kept. */
  lemma SameRowsSteady(db: Db, db': Db, mode: Closeness)
    requires db'.permissions == db.permissions && db'.memberships == db.memberships && db'.assignments == db.assignments
    requires RolesKept(db.assignments, db.roles, db'.roles)
    ensures Steady(db, db', mode)
  {
  }

  /** The versions of all but some members stay; so do the rows and the roles of those members. */
  ghost predicate Untouched(db: Db, db': Db, m: Id)
    requires m in db.memberships
  {
    && m in db'.memberships && db'.memberships[m] == db.memberships[m]
    && LiveRows(db', m) == LiveRows(db, m)
    && RolesKept(LiveRows(db, m), db.roles, db'.roles)
  }

  ghost predicate Bumped(db: Db, db': Db, m: Id)
    requires m in db.memberships
  {
    && IsMember(db'.memberships, m, db.memberships[m].tenant, db.memberships[m].user)
    && db.memberships[m].version < db'.memberships[m].version
  }

  lemma BumpedOrUntouchedSteady(db: Db, db': Db, mode: Closeness)
    requires db'.permissions == db.permissions
    requires forall m | m in db.memberships :: Bumped(db, db', m) || Untouched(db, db', m)
    ensures Steady(db, db', mode)
  {
  }

  lemma CreateRoleSteady(db: Db, tenant: Id, key: string, keys: set<string>, mode: Closeness)
    requires Fresh(db)
    ensures Steady(db, CreateRole(db, tenant, key, keys).0, mode)
  {
    hide Steady, PermissionIds, RoleByKey;
    SameRowsSteady(db, CreateRole(db, tenant, key, keys).0, mode);
  }

  lemma DeleteRoleSteady(db: Db, tenant: Id, role: Id, mode: Closeness)
    requires Fresh(db) && Refer(db)
    ensures Steady(db, DeleteRole(db, tenant, role).0, mode)
  {
    hide Steady;
    var (db', r) := DeleteRole(db, tenant, role);
    DeleteKeeps(db, tenant, role);
    hide DeleteRole, RolesKept, Refer, Fresh;
    SameRowsSteady(db, db', mode);
  }

  lemma DeleteKeeps(db: Db, tenant: Id, role: Id)
    requires Refer(db)
    ensures var db' := DeleteRole(db, tenant, role).0;
            && db'.permissions == db.permissions && db'.memberships == db.memberships && db'.assignments == db.assignments
            && RolesKept(db.assignments, db.roles, db'.roles)
  {
    hide Refer, Offered;
    var (db', r) := DeleteRole(db, tenant, role);
    if r.Done? {
      UnassignedRole(db, role);
      AssignedKept(db, role);
      hide RolesKept;
    }
  }

  lemma AssignedKept(db: Db, role: Id)
    requires AssignmentsRefer(db.assignments, db.memberships, db.roles - {role})
    ensures RolesKept(db.assignments, db.roles, db.roles - {role})
  {
  }

  /** Whoever holds the role is bumped; whoever is not bumped does not hold it. */
  lemma SetRolePermissionsSteady(db: Db, tenant: Id, role: Id, ids: set<Id>, keys: set<string>, mode: Closeness)
    requires Fresh(db) && Refer(db)
    ensures Steady(db, SetRolePermissions(db, tenant, role, ids, keys).0, mode)
  {
    hide Steady, PermissionIds;
    var (db', r) := SetRolePermissions(db, tenant, role, ids, keys);
    if r.Done? {
      assert db'.memberships == BumpHolders(db.memberships, db.assignments, tenant, role);
      forall m | m in db.memberships ensures Bumped(db, db', m) || Untouched(db, db', m) {
        if !(db.memberships[m].tenant == tenant && Holds(db.assignments, tenant, m, role)) {
          assert forall a | a in LiveRows(db, m) :: db.assignments[a].role != role;
        }
      }
    }
    BumpedOrUntouchedSteady(db, db', mode);
  }

  /** One member's version moves, and nobody else's rows. */
  lemma RowsOfOneSteady(db: Db, db': Db, m: Id, mode: Closeness)
    requires m in db.memberships && db'.permissions == db.permissions && db'.roles == db.roles
    requires db'.memberships == Bump(db.memberships, m)
    requires forall a | a in db.assignments && db.assignments[a].membership != m :: a in db'.assignments && db'.assignments[a] == db.assignments[a]
    requires forall a | a in db'.assignments && db'.assignments[a].membership != m :: a in db.assignments && db.assignments[a] == db'.assignments[a]
    ensures Steady(db, db', mode)
  {
    forall n | n in db.memberships ensures Bumped(db, db', n) || Untouched(db, db', n) {
      if n != m {
        assert LiveRows(db', n) == LiveRows(db, n);
      }
    }
    BumpedOrUntouchedSteady(db, db', mode);
  }

  lemma CreateAssignmentSteady(db: Db, tenant: Id, m: Id, role: Id, scopeType: ScopeType, scopeId: Option<Id>, mode: Closeness)
    requires Fresh(db)
    ensures Steady(db, CreateAssignment(db, tenant, m, role, scopeType, scopeId).0, mode)
  {
    hide Steady;
    var (db', r) := CreateAssignment(db, tenant, m, role, scopeType, scopeId);
    if r.Done? {
      RowsOfOneSteady(db, db', m, mode);
    } else {
      SameTablesSteady(db, db', mode);
    }
  }

  lemma DeleteAssignmentSteady(db: Db, tenant: Id, a: Id, mode: Closeness)
    requires Fresh(db)
    ensures Steady(db, DeleteAssignment(db, tenant, a).0, mode)
  {
    hide Steady;
    var (db', r) := DeleteAssignment(db, tenant, a);
    if r.Done? {
      RowsOfOneSteady(db, db', db.assignments[a].membership, mode);
    } else {
      SameTablesSteady(db, db', mode);
    }
  }

  lemma UpdateStatusSteady(db: Db, tenant: Id, m: Id, status: MemberStatus, mode: Closeness)
    ensures Steady(db, UpdateStatus(db, tenant, m, status).0, mode)
  {
    hide Steady, CloseSessions;
    var (db', r) := UpdateStatus(db, tenant, m, status);
    if r.Done? {
      forall n | n in db.memberships ensures Bumped(db, db', n) || Untouched(db, db', n) {
        assert LiveRows(db', n) == LiveRows(db, n);
      }
      BumpedOrUntouchedSteady(db, db', mode);
    } else {
      SameTablesSteady(db, db', mode);
    }
  }

  lemma UpdateRolesSteady(db: Db, tenant: Id, m: Id, roleIds: seq<Id>, mode: Closeness)
    requires Fresh(db) && Refer(db)
    ensures Steady(db, UpdateRoles(db, tenant, m, roleIds).0, mode)
  {
    hide Steady;
    var (db', r) := UpdateRoles(db, tenant, m, roleIds);
    if r.Done? {
      UpdatedRows(db.assignments, tenant, m, roleIds, db.next, db'.assignments);
      RowsOfOneSteady(db, db', m, mode);
    } else {
      SameTablesSteady(db, db', mode);
    }
  }

  lemma {:induction false} UpdatedRows(rows: map<Id, Assignment>, tenant: Id, m: Id, roleIds: seq<Id>, next: Id, rows': map<Id, Assignment>)
    requires Below(rows, next) && rows' == WithoutMember(rows, tenant, m) + FreshRows(tenant, m, roleIds, next)
    ensures forall a | a in rows && rows[a].membership != m :: a in rows' && rows'[a] == rows[a]
    ensures forall a | a in rows' && rows'[a].membership != m :: a in rows && rows[a] == rows'[a]
  {
  }

  lemma SignUpSteady(db: Db, email: string, slug: string, mode: Closeness)
    requires Fresh(db) && Refer(db) && KeysUnique(db.roles)
    ensures Steady(db, SignUp(db, email, slug).0, mode)
  {
    hide Steady, Refer;
    if SignUp(db, email, slug).1.Fail? {
      SameTablesSteady(db, db, mode);
    } else {
      ProvisionFrame(db.roles, db.permissions, db.next + 1, SYSTEM_ROLES, db.next + 4);
      var roles := Provision(db.roles, db.permissions, db.next + 1, SYSTEM_ROLES, db.next + 4);
      var ownerRole := RoleByKey(roles, db.next + 1, OWNER).value;
      NewTenantSteady(db, email, slug, roles, ownerRole, db.next + 4 + |SYSTEM_ROLES|, mode);
    }
  }

  lemma NewTenantSteady(db: Db, email: string, slug: string, roles: map<Id, Role>, ownerRole: Id, next: Id, mode: Closeness)
    requires Fresh(db) && Refer(db)
    requires forall r | r in db.roles && db.roles[r].tenant != db.next + 1 :: r in roles && roles[r] == db.roles[r]
    ensures Steady(db, NewTenant(db, email, slug, roles, ownerRole, next), mode)
  {
    var db' := NewTenant(db, email, slug, roles, ownerRole, next);
    forall m | m in db.memberships ensures SteadyMember(db, db', m, mode) {
      hide SteadyMember;
      OldMemberSteady(db, email, slug, roles, ownerRole, next, m, mode);
    }
    hide SteadyMember, Fresh, Refer;
  }

  lemma OldMemberSteady(db: Db, email: string, slug: string, roles: map<Id, Role>, ownerRole: Id, next: Id, m: Id, mode: Closeness)
    requires Fresh(db) && Refer(db) && m in db.memberships
    requires forall r | r in db.roles && db.roles[r].tenant != db.next + 1 :: r in roles && roles[r] == db.roles[r]
    ensures SteadyMember(db, NewTenant(db, email, slug, roles, ownerRole, next), m, mode)
  {
    var db' := NewTenant(db, email, slug, roles, ownerRole, next);
    assert LiveRows(db', m) == LiveRows(db, m);
  }

  /** The acceptance lands on a new or non-active membership, or on one that has the role already. */
  ghost predicate CleanAccept(db: Db, token: Id, now: int) {
    Acceptable(db, token, now) ==>
      var inv := db.invitations[InviteByToken(db.invitations, token).value];
      var m := InviteeMembership(db, inv.tenant, inv.email);
      m !in db.memberships || db.memberships[m].status != Active || Holds(db.assignments, inv.tenant, m, inv.role)
  }

  /** A clean acceptance, or one whose role adds no permission key where the scope is the whole tenant. */
  ghost predicate HarmlessAccept(db: Db, token: Id, now: int) {
    CleanAccept(db, token, now) ||
    (Acceptable(db, token, now) &&
      var inv := db.invitations[InviteByToken(db.invitations, token).value];
      var m := InviteeMembership(db, inv.tenant, inv.email);
      && m in db.memberships && inv.role in db.roles && LiveScope(db, m) == {}
      && KeysOf(db.permissions, db.roles[inv.role].permissions) <= LivePermissions(db, m))
  }

  /** The acceptance, if the step is one, is as harmless as the closeness asks. */
  ghost predicate Allowed(db: Db, op: InviteOp, mode: Closeness) {
    op.OpAccept? ==>
      (mode == Identical ==> CleanAccept(db, op.token, op.now)) && (mode == Same ==> HarmlessAccept(db, op.token, op.now))
  }

  lemma AddedRow(rows: map<Id, Assignment>, a: Id, row: Assignment, roles: map<Id, Role>, permissions: map<Id, Permission>)
    requires a !in rows && row.role in roles && row.scopeType == TenantScope
    ensures var (was, now) := (KeysOf(permissions, Granted(rows, roles)), KeysOf(permissions, Granted(rows[a := row], roles)));
            && now == was + KeysOf(permissions, roles[row.role].permissions)
            && ScopeOf(rows[a := row]) == {}
  {
    var rows' := rows[a := row];
    assert rows'[a] == row;
    forall p | p in Granted(rows, roles) ensures p in Granted(rows', roles) {
      var b :| b in rows && rows[b].role in roles && p in roles[rows[b].role].permissions;
      assert b in rows' && rows'[b] == rows[b];
    }
    assert Granted(rows', roles) == Granted(rows, roles) + roles[row.role].permissions;
  }

  lemma AcceptSteady(db: Db, token: Id, now: int, mode: Closeness)
    requires Fresh(db) && Refer(db) && Allowed(db, OpAccept(token, now), mode)
    ensures Steady(db, Accept(db, token, now).0, mode)
  {
    if Acceptable(db, token, now) {
      var i := InviteByToken(db.invitations, token).value;
      forall m | m in db.memberships ensures SteadyMember(db, Join(db, i), m, mode) {
        hide SteadyMember, Fresh, Refer, Allowed, Join;
        JoinSteadyMember(db, token, now, i, m, mode);
      }
      assert Join(db, i).permissions == db.permissions;
    } else {
      SameTablesSteady(db, db, mode);
    }
    hide Fresh, Refer, SteadyMember, Allowed, Join;
  }

  lemma JoinSteadyMember(db: Db, token: Id, now: int, i: Id, m: Id, mode: Closeness)
    requires Fresh(db) && Refer(db) && Acceptable(db, token, now) && InviteByToken(db.invitations, token) == Some(i)
    requires Allowed(db, OpAccept(token, now), mode) && m in db.memberships
    ensures SteadyMember(db, Join(db, i), m, mode)
  {
    JoinKeepsMember(db, i, m);
    var mine := InviteeMembership(db, db.invitations[i].tenant, db.invitations[i].email);
    if m != mine || Holds(db.assignments, db.invitations[i].tenant, m, db.invitations[i].role) {
      JoinElsewhere(db, i, m);
    } else if db.memberships[m].status == Active {
      JoinGrows(db, token, now, i, m, mode);
    }
    hide Fresh, Refer, Acceptable, Allowed, Join, Grown, LiveRows, InviteeMembership, Holds;
  }

  lemma JoinKeepsMember(db: Db, i: Id, m: Id)
    requires Fresh(db) && i in db.invitations && m in db.memberships
    ensures var db' := Join(db, i);
            && db'.roles == db.roles && db'.permissions == db.permissions
            && Holder(db', m, db.memberships[m].tenant, db.memberships[m].user, db.memberships[m].version)
            && (db.memberships[m].status == Active ==> db'.memberships[m].status == Active)
  {
  }

  lemma JoinElsewhere(db: Db, i: Id, m: Id)
    requires Fresh(db) && i in db.invitations && m in db.memberships
    requires var inv := db.invitations[i];
             m != InviteeMembership(db, inv.tenant, inv.email) || Holds(db.assignments, inv.tenant, m, inv.role)
    ensures m in Join(db, i).memberships && LiveRows(Join(db, i), m) == LiveRows(db, m)
  {
    hide InviteeMembership;
    JoinKeepsMember(db, i, m);
  }

  lemma JoinGrows(db: Db, token: Id, now: int, i: Id, m: Id, mode: Closeness)
    requires Fresh(db) && Refer(db) && Acceptable(db, token, now) && InviteByToken(db.invitations, token) == Some(i)
    requires Allowed(db, OpAccept(token, now), mode) && m in db.memberships && db.memberships[m].status == Active
    requires m == InviteeMembership(db, db.invitations[i].tenant, db.invitations[i].email)
    requires !Holds(db.assignments, db.invitations[i].tenant, m, db.invitations[i].role)
    ensures m in Join(db, i).memberships && Grown(Join(db, i), LiveRows(db, m), LiveRows(Join(db, i), m), mode)
  {
    hide Fresh, Refer, Join, InviteByToken, Holds, Granted, KeysOf, ScopeOf, Allowed, LiveRows, Grown, InviteeMembership;
    InviteFound(db, token, now);
    JoinKeepsMember(db, i, m);
    JoinedRows(db, i, m);
    AllowedRole(db, token, now, i, m, mode);
    var inv := db.invitations[i];
    SamePermissions(db, Join(db, i), LiveRows(db, m));
    RowGrows(Join(db, i), LiveRows(db, m), db.next + 2, Assignment(inv.tenant, m, inv.role, TenantScope, None), mode);
  }

  lemma InviteFound(db: Db, token: Id, now: int)
    requires Acceptable(db, token, now)
    ensures InviteByToken(db.invitations, token).Some? && InviteByToken(db.invitations, token).value in db.invitations
  {
  }

  lemma AllowedRole(db: Db, token: Id, now: int, i: Id, m: Id, mode: Closeness)
    requires Refer(db) && Acceptable(db, token, now) && InviteByToken(db.invitations, token) == Some(i)
    requires Allowed(db, OpAccept(token, now), mode) && m in db.memberships && db.memberships[m].status == Active
    requires m == InviteeMembership(db, db.invitations[i].tenant, db.invitations[i].email)
    requires !Holds(db.assignments, db.invitations[i].tenant, m, db.invitations[i].role)
    ensures mode != Identical && db.invitations[i].role in db.roles
    ensures mode == Same ==>
              ScopeOf(LiveRows(db, m)) == {}
              && KeysOf(db.permissions, db.roles[db.invitations[i].role].permissions) <= PermissionsOf(db, LiveRows(db, m))
    ensures forall a | a in LiveRows(db, m) :: LiveRows(db, m)[a].role in db.roles
  {
    hide InviteByToken, InviteeMembership;
  }

  lemma RowGrows(db: Db, rows: map<Id, Assignment>, a: Id, row: Assignment, mode: Closeness)
    requires a !in rows && row.role in db.roles && row.scopeType == TenantScope && mode != Identical
    requires mode == Same ==>
               ScopeOf(rows) == {} && KeysOf(db.permissions, db.roles[row.role].permissions) <= PermissionsOf(db, rows)
    ensures Grown(db, rows, rows[a := row], mode)
  {
    AddedRow(rows, a, row, db.roles, db.permissions);
    assert rows[a := row][a] == row;
    hide Granted, KeysOf, ScopeOf;
  }

  lemma JoinedRows(db: Db, i: Id, m: Id)
    requires Fresh(db) && Refer(db) && i in db.invitations
    requires m in db.memberships && m == InviteeMembership(db, db.invitations[i].tenant, db.invitations[i].email)
    requires !Holds(db.assignments, db.invitations[i].tenant, m, db.invitations[i].role)
    ensures db.invitations[i].role in db.roles && db.next + 2 !in LiveRows(db, m)
    ensures m in Join(db, i).memberships
    ensures LiveRows(Join(db, i), m)
         == LiveRows(db, m)[db.next + 2 := Assignment(db.invitations[i].tenant, m, db.invitations[i].role, TenantScope, None)]
  {
    ActivatedMember(db, db.invitations[i].tenant, db.invitations[i].email);
  }

  // ---- The reads of `resolve`, and the signing at its end ---------------------------------

  /** A step that replaces or adds one flight and touches no table that coherence reads. */
  lemma OneFlight(db: Db, db': Db, f: Id, mode: Closeness)
    requires Refer(db) && Coherent(db, mode)
    requires db'.permissions == db.permissions && db'.roles == db.roles
    requires db'.memberships == db.memberships && db'.assignments == db.assignments
    requires db'.issued == db.issued
    requires f in db'.flights && db'.flights == db.flights[f := db'.flights[f]]
    requires FlightCoherent(db', db'.flights[f], mode)
    ensures Coherent(db', mode)
  {
    SameTablesSteady(db, db', mode);
    SteadyCoherent(db, db', mode);
  }

  lemma SameTablesCoherent(db: Db, db': Db, mode: Closeness)
    requires Refer(db) && Coherent(db, mode) && SameAccess(db, db')
    requires db'.flights == db.flights && db'.issued == db.issued
    ensures Coherent(db', mode)
  {
    SameTablesSteady(db, db', mode);
    SteadyCoherent(db, db', mode);
  }

  lemma CreateSessionCoherent(db: Db, f: Id, expiresAt: int, mode: Closeness)
    requires Refer(db) && Coherent(db, mode)
    ensures Coherent(CreateSession(db, f, expiresAt).0, mode)
  {
    var (db', r) := CreateSession(db, f, expiresAt);
    if r.Done? {
      assert FlightCoherent(db, db.flights[f], mode);
      OneFlight(db, db', f, mode);
    }
  }

  lemma ReadTenantCoherent(db: Db, f: Id, mode: Closeness)
    requires Refer(db) && Coherent(db, mode)
    ensures Coherent(ReadTenant(db, f).0, mode)
  {
    var (db', r) := ReadTenant(db, f);
    if r.Done? {
      assert FlightCoherent(db, db.flights[f], mode);
      hide Coherent, Refer;
      OneFlight(db, db', f, mode);
    }
  }

  /** The version is read together with the status: only an active membership is remembered. */
  lemma ReadMembershipCoherent(db: Db, f: Id, mode: Closeness)
    requires Refer(db) && Coherent(db, mode)
    ensures Coherent(ReadMembership(db, f).0, mode)
  {
    var (db', r) := ReadMembership(db, f);
    if r.Done? {
      assert FlightCoherent(db, db.flights[f], mode);
      hide Coherent, Refer;
      OneFlight(db, db', f, mode);
    }
  }

  lemma ReadAssignmentsCoherent(db: Db, f: Id, mode: Closeness)
    requires Refer(db) && Coherent(db, mode)
    ensures Coherent(ReadAssignments(db, f).0, mode)
  {
    var (db', r) := ReadAssignments(db, f);
    if r.Done? {
      assert FlightCoherent(db, db.flights[f], mode);
      hide Coherent, Refer;
      OneFlight(db, db', f, mode);
    }
  }

  lemma ReadRoleCoherent(db: Db, f: Id, role: Id, mode: Closeness)
    requires Refer(db) && Coherent(db, mode)
    ensures Coherent(ReadRole(db, f, role).0, mode)
  {
    var (db', r) := ReadRole(db, f, role);
    if r.Done? {
      assert FlightCoherent(db, db.flights[f], mode);
      RoleSeen(db, db', f, role, mode);
      hide Coherent, Refer, FlightCoherent;
      OneFlight(db, db', f, mode);
    }
  }

  lemma RoleSeen(db: Db, db': Db, f: Id, role: Id, mode: Closeness)
    requires Refer(db) && Flying(db, f) && Wants(db.flights[f], role) && role !in db.flights[f].roles
    requires FlightCoherent(db, db.flights[f], mode)
    requires db' == SetFlight(db, f, SeeRole(db, db.flights[f], role))
    ensures FlightCoherent(db', db'.flights[f], mode)
  {
    hide Refer;
    var was, now := db.flights[f], db'.flights[f];
    assert forall r | r in now.roles :: r == role || (r in was.roles && now.roles[r] == was.roles[r]);
    assert FlightShape(now);
  }

  /** Signing turns a coherent flight into coherent claims. */
  lemma SignedCoherent(db: Db, slug: string, flight: Flight, mode: Closeness)
    requires Refer(db) && FlightCoherent(db, flight, mode)
    requires Resolved(flight) && flight.session.Some?
    ensures ClaimsCoherent(db, ClaimsOf(db.permissions, slug, flight), mode)
  {
    var m := flight.member.value.id;
    if Current(db, m, flight.member.value.version) {
      var rows, live := flight.rows.value, LiveRows(db, m);
      assert Granted(rows, flight.roles) == Granted(rows, db.roles);
      assert RoleKeys(rows, flight.roles) == RoleKeys(rows, db.roles);
      GrownScope(db, rows, live, mode);
      GrownPermissions(db, db, rows, live, mode);
    }
  }

  lemma FinishCoherent(db: Db, f: Id, slug: string, expiresAt: int, mode: Closeness)
    requires Refer(db) && Coherent(db, mode)
    ensures Coherent(Finish(db, f, slug, expiresAt).0, mode)
  {
    var (db', r) := Finish(db, f, slug, expiresAt);
    if r.Done? {
      assert FlightCoherent(db, db.flights[f], mode);
      SignedCoherent(db, slug, db.flights[f], mode);
      SameTablesSteady(db, db', mode);
      var c := ClaimsOf(db.permissions, slug, db.flights[f]);
      SteadyClaims(db, db', c, mode);
      SteadyCoherent(db, db', mode);
    }
  }

  lemma RefreshCoherent(db: Db, t: Id, now: int, expiresAt: int, mode: Closeness)
    requires Fresh(db) && Refer(db) && Coherent(db, mode)
    ensures Coherent(Refresh(db, t, now, expiresAt).0, mode)
  {
    hide Coherent, Refer, Refresh;
    var (db', r) := Refresh(db, t, now, expiresAt);
    RefreshFrame(db, t, now, expiresAt);
    RefreshCases(db, t, now, expiresAt);
    if r.Done? {
      OneFlight(db, db', db.next + 1, mode);
    } else {
      SameTablesCoherent(db, db', mode);
    }
  }

  /** An acceptance among the steps is as harmless as the closeness asks. */
  ghost predicate AllowedStep(db: Db, op: Op, mode: Closeness) {
    op.Inviting? ==> Allowed(db, op.inviting, mode)
  }

  lemma ResolvingCoherent(db: Db, op: ReadOp, mode: Closeness)
    requires Refer(db) && Coherent(db, mode)
    ensures Coherent(DoResolving(db, op).0, mode)
  {
    match op
    case OpStartIssue(u, t) => OneFlight(db, StartIssue(db, u, t).0, db.next, mode);
    case OpReadTenant(f) => ReadTenantCoherent(db, f, mode);
    case OpReadMembership(f) => ReadMembershipCoherent(db, f, mode);
    case OpReadAssignments(f) => ReadAssignmentsCoherent(db, f, mode);
    case OpReadRole(f, r) => ReadRoleCoherent(db, f, r, mode);
  }

  lemma AuthCoherent(db: Db, op: SessionOp, mode: Closeness)
    requires Fresh(db) && Refer(db) && Coherent(db, mode)
    ensures Coherent(DoAuth(db, op).0, mode)
  {
    match op
    case OpCreateSession(f, expiresAt) => CreateSessionCoherent(db, f, expiresAt, mode);
    case OpFinish(f, slug, expiresAt) => FinishCoherent(db, f, slug, expiresAt, mode);
    case OpRefresh(t, now, expiresAt) => RefreshCoherent(db, t, now, expiresAt, mode);
    case OpLogout(s) => SameTablesCoherent(db, Logout(db, s).0, mode);
    case OpRevokeSession(u, s) => SameTablesCoherent(db, RevokeSession(db, u, s).0, mode);
  }

  lemma IamSteady(db: Db, op: IamOp, mode: Closeness)
    requires Fresh(db) && Refer(db)
    ensures Steady(db, DoIam(db, op).0, mode)
  {
    match op
    case OpCreateRole(t, key, keys) => CreateRoleSteady(db, t, key, keys, mode);
    case OpDeleteRole(t, r) => DeleteRoleSteady(db, t, r, mode);
    case OpSetRolePermissions(t, r, ids, keys) => SetRolePermissionsSteady(db, t, r, ids, keys, mode);
    case OpCreateAssignment(t, m, r, scopeType, scopeId) => CreateAssignmentSteady(db, t, m, r, scopeType, scopeId, mode);
    case OpDeleteAssignment(t, a) => DeleteAssignmentSteady(db, t, a, mode);
  }

  lemma TeamSteady(db: Db, op: TeamOp, mode: Closeness)
    requires Fresh(db) && Refer(db)
    ensures Steady(db, DoTeam(db, op).0, mode)
  {
    match op
    case OpUpdateStatus(t, m, status) => UpdateStatusSteady(db, t, m, status, mode);
    case OpUpdateRoles(t, m, roleIds) => UpdateRolesSteady(db, t, m, roleIds, mode);
  }

  lemma InvitingSteady(db: Db, op: InviteOp, mode: Closeness)
    requires Fresh(db) && Refer(db) && Allowed(db, op, mode)
    ensures Steady(db, DoInviting(db, op).0, mode)
  {
    match op
    case OpInvite(t, email, roleId, roleKey, now) =>
      InviteFrame(db, t, email, roleId, roleKey, now);
      SameTablesSteady(db, Invite(db, t, email, roleId, roleKey, now).0, mode);
    case OpResend(t, i, now) => SameTablesSteady(db, Resend(db, t, i, now).0, mode);
    case OpWithdrawInvite(t, i) => SameTablesSteady(db, WithdrawInvite(db, t, i).0, mode);
    case OpAccept(token, now) => AcceptSteady(db, token, now, mode);
  }

  lemma StepSteady(db: Db, op: Op, mode: Closeness)
    requires Sound(db) && AllowedStep(db, op, mode)
    ensures Steady(db, Do(db, op).0, mode)
  {
    match op
    case Signup(email, slug) => SignUpSteady(db, email, slug, mode);
    case Iam(iam) => IamSteady(db, iam, mode);
    case Team(team) => TeamSteady(db, team, mode);
    case Inviting(inviting) => InvitingSteady(db, inviting, mode);
    case Auth(auth) =>
      AuthFrame(db, auth);
      SameTablesSteady(db, DoAuth(db, auth).0, mode);
    case Resolving(resolving) =>
      ResolvingFrame(db, resolving);
      SameTablesSteady(db, DoResolving(db, resolving).0, mode);
  }

  lemma StepCoherent(db: Db, op: Op, mode: Closeness)
    requires Sound(db) && Coherent(db, mode) && AllowedStep(db, op, mode)
    ensures Coherent(Do(db, op).0, mode)
  {
    match op
    case Auth(auth) => AuthCoherent(db, auth, mode);
    case Resolving(resolving) => ResolvingCoherent(db, resolving, mode);
    case _ =>
      StepSteady(db, op, mode);
      WriterFrame(db, op);
      SteadyCoherent(db, Do(db, op).0, mode);
  }
}
