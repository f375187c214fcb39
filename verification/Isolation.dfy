/** What one tenant's administration can reach: nothing of another tenant, and no permission but the
    global ones and its own. */
module Isolation {
  import opened Tables
  import opened Provisioning
  import opened Handlers
  import opened Integrity
  import opened Coherence

  // ---- Other tenants' members keep what they have -----------------------------------------------------

  /** The membership row, the assignment rows behind it, and the roles they name are as they were. */
  ghost predicate SameMember(db: Db, db': Db, m: Id)
    requires m in db.memberships
  {
    && m in db'.memberships && db'.memberships[m] == db.memberships[m]
    && LiveRows(db', m) == LiveRows(db, m)
    && RolesKept(LiveRows(db, m), db.roles, db'.roles)
    && db'.permissions == db.permissions
  }

  lemma SameAccessRights(db: Db, db': Db, m: Id)
    requires Refer(db) && m in db.memberships && SameMember(db, db', m)
    ensures LivePermissions(db', m) == LivePermissions(db, m) && LiveScope(db', m) == LiveScope(db, m)
  {
    var rows := LiveRows(db, m);
    GrownPermissions(db, db', rows, rows, Identical);
  }

  lemma UnassignedElsewhere(db: Db, db': Db, role: Id, m: Id)
    requires Refer(db) && role in db.roles && m in db.memberships
    requires db.memberships[m].tenant != db.roles[role].tenant
    requires db'.permissions == db.permissions && db'.assignments == db.assignments && m in db'.memberships
    requires db'.memberships[m] == db.memberships[m]
    requires forall r | r in db.roles && r != role :: r in db'.roles && db'.roles[r] == db.roles[r]
    ensures SameMember(db, db', m)
  {
  }

  lemma SetRolePermissionsElsewhere(db: Db, tenant: Id, role: Id, ids: set<Id>, keys: set<string>, m: Id)
    requires Refer(db) && m in db.memberships && db.memberships[m].tenant != tenant
    ensures SameMember(db, SetRolePermissions(db, tenant, role, ids, keys).0, m)
  {
    var (db', r) := SetRolePermissions(db, tenant, role, ids, keys);
    if r.Done? {
      assert db'.memberships == BumpHolders(db.memberships, db.assignments, tenant, role);
      hide Refer, SameMember, BumpHolders, PermissionIds;
      assert db'.memberships[m] == db.memberships[m] by {
        Unbumped(db, tenant, role, m);
      }
      UnassignedElsewhere(db, db', role, m);
    }
  }

  lemma Unbumped(db: Db, tenant: Id, role: Id, m: Id)
    requires m in db.memberships && db.memberships[m].tenant != tenant
    ensures m in BumpHolders(db.memberships, db.assignments, tenant, role)
    ensures BumpHolders(db.memberships, db.assignments, tenant, role)[m] == db.memberships[m]
  {
  }

  lemma DeleteRoleElsewhere(db: Db, tenant: Id, role: Id, m: Id)
    requires Refer(db) && m in db.memberships && db.memberships[m].tenant != tenant
    ensures SameMember(db, DeleteRole(db, tenant, role).0, m)
  {
    var (db', r) := DeleteRole(db, tenant, role);
    if r.Done? {
      hide Refer, SameMember;
      UnassignedElsewhere(db, db', role, m);
    }
  }

  /** A write to one membership and to rows of that membership alone. */
  lemma OneMemberElsewhere(db: Db, db': Db, n: Id, m: Id)
    requires m in db.memberships && m != n && db'.permissions == db.permissions && db'.roles == db.roles
    requires m in db'.memberships && db'.memberships[m] == db.memberships[m]
    requires forall a | a in db.assignments && db.assignments[a].membership != n :: a in db'.assignments && db'.assignments[a] == db.assignments[a]
    requires forall a | a in db'.assignments && db'.assignments[a].membership != n :: a in db.assignments && db.assignments[a] == db'.assignments[a]
    ensures SameMember(db, db', m)
  {
    assert LiveRows(db', m) == LiveRows(db, m);
  }

  lemma CreateAssignmentElsewhere(db: Db, tenant: Id, n: Id, role: Id, scopeType: ScopeType, scopeId: Option<Id>, m: Id)
    requires Fresh(db) && m in db.memberships && db.memberships[m].tenant != tenant
    ensures SameMember(db, CreateAssignment(db, tenant, n, role, scopeType, scopeId).0, m)
  {
    var (db', r) := CreateAssignment(db, tenant, n, role, scopeType, scopeId);
    if r.Done? {
      hide SameMember;
      OneMemberElsewhere(db, db', n, m);
    }
  }

  lemma DeleteAssignmentElsewhere(db: Db, tenant: Id, a: Id, m: Id)
    requires Refer(db) && m in db.memberships && db.memberships[m].tenant != tenant
    ensures SameMember(db, DeleteAssignment(db, tenant, a).0, m)
  {
    var (db', r) := DeleteAssignment(db, tenant, a);
    if r.Done? {
      hide SameMember;
      OneMemberElsewhere(db, db', db.assignments[a].membership, m);
    }
  }

  lemma UpdateRolesElsewhere(db: Db, tenant: Id, n: Id, roleIds: seq<Id>, m: Id)
    requires Fresh(db) && Refer(db) && m in db.memberships && db.memberships[m].tenant != tenant
    ensures SameMember(db, UpdateRoles(db, tenant, n, roleIds).0, m)
  {
    var (db', r) := UpdateRoles(db, tenant, n, roleIds);
    if r.Done? {
      hide SameMember, WithoutMember, FreshRows, Refer;
      UpdatedRows(db.assignments, tenant, n, roleIds, db.next, db'.assignments);
      OneMemberElsewhere(db, db', n, m);
    }
  }

  lemma IamElsewhere(db: Db, op: IamOp, m: Id)
    requires Fresh(db) && Refer(db) && m in db.memberships && db.memberships[m].tenant != op.tenant
    ensures SameMember(db, DoIam(db, op).0, m)
  {
    hide Fresh, Refer, DeleteRole, SetRolePermissions, CreateAssignment, DeleteAssignment;
    match op
    case OpCreateRole(t, key, keys) => CreateRoleElsewhere(db, t, key, keys, m);
    case OpDeleteRole(t, r) => DeleteRoleElsewhere(db, t, r, m);
    case OpSetRolePermissions(t, r, ids, keys) => SetRolePermissionsElsewhere(db, t, r, ids, keys, m);
    case OpCreateAssignment(t, n, r, scopeType, scopeId) => CreateAssignmentElsewhere(db, t, n, r, scopeType, scopeId, m);
    case OpDeleteAssignment(t, a) => DeleteAssignmentElsewhere(db, t, a, m);
  }

  lemma CreateRoleElsewhere(db: Db, tenant: Id, key: string, keys: set<string>, m: Id)
    requires Fresh(db) && Refer(db) && m in db.memberships
    ensures SameMember(db, CreateRole(db, tenant, key, keys).0, m)
  {
    CreateRoleFrame(db, tenant, key, keys);
    hide RoleByKey, PermissionIds;
  }

  lemma UpdateStatusElsewhere(db: Db, tenant: Id, n: Id, status: MemberStatus, m: Id, s: Id)
    requires m in db.memberships && db.memberships[m].tenant != tenant
    ensures SameMember(db, UpdateStatus(db, tenant, n, status).0, m)
    ensures s in db.sessions && db.sessions[s].tenant != Some(tenant) ==>
              s in UpdateStatus(db, tenant, n, status).0.sessions
              && UpdateStatus(db, tenant, n, status).0.sessions[s] == db.sessions[s]
  {
    var (db', r) := UpdateStatus(db, tenant, n, status);
    if r.Done? {
      OneMemberElsewhere(db, db', n, m);
    }
  }

  /** A role or team operation of one tenant changes neither what a member of another tenant may do,
      nor where, nor whether that member's tokens are still admitted. */
  lemma OtherTenantsUntouched(db: Db, op: Op, m: Id, s: Id)
    requires Reachable(db) && m in db.memberships && (op.Iam? || op.Team?)
    requires db.memberships[m].tenant != if op.Iam? then op.iam.tenant else op.team.tenant
    ensures var db' := Do(db, op).0;
            && m in db'.memberships && db'.memberships[m] == db.memberships[m]
            && LivePermissions(db', m) == LivePermissions(db, m) && LiveScope(db', m) == LiveScope(db, m)
            && Row(db'.tenants, db.memberships[m].tenant) == Row(db.tenants, db.memberships[m].tenant)
            && (s in db.sessions && db.sessions[s].tenant == Some(db.memberships[m].tenant) ==>
                  s in db'.sessions && db'.sessions[s] == db.sessions[s])
  {
    hide Reachable;
    ReachableSound(db);
    TenantRowKept(db, op, db.memberships[m].tenant);
    if op.Iam? {
      IamElsewhere(db, op.iam, m);
      IamFrame(db, op.iam);
    } else {
      TeamElsewhere(db, op.team, m, s);
    }
    hide DoIam, DoTeam, Fresh, Unique, Owned;
    SameAccessRights(db, Do(db, op).0, m);
  }

  lemma TenantRowKept(db: Db, op: Op, t: Id)
    requires op.Iam? || op.Team?
    requires t != if op.Iam? then op.iam.tenant else op.team.tenant
    ensures Row(Do(db, op).0.tenants, t) == Row(db.tenants, t)
  {
    hide CreateRole, DeleteRole, CreateAssignment, DeleteAssignment, DoTeam, SetRolePermissions;
    match op
    case Iam(OpCreateRole(tenant, key, keys)) => CreateRoleFrame(db, tenant, key, keys);
    case Iam(OpDeleteRole(tenant, r)) => DeleteRoleFrame(db, tenant, r);
    case Iam(OpCreateAssignment(tenant, m, r, scopeType, scopeId)) => CreateAssignmentFrame(db, tenant, m, r, scopeType, scopeId);
    case Iam(OpDeleteAssignment(tenant, a)) => DeleteAssignmentFrame(db, tenant, a);
    case Iam(OpSetRolePermissions(tenant, r, ids, keys)) => OtherTenantRow(db, tenant, r, ids, keys, t);
    case Team(team) => TeamTenants(db, team);
  }

  lemma OtherTenantRow(db: Db, tenant: Id, role: Id, ids: set<Id>, keys: set<string>, t: Id)
    requires t != tenant
    ensures Row(SetRolePermissions(db, tenant, role, ids, keys).0.tenants, t) == Row(db.tenants, t)
  {
    hide PermissionIds, BumpHolders;
  }

  lemma TeamElsewhere(db: Db, op: TeamOp, m: Id, s: Id)
    requires Fresh(db) && Refer(db) && m in db.memberships && db.memberships[m].tenant != op.tenant
    ensures SameMember(db, DoTeam(db, op).0, m)
    ensures s in db.sessions && db.sessions[s].tenant != Some(op.tenant) ==>
              s in DoTeam(db, op).0.sessions && DoTeam(db, op).0.sessions[s] == db.sessions[s]
  {
    hide UpdateStatus, UpdateRoles, SameMember;
    match op
    case OpUpdateStatus(t, n, status) => UpdateStatusElsewhere(db, t, n, status, m, s);
    case OpUpdateRoles(t, n, roleIds) =>
      UpdateRolesFrame(db, t, n, roleIds);
      UpdateRolesElsewhere(db, t, n, roleIds, m);
  }

  // ---- No role holds another tenant's permission ---------------------------------------------------

  predicate MayHold(permissions: map<Id, Permission>, role: Role) {
    forall p | p in role.permissions :: p in permissions && permissions[p].tenant in {None, Some(role.tenant)}
  }

  ghost predicate OwnPermissions(db: Db) {
    forall r | r in db.roles :: MayHold(db.permissions, db.roles[r])
  }

  lemma {:induction false} ProvisionOwn(roles: map<Id, Role>, permissions: map<Id, Permission>, tenant: Id, defs: seq<RoleDef>, next: Id)
    requires forall r | r in roles :: MayHold(permissions, roles[r])
    ensures forall r | r in Provision(roles, permissions, tenant, defs, next) ::
              MayHold(permissions, Provision(roles, permissions, tenant, defs, next)[r])
    decreases |defs|
  {
    if defs != [] {
      ProvisionOwn(ProvisionRole(roles, permissions, tenant, defs[0], next), permissions, tenant, defs[1..], next + 1);
    }
  }

  lemma SignUpOwn(db: Db, email: string, slug: string)
    requires OwnPermissions(db)
    ensures OwnPermissions(SignUp(db, email, slug).0)
  {
    ProvisionOwn(db.roles, db.permissions, db.next + 1, SYSTEM_ROLES, db.next + 4);
    hide Provision, MayHold;
  }

  lemma IamOwn(db: Db, op: IamOp)
    requires OwnPermissions(db)
    ensures OwnPermissions(DoIam(db, op).0)
  {
    hide CreateAssignment, DeleteAssignment, DeleteRole;
    match op
    case OpCreateRole(t, key, keys) =>
    case OpDeleteRole(t, r) => DeleteRoleFrame(db, t, r); DeletedRoles(db, t, r);
    case OpSetRolePermissions(t, r, ids, keys) =>
    case OpCreateAssignment(t, m, r, scopeType, scopeId) => CreateAssignmentFrame(db, t, m, r, scopeType, scopeId);
    case OpDeleteAssignment(t, a) => DeleteAssignmentFrame(db, t, a);
  }

  lemma DeletedRoles(db: Db, tenant: Id, role: Id)
    ensures forall r | r in DeleteRole(db, tenant, role).0.roles :: r in db.roles && DeleteRole(db, tenant, role).0.roles[r] == db.roles[r]
  {
    hide Assigned, Offered;
    if DeleteRole(db, tenant, role).1.Done? {
      assert DeleteRole(db, tenant, role).0.roles == db.roles - {role};
    }
  }

  lemma StepOwn(db: Db, op: Op)
    requires OwnPermissions(db) && Fresh(db)
    ensures OwnPermissions(Do(db, op).0)
  {
    hide Fresh, OwnPermissions, SignUp, DoIam, DoTeam, DoInviting, DoAuth, DoResolving;
    match op
    case Signup(email, slug) => SignUpOwn(db, email, slug);
    case Iam(iam) => IamOwn(db, iam);
    case Team(team) => TeamRoles(db, team); SameOwn(db, DoTeam(db, team).0);
    case Inviting(inviting) => InvitingRoles(db, inviting); SameOwn(db, DoInviting(db, inviting).0);
    case Auth(auth) => AuthFrame(db, auth); SameOwn(db, DoAuth(db, auth).0);
    case Resolving(resolving) => ResolvingFrame(db, resolving); SameOwn(db, DoResolving(db, resolving).0);
  }

  lemma SameOwn(db: Db, db': Db)
    requires OwnPermissions(db) && db'.roles == db.roles && db'.permissions == db.permissions
    ensures OwnPermissions(db')
  {
  }

  lemma TeamRoles(db: Db, op: TeamOp)
    ensures DoTeam(db, op).0.roles == db.roles && DoTeam(db, op).0.permissions == db.permissions
  {
    hide UpdateStatus, UpdateRoles;
    match op
    case OpUpdateStatus(t, m, status) => UpdateStatusFrame(db, t, m, status);
    case OpUpdateRoles(t, m, roleIds) => UpdateRolesFrame(db, t, m, roleIds);
  }

  lemma InvitingRoles(db: Db, op: InviteOp)
    ensures DoInviting(db, op).0.roles == db.roles && DoInviting(db, op).0.permissions == db.permissions
  {
    if op.OpInvite? {
      InviteFrame(db, op.tenant, op.email, op.roleId, op.roleKey, op.now);
    }
  }

  lemma {:induction false} RunOwn(db: Db, ops: seq<Op>)
    requires Sound(db) && OwnPermissions(db)
    ensures OwnPermissions(Run(db, ops))
    decreases |ops|
  {
    if ops != [] {
      hide OwnPermissions, Do;
      StepOwn(db, ops[0]);
      StepSound(db, ops[0]);
      RunOwn(Do(db, ops[0]).0, ops[1..]);
    }
  }

  /** In every reachable state a role holds only permissions that are global or its own tenant's. */
  lemma NoForeignPermission(db: Db, role: Id, p: Id)
    requires Reachable(db) && role in db.roles && p in db.roles[role].permissions
    ensures p in db.permissions && (db.permissions[p].tenant == None || db.permissions[p].tenant == Some(db.roles[role].tenant))
  {
    var catalogue, next, ops :| db == Run(Seeded(catalogue, next), ops);
    SeededSound(catalogue, next);
    hide Sound, Run;
    assert OwnPermissions(Seeded(catalogue, next));
    RunOwn(Seeded(catalogue, next), ops);
    assert MayHold(db.permissions, db.roles[role]);
  }
}
