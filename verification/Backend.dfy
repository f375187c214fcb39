/** The handlers as the services run them: queries and updates, table by table, in the services'
    order. Each is proved to do to the whole database what its function in Handlers says. */
module Backend {
  import opened Tables
  import opened Provisioning
  import opened Handlers
  import opened Integrity

  lemma {:induction false} FreshRowsStep(tenant: Id, m: Id, roleIds: seq<Id>, i: nat, first: Id)
    requires i < |roleIds|
    ensures FreshRows(tenant, m, roleIds[..i + 1], first)
         == FreshRows(tenant, m, roleIds[..i], first)[first + i := Assignment(tenant, m, roleIds[i], TenantScope, None)]
  {
    assert roleIds[..i + 1][..i] == roleIds[..i];
  }

  class Database {
    var users: map<Id, User>
    var tenants: map<Id, Tenant>
    var permissions: map<Id, Permission>
    var roles: map<Id, Role>
    var memberships: map<Id, Membership>
    var assignments: map<Id, Assignment>
    var invitations: map<Id, Invitation>
    var sessions: map<Id, Session>
    var refreshTokens: map<Id, RefreshToken>
    var flights: map<Id, Flight>
    var issued: set<Claims>
    var next: Id

    function Snapshot(): Db
      reads this
    {
      Db(users, tenants, permissions, roles, memberships, assignments, invitations, sessions, refreshTokens, flights, issued, next)
    }

    constructor (catalogue: map<Id, Permission>, next: Id)
      ensures Snapshot() == Seeded(catalogue, next)
    {
      users, tenants, permissions, roles, memberships := map[], map[], catalogue, map[], map[];
      assignments, invitations, sessions, refreshTokens := map[], map[], map[], map[];
      flights, issued, this.next := map[], {}, next;
    }

    /** A fresh uuid or random token. */
    method NewId() returns (id: Id)
      modifies this`next
      ensures id == old(next) && next == id + 1
    {
      id, next := next, next + 1;
    }

    method BumpVersion(m: Id)
      requires m in memberships
      modifies this`memberships
      ensures memberships == Bump(old(memberships), m)
    {
      memberships := memberships[m := memberships[m].(version := memberships[m].version + 1)];
    }

    // ---- iam.service.ts and set_role_permissions ------------------------------------------

    method CreateRole(tenant: Id, key: string, keys: set<string>) returns (r: Outcome)
      modifies this
      ensures (Snapshot(), r) == Handlers.CreateRole(old(Snapshot()), tenant, key, keys)
    {
      if existing :| existing in roles && HasKey(roles, existing, tenant, key) {
        return Fail(RoleExists);
      }
      if tenant !in tenants {
        return Fail(TenantNotFound);
      }
      var id := NewId();
      roles := roles[id := Role(tenant, key, false, {})];
      if keys != {} {
        var ids := PermissionIds(permissions, tenant, {}, keys);
        roles := roles[id := roles[id].(permissions := ids)];
      }
      assert roles == old(roles)[id := roles[id]];
      r := Done(id);
    }

    method DeleteRole(tenant: Id, role: Id) returns (r: Outcome)
      modifies this
      ensures (Snapshot(), r) == Handlers.DeleteRole(old(Snapshot()), tenant, role)
    {
      if role !in roles || roles[role].tenant != tenant {
        return Fail(RoleNotFound);
      }
      if roles[role].isSystem {
        return Fail(SystemRole);
      }
      var held := set a | a in assignments && assignments[a].role == role && assignments[a].tenant == tenant;
      assert Assigned(Snapshot(), tenant, role) ==> held != {} by {
        if Assigned(Snapshot(), tenant, role) {
          var a :| a in assignments && assignments[a].role == role && assignments[a].tenant == tenant;
          assert a in held;
        }
      }
      if |held| > 0 {
        return Fail(RoleInUse);
      }
      if exists i :: i in invitations && invitations[i].role == role {
        return Fail(RoleReferenced);
      }
      roles := roles - {role};
      r := Done(role);
    }

    /** The stored procedure: delete the links, insert the new ones, then move both version counters. */
    method SetRolePermissions(tenant: Id, role: Id, ids: set<Id>, keys: set<string>) returns (r: Outcome)
      modifies this
      ensures (Snapshot(), r) == Handlers.SetRolePermissions(old(Snapshot()), tenant, role, ids, keys)
    {
      if role !in roles || roles[role].tenant != tenant {
        return Fail(RoleNotFound);
      }
      if tenant !in tenants {
        return Fail(TenantNotFound);
      }
      var resolved := PermissionIds(permissions, tenant, ids, keys);
      roles := roles[role := roles[role].(permissions := {})];
      if resolved != {} {
        roles := roles[role := roles[role].(permissions := resolved)];
      }
      assert roles == old(roles)[role := roles[role]];
      tenants := tenants[tenant := tenants[tenant].(rbacVersion := tenants[tenant].rbacVersion + 1)];
      memberships := BumpHolders(memberships, assignments, tenant, role);
      r := Done(role);
    }

    method CreateAssignment(tenant: Id, m: Id, role: Id, scopeType: ScopeType, scopeId: Option<Id>) returns (r: Outcome)
      modifies this
      ensures (Snapshot(), r) == Handlers.CreateAssignment(old(Snapshot()), tenant, m, role, scopeType, scopeId)
    {
      if m !in memberships || memberships[m].tenant != tenant {
        return Fail(MembershipNotFound);
      }
      if role !in roles || roles[role].tenant != tenant {
        return Fail(RoleNotFound);
      }
      var row := Assignment(tenant, m, role, scopeType, scopeId);
      if scopeId.Some? && row in assignments.Values {
        return Fail(AssignmentExists);
      }
      var id := NewId();
      assignments := assignments[id := row];
      BumpVersion(m);
      r := Done(id);
    }

    method DeleteAssignment(tenant: Id, a: Id) returns (r: Outcome)
      requires Refer(Snapshot())
      modifies this
      ensures (Snapshot(), r) == Handlers.DeleteAssignment(old(Snapshot()), tenant, a)
    {
      if a !in assignments || assignments[a].tenant != tenant {
        return Fail(AssignmentNotFound);
      }
      var m := assignments[a].membership;
      assignments := assignments - {a};
      BumpVersion(m);
      r := Done(a);
    }

    // ---- team.service.ts ------------------------------------------------------------------

    method UpdateStatus(tenant: Id, m: Id, status: MemberStatus) returns (r: Outcome)
      modifies this
      ensures (Snapshot(), r) == Handlers.UpdateStatus(old(Snapshot()), tenant, m, status)
    {
      if m !in memberships || memberships[m].tenant != tenant {
        return Fail(MembershipNotFound);
      }
      var user := memberships[m].user;
      if tenant in tenants && tenants[tenant].owner == user && status != Active {
        return Fail(CannotModifyOwner);
      }
      memberships := memberships[m := memberships[m].(status := status, version := memberships[m].version + 1)];
      if status != Active {
        sessions := CloseSessions(sessions, user, tenant);
      }
      r := Done(m);
    }

    method UpdateRoles(tenant: Id, m: Id, roleIds: seq<Id>) returns (r: Outcome)
      requires Below(assignments, next)
      modifies this
      ensures (Snapshot(), r) == Handlers.UpdateRoles(old(Snapshot()), tenant, m, roleIds)
    {
      if m !in memberships || memberships[m].tenant != tenant {
        return Fail(MembershipNotFound);
      }
      if |FoundRoles(Snapshot(), tenant, roleIds)| != |roleIds| {
        return Fail(RoleNotFound);
      }
      assignments := WithoutMember(assignments, tenant, m);
      InsertRows(tenant, m, roleIds);
      BumpVersion(m);
      r := Done(m);
    }

    /** `createMany`: one tenant-wide row for each role. */
    method InsertRows(tenant: Id, m: Id, roleIds: seq<Id>)
      modifies this`assignments, this`next
      ensures assignments == old(assignments) + FreshRows(tenant, m, roleIds, old(next))
      ensures next == old(next) + |roleIds|
    {
      var rows: map<Id, Assignment>, first := map[], next;
      for i := 0 to |roleIds|
        invariant rows == FreshRows(tenant, m, roleIds[..i], first)
        modifies {}
      {
        FreshRowsStep(tenant, m, roleIds, i, first);
        rows := rows[first + i := Assignment(tenant, m, roleIds[i], TenantScope, None)];
      }
      assert roleIds[..|roleIds|] == roleIds;
      assignments := assignments + rows;
      next := first + |roleIds|;
    }

    // ---- invitations.service.ts ---------------------------------------------------------------

    method FindInvitedRole(tenant: Id, roleId: Option<Id>, roleKey: Option<string>) returns (role: Option<Id>)
      requires KeysUnique(roles)
      ensures role == InvitedRole(Snapshot(), tenant, roleId, roleKey)
    {
      role := None;
      if roleId.Some? {
        if roleId.value in roles && roles[roleId.value].tenant == tenant {
          role := roleId;
        }
      } else {
        var key := if roleKey.Some? then roleKey.value else LIGHT_USER;
        if x :| x in roles && HasKey(roles, x, tenant, key) {
          role := Some(x);
        }
      }
    }

    method IsActiveMember(tenant: Id, email: string) returns (yes: bool)
      requires EmailsUnique(users) && MembersUnique(memberships)
      ensures yes == AlreadyActive(Snapshot(), tenant, email)
    {
      yes := false;
      if u :| u in users && HasEmail(users, u, email) {
        if m :| m in memberships && IsMember(memberships, m, tenant, u) {
          yes := memberships[m].status == Active;
        }
      }
    }

    method Invite(tenant: Id, email: string, roleId: Option<Id>, roleKey: Option<string>, now: int) returns (r: Outcome)
      requires KeysUnique(roles) && EmailsUnique(users) && MembersUnique(memberships)
      modifies this
      ensures (Snapshot(), r) == Handlers.Invite(old(Snapshot()), tenant, email, roleId, roleKey, now)
    {
      var role := FindInvitedRole(tenant, roleId, roleKey);
      if role.None? {
        return Fail(RoleNotFound);
      }
      var member := IsActiveMember(tenant, email);
      if member {
        return Fail(AlreadyMember);
      }
      invitations := WithdrawPending(invitations, tenant, email);
      var id := NewId();
      var token := NewId();
      invitations := invitations[id := Invitation(tenant, email, role.value, Pending, token, now + INVITE_TTL_MS)];
      r := Done(id);
    }

    method Resend(tenant: Id, i: Id, now: int) returns (r: Outcome)
      modifies this
      ensures (Snapshot(), r) == Handlers.Resend(old(Snapshot()), tenant, i, now)
    {
      if i !in invitations || invitations[i].tenant != tenant || invitations[i].status != Pending {
        return Fail(InvitationInvalid);
      }
      var token := NewId();
      invitations := invitations[i := invitations[i].(token := token, expiresAt := now + INVITE_TTL_MS)];
      r := Done(i);
    }

    method WithdrawInvite(tenant: Id, i: Id) returns (r: Outcome)
      modifies this
      ensures (Snapshot(), r) == Handlers.WithdrawInvite(old(Snapshot()), tenant, i)
    {
      if i !in invitations || invitations[i].tenant != tenant || invitations[i].status != Pending {
        return Fail(InvitationInvalid);
      }
      invitations := invitations[i := invitations[i].(status := Withdrawn)];
      r := Done(i);
    }

    /** Finds the user with the address, or creates it under the given id. */
    method UserFor(email: string, id: Id) returns (user: Id)
      requires EmailsUnique(users) && id !in users
      modifies this`users
      ensures user == (match UserByEmail(old(users), email) case Some(u) => u case None => id)
      ensures users == old(users)[user := User(email)]
    {
      if u :| u in users && HasEmail(users, u, email) {
        user := u;
        assert users == users[u := User(email)];
      } else {
        user := id;
        users := users[user := User(email)];
      }
    }

    /** The upsert by tenant and user; an existing row keeps its version. */
    method UpsertMembership(tenant: Id, user: Id, id: Id) returns (m: Id)
      requires MembersUnique(memberships) && id !in memberships
      modifies this`memberships
      ensures m == (match MembershipOf(old(memberships), tenant, user) case Some(x) => x case None => id)
      ensures memberships == if m in old(memberships) then old(memberships)[m := old(memberships)[m].(status := Active)]
                             else old(memberships)[m := Membership(tenant, user, Active, 1)]
    {
      if x :| x in memberships && IsMember(memberships, x, tenant, user) {
        m := x;
        memberships := memberships[m := memberships[m].(status := Active)];
      } else {
        m := id;
        memberships := memberships[m := Membership(tenant, user, Active, 1)];
      }
    }

    /** A tenant-wide row for the role, unless the member has one for it. */
    method GrantRole(tenant: Id, m: Id, role: Id, a: Id)
      modifies this`assignments
      ensures assignments == if Holds(old(assignments), tenant, m, role) then old(assignments)
                             else old(assignments)[a := Assignment(tenant, m, role, TenantScope, None)]
    {
      if !Holds(assignments, tenant, m, role) {
        assignments := assignments[a := Assignment(tenant, m, role, TenantScope, None)];
      }
    }

    method UpsertInvitee(tenant: Id, email: string) returns (m: Id)
      requires EmailsUnique(users) && MembersUnique(memberships)
      requires Below(users, next) && Below(memberships, next)
      modifies this`users, this`memberships
      ensures m == InviteeMembership(old(Snapshot()), tenant, email)
      ensures users == old(users)[Invitee(old(Snapshot()), email) := User(email)]
      ensures memberships == Activated(old(Snapshot()), tenant, email)
    {
      var user := UserFor(email, next);
      m := UpsertMembership(tenant, user, next + 1);
    }

    method JoinTenant(i: Id) returns (m: Id)
      requires i in invitations && EmailsUnique(users) && MembersUnique(memberships)
      requires Below(users, next) && Below(memberships, next)
      modifies this
      ensures Snapshot() == Join(old(Snapshot()), i)
      ensures m == InviteeMembership(old(Snapshot()), old(invitations)[i].tenant, old(invitations)[i].email)
    {
      var inv := invitations[i];
      m := UpsertInvitee(inv.tenant, inv.email);
      GrantRole(inv.tenant, m, inv.role, next + 2);
      invitations := invitations[i := inv.(status := Accepted)];
      next := next + 3;
    }

    method Accept(token: Id, now: int) returns (r: Outcome)
      requires TokensUnique(invitations) && EmailsUnique(users) && MembersUnique(memberships)
      requires Below(users, next) && Below(memberships, next)
      modifies this
      ensures (Snapshot(), r) == Handlers.Accept(old(Snapshot()), token, now)
    {
      var i := 0;
      if x :| x in invitations && HasToken(invitations, x, token) {
        i := x;
      } else {
        return Fail(InvitationInvalid);
      }
      if invitations[i].status != Pending || invitations[i].expiresAt < now {
        return Fail(InvitationInvalid);
      }
      var m := JoinTenant(i);
      r := Done(m);
    }

    // ---- auth.service.ts ------------------------------------------------------------------------

    /** The session row that `issueSession` writes beside the running `resolve`. */
    method CreateSession(f: Id, expiresAt: int) returns (r: Outcome)
      modifies this
      ensures (Snapshot(), r) == Handlers.CreateSession(old(Snapshot()), f, expiresAt)
    {
      if f !in flights || flights[f].session.Some? {
        return Fail(NotReady);
      }
      var s := NewId();
      sessions := sessions[s := Session(flights[f].user, Some(flights[f].tenant), Open, expiresAt)];
      flights := flights[f := flights[f].(session := Some(s))];
      r := Done(s);
    }

    method MintRefreshToken(id: Id, session: Id, family: Id, expiresAt: int)
      modifies this`refreshTokens
      ensures refreshTokens == old(refreshTokens)[id := RefreshToken(session, family, None, false, expiresAt)]
    {
      refreshTokens := refreshTokens[id := RefreshToken(session, family, None, false, expiresAt)];
    }

    /** The end of `issueSession` or `refresh`: mint on login, then sign. */
    method Finish(f: Id, slug: string, expiresAt: int) returns (r: Outcome)
      modifies this
      ensures (Snapshot(), r) == Handlers.Finish(old(Snapshot()), f, slug, expiresAt)
    {
      if f !in flights || flights[f].failed || flights[f].session.None? || !Resolved(flights[f]) {
        return Fail(NotReady);
      }
      var flight := flights[f];
      var id := NewId();
      var family := NewId();
      if flight.mints {
        MintRefreshToken(id, flight.session.value, family, expiresAt);
      }
      issued := issued + {ClaimsOf(permissions, slug, flight)};
      flights := flights - {f};
      r := Done(id);
    }

    method Refresh(t: Id, now: int, expiresAt: int) returns (r: Outcome)
      modifies this
      ensures (Snapshot(), r) == Handlers.Refresh(old(Snapshot()), t, now, expiresAt)
    {
      if t !in refreshTokens {
        return Fail(InvalidRefresh);
      }
      var token := refreshTokens[t];
      if token.revoked || token.replacedBy.Some? {
        refreshTokens := RevokeFamily(refreshTokens, token.family);
        sessions := CloseSession(sessions, token.session);
        return Fail(RefreshReuse);
      }
      if token.expiresAt < now {
        return Fail(RefreshExpired);
      }
      if token.session !in sessions || sessions[token.session].status != Open || sessions[token.session].expiresAt < now {
        return Fail(SessionInvalid);
      }
      var session := sessions[token.session];
      if session.tenant.None? {
        return Fail(NoTenant);
      }
      if session.tenant.value !in tenants {
        return Fail(TenantNotFound);
      }
      var id := NewId();
      MintRefreshToken(id, token.session, token.family, expiresAt);
      refreshTokens := refreshTokens[t := token.(revoked := true, replacedBy := Some(id))];
      var f := NewId();
      flights := flights[f := Flight(session.user, session.tenant.value, Some(token.session), false, false, None, None, None, map[])];
      r := Done(id);
    }

    method Logout(s: Id) returns (r: Outcome)
      modifies this
      ensures (Snapshot(), r) == Handlers.Logout(old(Snapshot()), s)
    {
      if s in sessions {
        sessions := sessions[s := sessions[s].(status := Revoked)];
      }
      refreshTokens := RevokeSessionTokens(refreshTokens, s);
      r := Done(s);
    }

    method RevokeSession(user: Id, s: Id) returns (r: Outcome)
      modifies this
      ensures (Snapshot(), r) == Handlers.RevokeSession(old(Snapshot()), user, s)
    {
      if s in sessions && sessions[s].user == user {
        sessions := sessions[s := sessions[s].(status := Revoked)];
      }
      refreshTokens := RevokeSessionTokens(refreshTokens, s);
      r := Done(s);
    }

    method ProvisionRoles(tenant: Id, first: Id) returns (provisioned: map<Id, Role>, ownerRole: Id)
      requires KeysUnique(roles) && Below(roles, first)
      ensures provisioned == Provision(roles, permissions, tenant, SYSTEM_ROLES, first)
      ensures RoleByKey(provisioned, tenant, OWNER) == Some(ownerRole)
    {
      ProvisionFrame(roles, permissions, tenant, SYSTEM_ROLES, first);
      var roleIds;
      provisioned, roleIds := ProvisionTenantRbac(roles, permissions, tenant, SYSTEM_ROLES, first);
      assert SYSTEM_ROLES[0] in SYSTEM_ROLES;
      ownerRole := roleIds[OWNER];
    }

    /** Signup's transaction. */
    method SignUp(email: string, slug: string) returns (r: Outcome)
      requires KeysUnique(roles) && Below(roles, next)
      modifies this
      ensures (Snapshot(), r) == Handlers.SignUp(old(Snapshot()), email, slug)
    {
      if u :| u in users && HasEmail(users, u, email) {
        return Fail(EmailTaken);
      }
      if t :| t in tenants && HasSlug(tenants, t, slug) {
        return Fail(SlugTaken);
      }
      var provisioned, ownerRole := ProvisionRoles(next + 1, next + 4);
      hide Provision, RoleByKey, NewTenant;
      r := Done(next + 2);
      CreateTenant(email, slug, provisioned, ownerRole, next + 4 + |SYSTEM_ROLES|);
    }

    method CreateTenant(email: string, slug: string, provisioned: map<Id, Role>, ownerRole: Id, end: Id)
      modifies this
      ensures Snapshot() == NewTenant(old(Snapshot()), email, slug, provisioned, ownerRole, end)
    {
      var user, tenant, m := next, next + 1, next + 2;
      users := users[user := User(email)];
      tenants := tenants[tenant := Tenant(slug, Running, user, 1)];
      roles := provisioned;
      AddOwner(tenant, user, m, ownerRole, next + 3);
      next := end;
    }

    method AddOwner(tenant: Id, user: Id, m: Id, ownerRole: Id, a: Id)
      modifies this`memberships, this`assignments
      ensures memberships == old(memberships)[m := Membership(tenant, user, Active, 1)]
      ensures assignments == old(assignments)[a := Assignment(tenant, m, ownerRole, TenantScope, None)]
    {
      memberships := memberships[m := Membership(tenant, user, Active, 1)];
      assignments := assignments[a := Assignment(tenant, m, ownerRole, TenantScope, None)];
    }

    // ---- auth.guard.ts -----------------------------------------------------------------------------

    /** The guard, in the order of its checks. */
    method CanActivate(c: Claims, now: int, slugHeader: Option<string>, roleHeader: Option<string>) returns (v: Verdict)
      ensures v == Guard(Snapshot(), c, now, slugHeader, roleHeader)
    {
      if c.session !in sessions || sessions[c.session].status != Open || sessions[c.session].expiresAt < now {
        return SessionClosed;
      }
      if c.tenant !in tenants || (tenants[c.tenant].status != Running && tenants[c.tenant].status != Trialing) {
        return TenantInactive;
      }
      if c.membership !in memberships || memberships[c.membership].status != Active {
        return MembershipInactive;
      }
      if tenants[c.tenant].rbacVersion != c.rbacVersion || memberships[c.membership].version != c.memberVersion {
        return TokenStale;
      }
      if slugHeader.Some? && slugHeader.value != "" && slugHeader.value != c.slug {
        return TenantMismatch;
      }
      if roleHeader.Some? && roleHeader.value != "" && roleHeader.value !in c.roles {
        return RoleMismatch;
      }
      v := Admitted;
    }

    // ---- One handler at a time ---------------------------------------------------------------------

    /** The database in a sound state, from which every handler leads to a sound state again. */
    ghost predicate Valid()
      reads this
    {
      Sound(Snapshot())
    }

    /** Any one handler; the reads of `resolve` change no table and are left to their functions. */
    method Handle(op: Op) returns (r: Outcome)
      requires Valid() && !op.Resolving?
      modifies this
      ensures Valid()
      ensures (Snapshot(), r) == Do(old(Snapshot()), op)
    {
      StepSound(Snapshot(), op);
      match op
      case Signup(email, slug) => r := SignUp(email, slug);
      case Iam(iam) => r := HandleIam(iam);
      case Team(team) => r := HandleTeam(team);
      case Inviting(inviting) => r := HandleInviting(inviting);
      case Auth(auth) => r := HandleAuth(auth);
    }

    method HandleIam(op: IamOp) returns (r: Outcome)
      requires Refer(Snapshot())
      modifies this
      ensures (Snapshot(), r) == DoIam(old(Snapshot()), op)
    {
      hide Handlers.CreateRole, Handlers.DeleteRole, Handlers.SetRolePermissions, Handlers.CreateAssignment, Handlers.DeleteAssignment;
      match op
      case OpCreateRole(t, key, keys) => r := CreateRole(t, key, keys);
      case OpDeleteRole(t, role) => r := DeleteRole(t, role);
      case OpSetRolePermissions(t, role, ids, keys) => r := SetRolePermissions(t, role, ids, keys);
      case OpCreateAssignment(t, m, role, scopeType, scopeId) => r := CreateAssignment(t, m, role, scopeType, scopeId);
      case OpDeleteAssignment(t, a) => r := DeleteAssignment(t, a);
    }

    method HandleTeam(op: TeamOp) returns (r: Outcome)
      requires Below(assignments, next)
      modifies this
      ensures (Snapshot(), r) == DoTeam(old(Snapshot()), op)
    {
      match op
      case OpUpdateStatus(t, m, status) => r := UpdateStatus(t, m, status);
      case OpUpdateRoles(t, m, roleIds) => r := UpdateRoles(t, m, roleIds);
    }

    method HandleInviting(op: InviteOp) returns (r: Outcome)
      requires KeysUnique(roles) && EmailsUnique(users) && MembersUnique(memberships) && TokensUnique(invitations)
      requires Below(users, next) && Below(memberships, next)
      modifies this
      ensures (Snapshot(), r) == DoInviting(old(Snapshot()), op)
    {
      match op
      case OpInvite(t, email, roleId, roleKey, now) => r := Invite(t, email, roleId, roleKey, now);
      case OpResend(t, i, now) => r := Resend(t, i, now);
      case OpWithdrawInvite(t, i) => r := WithdrawInvite(t, i);
      case OpAccept(token, now) => r := Accept(token, now);
    }

    method HandleAuth(op: SessionOp) returns (r: Outcome)
      modifies this
      ensures (Snapshot(), r) == DoAuth(old(Snapshot()), op)
    {
      match op
      case OpCreateSession(f, expiresAt) => r := CreateSession(f, expiresAt);
      case OpFinish(f, slug, expiresAt) => r := Finish(f, slug, expiresAt);
      case OpRefresh(t, now, expiresAt) => r := Refresh(t, now, expiresAt);
      case OpLogout(s) => r := Logout(s);
      case OpRevokeSession(u, s) => r := RevokeSession(u, s);
    }
  }
}
