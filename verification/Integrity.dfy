/** What every handler keeps of the tables: fresh ids, foreign keys, unique columns and tenant owners. */
module Integrity {
  import opened Tables
  import opened Provisioning
  import opened Handlers

  ghost predicate Below<T>(table: map<Id, T>, next: Id) {
    forall x | x in table :: x < next
  }

  ghost predicate Fresh(db: Db) {
    && Below(db.users, db.next) && Below(db.tenants, db.next) && Below(db.roles, db.next)
    && Below(db.memberships, db.next) && Below(db.assignments, db.next) && Below(db.invitations, db.next)
    && Below(db.sessions, db.next) && Below(db.refreshTokens, db.next) && Below(db.flights, db.next)
    && (forall i | i in db.invitations :: db.invitations[i].token < db.next)
    && (forall t | t in db.refreshTokens :: db.refreshTokens[t].family < db.next)
  }

  ghost predicate MembersRefer(ms: map<Id, Membership>, tenants: map<Id, Tenant>, users: map<Id, User>) {
    forall m | m in ms :: ms[m].tenant in tenants && ms[m].user in users
  }

  ghost predicate AssignmentsRefer(rows: map<Id, Assignment>, ms: map<Id, Membership>, roles: map<Id, Role>) {
    forall a | a in rows ::
      && rows[a].membership in ms && ms[rows[a].membership].tenant == rows[a].tenant
      && rows[a].role in roles && roles[rows[a].role].tenant == rows[a].tenant
  }

  ghost predicate InvitesRefer(invites: map<Id, Invitation>, roles: map<Id, Role>) {
    forall i | i in invites :: invites[i].role in roles && roles[invites[i].role].tenant == invites[i].tenant
  }

  ghost predicate Refer(db: Db) {
    && (forall r | r in db.roles :: db.roles[r].tenant in db.tenants)
    && MembersRefer(db.memberships, db.tenants, db.users)
    && AssignmentsRefer(db.assignments, db.memberships, db.roles)
    && InvitesRefer(db.invitations, db.roles)
    && (forall t | t in db.refreshTokens :: db.refreshTokens[t].session in db.sessions)
    && (forall f | f in db.flights && db.flights[f].session.Some? :: db.flights[f].session.value in db.sessions)
  }

  ghost predicate MembersUnique(ms: map<Id, Membership>) {
    forall m, n, t, u | IsMember(ms, m, t, u) && IsMember(ms, n, t, u) :: m == n
  }

  ghost predicate EmailsUnique(users: map<Id, User>) {
    forall u, v, e | HasEmail(users, u, e) && HasEmail(users, v, e) :: u == v
  }

  ghost predicate SlugsUnique(tenants: map<Id, Tenant>) {
    forall t, u, s | HasSlug(tenants, t, s) && HasSlug(tenants, u, s) :: t == u
  }

  ghost predicate TokensUnique(invites: map<Id, Invitation>) {
    forall i, j, k | HasToken(invites, i, k) && HasToken(invites, j, k) :: i == j
  }

  ghost predicate Unique(db: Db) {
    && MembersUnique(db.memberships) && EmailsUnique(db.users) && SlugsUnique(db.tenants)
    && TokensUnique(db.invitations) && KeysUnique(db.roles)
  }

  ghost predicate OwnerActive(ms: map<Id, Membership>, tenant: Id, owner: Id) {
    exists m :: IsMember(ms, m, tenant, owner) && ms[m].status == Active
  }

  /** Every tenant's owner is an active member of it. */
  ghost predicate Owned(db: Db) {
    forall t | t in db.tenants :: OwnerActive(db.memberships, t, db.tenants[t].owner)
  }

  ghost predicate Sound(db: Db) {
    Fresh(db) && Refer(db) && Unique(db) && Owned(db)
  }

  function Elements<T>(s: seq<T>): set<T> {
    set x | x in s
  }

  lemma {:induction false} ElementsCount<T>(s: seq<T>)
    ensures |Elements(s)| <= |s|
  {
    if s != [] {
      ElementsCount(s[1..]);
      assert Elements(s) == {s[0]} + Elements(s[1..]);
    }
  }

  /** Counting as many roles as were listed means that every listed role was found. */
  lemma AllFound(db: Db, tenant: Id, roleIds: seq<Id>)
    requires |FoundRoles(db, tenant, roleIds)| == |roleIds|
    ensures forall r | r in roleIds :: RoleInTenant(db, tenant, r)
  {
    var found, listed := FoundRoles(db, tenant, roleIds), Elements(roleIds);
    ElementsCount(roleIds);
    if r :| r in roleIds && !RoleInTenant(db, tenant, r) {
      assert r in listed && r !in found;
      SubsetSmaller(found, listed);
    }
  }

  lemma {:induction false} SubsetSmaller<T>(a: set<T>, b: set<T>)
    requires a < b
    ensures |a| < |b|
  {
    assert b == a + (b - a);
    assert b - a != {};
  }

  // Rows that keep their unique columns keep them unique, and so does adding a row with new ones.

  lemma SameMembersUnique(ms: map<Id, Membership>, ms': map<Id, Membership>)
    requires forall m | m in ms' :: m in ms && ms'[m].tenant == ms[m].tenant && ms'[m].user == ms[m].user
    ensures MembersUnique(ms) ==> MembersUnique(ms')
  {
    assert forall m, t, u | IsMember(ms', m, t, u) :: IsMember(ms, m, t, u);
  }

  lemma AddMemberUnique(ms: map<Id, Membership>, x: Id, row: Membership)
    requires MembershipOf(ms, row.tenant, row.user).None?
    ensures MembersUnique(ms) ==> MembersUnique(ms[x := row])
  {
    var ms' := ms[x := row];
    assert forall m, t, u | IsMember(ms', m, t, u) && m != x :: IsMember(ms, m, t, u);
  }

  lemma AddUserUnique(users: map<Id, User>, x: Id, row: User)
    requires UserByEmail(users, row.email).None?
    ensures EmailsUnique(users) ==> EmailsUnique(users[x := row])
  {
    var users' := users[x := row];
    assert forall u, e | HasEmail(users', u, e) && u != x :: HasEmail(users, u, e);
  }

  lemma SameSlugsUnique(tenants: map<Id, Tenant>, tenants': map<Id, Tenant>)
    requires forall t | t in tenants' :: t in tenants && tenants'[t].slug == tenants[t].slug
    ensures SlugsUnique(tenants) ==> SlugsUnique(tenants')
  {
    assert forall t, s | HasSlug(tenants', t, s) :: HasSlug(tenants, t, s);
  }

  lemma AddSlugUnique(tenants: map<Id, Tenant>, x: Id, row: Tenant)
    requires forall t :: !HasSlug(tenants, t, row.slug)
    ensures SlugsUnique(tenants) ==> SlugsUnique(tenants[x := row])
  {
    var tenants' := tenants[x := row];
    assert forall t, s | HasSlug(tenants', t, s) && t != x :: HasSlug(tenants, t, s);
  }

  lemma SameTokensUnique(invites: map<Id, Invitation>, invites': map<Id, Invitation>)
    requires forall i | i in invites' :: i in invites && invites'[i].token == invites[i].token
    ensures TokensUnique(invites) ==> TokensUnique(invites')
  {
    assert forall i, k | HasToken(invites', i, k) :: HasToken(invites, i, k);
  }

  lemma NewTokenUnique(invites: map<Id, Invitation>, x: Id, row: Invitation)
    requires forall i | i in invites :: invites[i].token != row.token
    ensures TokensUnique(invites) ==> TokensUnique(invites[x := row])
  {
    var invites' := invites[x := row];
    assert forall i, k | HasToken(invites', i, k) && i != x :: HasToken(invites, i, k);
  }

  lemma SameRolesUnique(roles: map<Id, Role>, roles': map<Id, Role>)
    requires forall r | r in roles' :: r in roles && roles'[r].tenant == roles[r].tenant && roles'[r].key == roles[r].key
    ensures KeysUnique(roles) ==> KeysUnique(roles')
  {
    assert forall r, t, k | HasKey(roles', r, t, k) :: HasKey(roles, r, t, k);
  }

  lemma AddRoleUnique(roles: map<Id, Role>, x: Id, row: Role)
    requires RoleByKey(roles, row.tenant, row.key).None?
    ensures KeysUnique(roles) ==> KeysUnique(roles[x := row])
  {
    var roles' := roles[x := row];
    assert forall r, t, k | HasKey(roles', r, t, k) && r != x :: HasKey(roles, r, t, k);
  }

  /** One step keeps the tables well formed, each layer resting on the ones before it. */
  ghost predicate Keeps(db: Db, db': Db) {
    && Fresh(db')
    && (Refer(db) ==> Refer(db'))
    && (Unique(db) ==> Unique(db'))
  }

  // ---- Changing one table at a time ------------------------------------------------------

  lemma SetMembers(db: Db, ms: map<Id, Membership>)
    requires Fresh(db) && ms.Keys == db.memberships.Keys
    requires forall m | m in ms :: ms[m].tenant == db.memberships[m].tenant && ms[m].user == db.memberships[m].user
    ensures Keeps(db, db.(memberships := ms))
  {
    SameMembersUnique(db.memberships, ms);
  }

  lemma RaiseNext(db: Db, next: Id)
    requires Fresh(db) && db.next <= next
    ensures Keeps(db, db.(next := next))
  {
  }

  lemma SetRoles(db: Db, roles: map<Id, Role>)
    requires Fresh(db) && roles.Keys == db.roles.Keys
    requires forall r | r in roles :: roles[r].tenant == db.roles[r].tenant && roles[r].key == db.roles[r].key
    ensures Keeps(db, db.(roles := roles))
  {
    SameRolesUnique(db.roles, roles);
  }

  lemma SetTenants(db: Db, tenants: map<Id, Tenant>)
    requires Fresh(db) && tenants.Keys == db.tenants.Keys
    requires forall t | t in tenants :: tenants[t].slug == db.tenants[t].slug
    ensures Keeps(db, db.(tenants := tenants))
  {
    SameSlugsUnique(db.tenants, tenants);
  }

  lemma SetAssignments(db: Db, rows: map<Id, Assignment>, next: Id)
    requires Fresh(db) && db.next <= next && Below(rows, next)
    requires Refer(db) ==> AssignmentsRefer(rows, db.memberships, db.roles)
    ensures Keeps(db, db.(assignments := rows, next := next))
  {
  }

  /** New assignment rows, and the version of the member they concern. */
  lemma SetAndBump(db: Db, m: Id, rows: map<Id, Assignment>, next: Id)
    requires Fresh(db) && db.next <= next && Below(rows, next) && m in db.memberships
    requires Refer(db) ==> AssignmentsRefer(rows, db.memberships, db.roles)
    ensures Keeps(db, db.(assignments := rows, memberships := Bump(db.memberships, m), next := next))
  {
    SetAssignments(db, rows, next);
    SetMembers(db.(assignments := rows, next := next), Bump(db.memberships, m));
  }

  lemma SetInvites(db: Db, invites: map<Id, Invitation>, next: Id)
    requires Fresh(db) && db.next <= next && Below(invites, next)
    requires forall i | i in invites :: invites[i].token < next
    requires Refer(db) ==> InvitesRefer(invites, db.roles)
    requires TokensUnique(db.invitations) ==> TokensUnique(invites)
    ensures Keeps(db, db.(invitations := invites, next := next))
  {
  }

  lemma AddUser(db: Db, email: string)
    requires Fresh(db)
    ensures var db' := db.(users := db.users[Invitee(db, email) := User(email)], next := db.next + 1);
            Keeps(db, db') && Invitee(db, email) in db'.users
  {
    hide MembersUnique, TokensUnique, SlugsUnique, EmailsUnique, AssignmentsRefer, InvitesRefer;
    match UserByEmail(db.users, email)
    case Some(u) => assert db.users[u := User(email)] == db.users;
    case None => AddUserUnique(db.users, db.next, User(email));
  }

  lemma AddMember(db: Db, x: Id, row: Membership, next: Id)
    requires Fresh(db) && x !in db.memberships && x < next && db.next <= next
    requires MembershipOf(db.memberships, row.tenant, row.user).None?
    requires Refer(db) ==> row.tenant in db.tenants && row.user in db.users
    ensures Keeps(db, db.(memberships := db.memberships[x := row], next := next))
  {
    AddMemberUnique(db.memberships, x, row);
  }

  /** What no session handler and no read of `resolve` touches. */
  ghost predicate SameAccess(db: Db, db': Db) {
    && db'.users == db.users && db'.tenants == db.tenants && db'.permissions == db.permissions && db'.roles == db.roles
    && db'.memberships == db.memberships && db'.assignments == db.assignments && db'.invitations == db.invitations
  }

  ghost predicate TokensRefer(db: Db) {
    && (forall t | t in db.refreshTokens :: db.refreshTokens[t].session in db.sessions)
    && (forall f | f in db.flights && db.flights[f].session.Some? :: db.flights[f].session.value in db.sessions)
  }

  lemma SetTokens(db: Db, db': Db)
    requires SameAccess(db, db') && Fresh(db')
    requires TokensRefer(db) ==> TokensRefer(db')
    ensures Keeps(db, db')
  {
  }

  // ---- Handler by handler -------------------------------------------------------------------

  /** The role table after provisioning: old roles kept, new ones the tenant's and below `next`. */
  ghost predicate Provisioned(roles: map<Id, Role>, roles': map<Id, Role>, tenant: Id, next: Id) {
    && KeysUnique(roles')
    && Below(roles', next)
    && (forall r | r in roles :: r in roles' && roles'[r].tenant == roles[r].tenant)
    && (forall r | r in roles' && r !in roles :: roles'[r].tenant == tenant)
  }

  lemma NewTenantSound(db: Db, email: string, slug: string, roles: map<Id, Role>, ownerRole: Id, next: Id)
    requires Fresh(db) && Refer(db) && db.next + 4 <= next
    requires Provisioned(db.roles, roles, db.next + 1, next)
    requires ownerRole in roles && roles[ownerRole].tenant == db.next + 1
    ensures Fresh(NewTenant(db, email, slug, roles, ownerRole, next)) && Refer(NewTenant(db, email, slug, roles, ownerRole, next))
  {
    NewTenantFresh(db, email, slug, roles, ownerRole, next);
    NewTenantRefers(db, email, slug, roles, ownerRole, next);
    hide Fresh, Refer, NewTenant, Provisioned;
  }

  lemma NewTenantFresh(db: Db, email: string, slug: string, roles: map<Id, Role>, ownerRole: Id, next: Id)
    requires Fresh(db) && db.next + 4 <= next && Below(roles, next)
    ensures Fresh(NewTenant(db, email, slug, roles, ownerRole, next))
  {
  }

  lemma NewTenantRefers(db: Db, email: string, slug: string, roles: map<Id, Role>, ownerRole: Id, next: Id)
    requires Fresh(db) && Refer(db) && Provisioned(db.roles, roles, db.next + 1, next)
    requires ownerRole in roles && roles[ownerRole].tenant == db.next + 1
    ensures Refer(NewTenant(db, email, slug, roles, ownerRole, next))
  {
  }

  lemma NewTenantUnique(db: Db, email: string, slug: string, roles: map<Id, Role>, ownerRole: Id, next: Id)
    requires Fresh(db) && Refer(db) && KeysUnique(roles)
    requires UserByEmail(db.users, email).None? && !exists t :: HasSlug(db.tenants, t, slug)
    ensures Unique(db) ==> Unique(NewTenant(db, email, slug, roles, ownerRole, next))
  {
    AddUserUnique(db.users, db.next, User(email));
    AddSlugUnique(db.tenants, db.next + 1, Tenant(slug, Running, db.next, 1));
    AddMemberUnique(db.memberships, db.next + 2, Membership(db.next + 1, db.next, Active, 1));
  }

  lemma SignUpSound(db: Db, email: string, slug: string)
    requires Fresh(db) && Refer(db) && KeysUnique(db.roles)
    ensures Keeps(db, SignUp(db, email, slug).0)
  {
    hide Refer, Unique;
    if SignUp(db, email, slug).1.Done? {
      ProvisionFrame(db.roles, db.permissions, db.next + 1, SYSTEM_ROLES, db.next + 4);
      var roles := Provision(db.roles, db.permissions, db.next + 1, SYSTEM_ROLES, db.next + 4);
      var ownerRole := RoleByKey(roles, db.next + 1, OWNER).value;
      NewTenantSound(db, email, slug, roles, ownerRole, db.next + 4 + |SYSTEM_ROLES|);
      NewTenantUnique(db, email, slug, roles, ownerRole, db.next + 4 + |SYSTEM_ROLES|);
    }
  }

  lemma AddRole(db: Db, row: Role)
    requires Fresh(db) && row.tenant in db.tenants && RoleByKey(db.roles, row.tenant, row.key).None?
    ensures Keeps(db, db.(roles := db.roles[db.next := row], next := db.next + 1))
  {
    AddRoleUnique(db.roles, db.next, row);
  }

  lemma CreateRoleSound(db: Db, tenant: Id, key: string, keys: set<string>)
    requires Fresh(db)
    ensures Keeps(db, CreateRole(db, tenant, key, keys).0)
  {
    var (db', r) := CreateRole(db, tenant, key, keys);
    if r.Done? {
      AddRole(db, db'.roles[db.next]);
    }
  }

  lemma DeleteRoleSound(db: Db, tenant: Id, role: Id)
    requires Fresh(db)
    ensures Keeps(db, DeleteRole(db, tenant, role).0)
  {
    hide Keeps, Fresh, Unique, AssignmentsRefer, InvitesRefer;
    if DeleteRole(db, tenant, role).1.Done? {
      if Refer(db) {
        UnassignedRole(db, role);
      }
      hide Refer;
      RemoveRole(db, role);
    } else {
      RaiseNext(db, db.next);
    }
  }

  lemma RemoveRole(db: Db, role: Id)
    requires Fresh(db)
    requires Refer(db) ==>
               AssignmentsRefer(db.assignments, db.memberships, db.roles - {role}) && InvitesRefer(db.invitations, db.roles - {role})
    ensures Keeps(db, db.(roles := db.roles - {role}))
  {
    hide MembersUnique, TokensUnique, SlugsUnique, EmailsUnique, AssignmentsRefer, InvitesRefer, MembersRefer;
    SameRolesUnique(db.roles, db.roles - {role});
    hide KeysUnique;
  }

  lemma UnassignedRole(db: Db, role: Id)
    requires Refer(db) && role in db.roles
    requires !Assigned(db, db.roles[role].tenant, role) && !Offered(db, role)
    ensures AssignmentsRefer(db.assignments, db.memberships, db.roles - {role})
    ensures InvitesRefer(db.invitations, db.roles - {role})
  {
  }

  lemma SetRolePermissionsSound(db: Db, tenant: Id, role: Id, ids: set<Id>, keys: set<string>)
    requires Fresh(db)
    ensures Keeps(db, SetRolePermissions(db, tenant, role, ids, keys).0)
  {
    hide Fresh, Refer, Unique, PermissionIds, Holds;
    var (db', r) := SetRolePermissions(db, tenant, role, ids, keys);
    if r.Done? {
      var db1 := db.(roles := db'.roles);
      SetRoles(db, db'.roles);
      SetTenants(db1, db'.tenants);
      SetMembers(db1.(tenants := db'.tenants), BumpHolders(db.memberships, db.assignments, tenant, role));
    }
  }

  lemma CreateAssignmentSound(db: Db, tenant: Id, m: Id, role: Id, scopeType: ScopeType, scopeId: Option<Id>)
    requires Fresh(db)
    ensures Keeps(db, CreateAssignment(db, tenant, m, role, scopeType, scopeId).0)
  {
    if CreateAssignment(db, tenant, m, role, scopeType, scopeId).1.Done? {
      SetAndBump(db, m, db.assignments[db.next := Assignment(tenant, m, role, scopeType, scopeId)], db.next + 1);
    }
  }

  lemma DeleteAssignmentSound(db: Db, tenant: Id, a: Id)
    requires Fresh(db)
    ensures Keeps(db, DeleteAssignment(db, tenant, a).0)
  {
    if DeleteAssignment(db, tenant, a).1.Done? {
      SetAndBump(db, db.assignments[a].membership, db.assignments - {a}, db.next);
    }
  }

  lemma UpdateStatusSound(db: Db, tenant: Id, m: Id, status: MemberStatus)
    requires Fresh(db)
    ensures Keeps(db, UpdateStatus(db, tenant, m, status).0)
  {
    var (db', r) := UpdateStatus(db, tenant, m, status);
    if r.Done? {
      SetMembers(db, db'.memberships);
      SetTokens(db.(memberships := db'.memberships), db');
    }
  }

  lemma UpdateRolesSound(db: Db, tenant: Id, m: Id, roleIds: seq<Id>)
    requires Fresh(db)
    ensures Keeps(db, UpdateRoles(db, tenant, m, roleIds).0)
  {
    hide Keeps, Fresh, Refer, Unique, FoundRoles, WithoutMember, FreshRows;
    if UpdateRoles(db, tenant, m, roleIds).1.Done? {
      AllFound(db, tenant, roleIds);
      FreshRowsRefer(db, tenant, m, roleIds);
      SetAndBump(db, m, WithoutMember(db.assignments, tenant, m) + FreshRows(tenant, m, roleIds, db.next), db.next + |roleIds|);
    } else {
      RaiseNext(db, db.next);
    }
  }

  lemma {:induction false} FreshRowsRefer(db: Db, tenant: Id, m: Id, roleIds: seq<Id>)
    requires Fresh(db) && MemberInTenant(db, tenant, m) && forall r | r in roleIds :: RoleInTenant(db, tenant, r)
    ensures var rows := WithoutMember(db.assignments, tenant, m) + FreshRows(tenant, m, roleIds, db.next);
            Below(rows, db.next + |roleIds|) && (Refer(db) ==> AssignmentsRefer(rows, db.memberships, db.roles))
  {
    var old', new' := WithoutMember(db.assignments, tenant, m), FreshRows(tenant, m, roleIds, db.next);
    forall a | a in new' ensures new'[a].role in roleIds {
    }
    var rows := old' + new';
    forall a | a in rows ensures rows[a] == if a in new' then new'[a] else db.assignments[a] {
    }
  }

  lemma InviteSound(db: Db, tenant: Id, email: string, roleId: Option<Id>, roleKey: Option<string>, now: int)
    requires Fresh(db)
    ensures Keeps(db, Invite(db, tenant, email, roleId, roleKey, now).0)
  {
    var role := InvitedRole(db, tenant, roleId, roleKey);
    if role.Some? && !AlreadyActive(db, tenant, email) {
      InvitedSound(db, tenant, email, role.value, now);
    }
  }

  lemma InvitedSound(db: Db, tenant: Id, email: string, role: Id, now: int)
    requires Fresh(db) && RoleInTenant(db, tenant, role)
    ensures Keeps(db, Invited(db, tenant, email, role, now))
  {
    hide Unique, TokensUnique, MembersRefer, AssignmentsRefer;
    var withdrawn := WithdrawPending(db.invitations, tenant, email);
    var invites := Invited(db, tenant, email, role, now).invitations;
    SameTokensUnique(db.invitations, withdrawn);
    NewTokenUnique(withdrawn, db.next, invites[db.next]);
    SetInvites(db, invites, db.next + 2);
  }

  lemma ResendSound(db: Db, tenant: Id, i: Id, now: int)
    requires Fresh(db)
    ensures Keeps(db, Resend(db, tenant, i, now).0)
  {
    hide Unique, TokensUnique, MembersRefer, AssignmentsRefer;
    if PendingInTenant(db, tenant, i) {
      var row := db.invitations[i].(token := db.next, expiresAt := now + INVITE_TTL_MS);
      NewTokenUnique(db.invitations, i, row);
      SetInvites(db, db.invitations[i := row], db.next + 1);
    }
  }

  lemma WithdrawInviteSound(db: Db, tenant: Id, i: Id)
    requires Fresh(db)
    ensures Keeps(db, WithdrawInvite(db, tenant, i).0)
  {
    var (db', r) := WithdrawInvite(db, tenant, i);
    if r.Done? {
      SameTokensUnique(db.invitations, db'.invitations);
      SetInvites(db, db'.invitations, db.next);
    }
  }

  lemma AcceptSound(db: Db, token: Id, now: int)
    requires Fresh(db)
    ensures Keeps(db, Accept(db, token, now).0)
  {
    if Acceptable(db, token, now) {
      JoinSound(db, InviteByToken(db.invitations, token).value);
    }
  }

  /** The acceptance, table by table: the user, the membership, the assignment, the invitation. */
  lemma JoinSound(db: Db, i: Id)
    requires Fresh(db) && i in db.invitations
    ensures Keeps(db, Join(db, i))
  {
    hide Fresh, Refer, Unique, Activated, InviteeMembership, Invitee, Holds;
    var inv := db.invitations[i];
    var db1 := db.(users := db.users[Invitee(db, inv.email) := User(inv.email)], next := db.next + 1);
    AddUser(db, inv.email);
    var db2 := db1.(memberships := Activated(db, inv.tenant, inv.email), next := db.next + 2);
    ActivatedSound(db, inv.tenant, inv.email, db1, i);
    var m := InviteeMembership(db, inv.tenant, inv.email);
    var db3 := db2.(assignments := JoinRows(db, i), next := db.next + 3);
    ActivatedMember(db, inv.tenant, inv.email);
    InviteRefers(db2, i);
    JoinRowsSound(db2, m, inv, db.assignments, JoinRows(db, i));
    AcceptedSound(db3, i);
    assert Join(db, i) == db3.(invitations := db3.invitations[i := inv.(status := InviteStatus.Accepted)]);
  }

  lemma InviteRefers(db: Db, i: Id)
    requires i in db.invitations
    ensures Refer(db) ==> RoleInTenant(db, db.invitations[i].tenant, db.invitations[i].role)
  {
  }

  lemma JoinRowsSound(db: Db, m: Id, inv: Invitation, rows: map<Id, Assignment>, rows': map<Id, Assignment>)
    requires Fresh(db) && rows == db.assignments
    requires m in db.memberships && db.memberships[m].tenant == inv.tenant
    requires Refer(db) ==> inv.role in db.roles && db.roles[inv.role].tenant == inv.tenant
    requires rows' == rows || rows' == rows[db.next := Assignment(inv.tenant, m, inv.role, TenantScope, None)]
    ensures Keeps(db, db.(assignments := rows', next := db.next + 1))
  {
    hide Unique, MembersRefer, InvitesRefer;
    SetAssignments(db, rows', db.next + 1);
  }

  lemma AcceptedSound(db: Db, i: Id)
    requires Fresh(db) && i in db.invitations
    ensures Keeps(db, db.(invitations := db.invitations[i := db.invitations[i].(status := InviteStatus.Accepted)]))
  {
    var invites := db.invitations[i := db.invitations[i].(status := InviteStatus.Accepted)];
    SameTokensUnique(db.invitations, invites);
    SetInvites(db, invites, db.next);
  }

  lemma ActivatedMember(db: Db, tenant: Id, email: string)
    requires Fresh(db)
    ensures var ms, m := Activated(db, tenant, email), InviteeMembership(db, tenant, email);
            m in ms && ms[m].tenant == tenant && ms[m].user == Invitee(db, email) && ms[m].status == Active
  {
  }

  lemma ActivatedSound(db: Db, tenant: Id, email: string, db1: Db, i: Id)
    requires Fresh(db) && Fresh(db1) && db1.memberships == db.memberships && db1.next == db.next + 1
    requires Invitee(db, email) in db1.users
    requires i in db1.invitations && db1.invitations[i].tenant == tenant
    ensures Keeps(db1, db1.(memberships := Activated(db, tenant, email), next := db.next + 2))
  {
    hide Unique, TokensUnique, AssignmentsRefer;
    var m, user := InviteeMembership(db, tenant, email), Invitee(db, email);
    if m in db.memberships {
      SetMembers(db1, Activated(db, tenant, email));
      RaiseNext(db1.(memberships := Activated(db, tenant, email)), db.next + 2);
    } else {
      AddMember(db1, m, Membership(tenant, user, Active, 1), db.next + 2);
    }
  }

  lemma CreateSessionSound(db: Db, f: Id, expiresAt: int)
    requires Fresh(db)
    ensures Keeps(db, CreateSession(db, f, expiresAt).0)
  {
    hide Keeps, Refer, Unique;
    CreateSessionFresh(db, f, expiresAt);
    CreateSessionRefers(db, f, expiresAt);
    hide Fresh, TokensRefer;
    SetTokens(db, CreateSession(db, f, expiresAt).0);
  }

  lemma CreateSessionFresh(db: Db, f: Id, expiresAt: int)
    requires Fresh(db)
    ensures Fresh(CreateSession(db, f, expiresAt).0)
  {
  }

  lemma CreateSessionRefers(db: Db, f: Id, expiresAt: int)
    ensures TokensRefer(db) ==> TokensRefer(CreateSession(db, f, expiresAt).0)
  {
  }

  lemma FinishFrame(db: Db, f: Id, slug: string, expiresAt: int)
    ensures var db' := Finish(db, f, slug, expiresAt).0;
            db' == db.(refreshTokens := db'.refreshTokens, issued := db'.issued, flights := db'.flights, next := db'.next)
  {
  }

  lemma FinishSound(db: Db, f: Id, slug: string, expiresAt: int)
    requires Fresh(db)
    ensures Keeps(db, Finish(db, f, slug, expiresAt).0)
  {
    hide Keeps, Refer, Unique, ClaimsOf, Resolved;
    FinishFrame(db, f, slug, expiresAt);
    SetTokens(db, Finish(db, f, slug, expiresAt).0);
  }

  lemma KillFamilySound(db: Db, token: RefreshToken)
    requires Fresh(db)
    ensures Keeps(db, KillFamily(db, token))
  {
    SetTokens(db, KillFamily(db, token));
  }

  lemma RotateSound(db: Db, t: Id, user: Id, tenant: Id, expiresAt: int)
    requires Fresh(db) && t in db.refreshTokens
    ensures Keeps(db, Rotate(db, t, db.refreshTokens[t], user, tenant, expiresAt))
  {
    SetTokens(db, Rotate(db, t, db.refreshTokens[t], user, tenant, expiresAt));
  }

  /** The three ways a refresh ends: nothing happens, the family dies, or the token is rotated. */
  lemma RefreshCases(db: Db, t: Id, now: int, expiresAt: int)
    ensures var (db', r) := Refresh(db, t, now, expiresAt);
            || (db' == db && r.Fail?)
            || (t in db.refreshTokens && r == Fail(RefreshReuse) && db' == KillFamily(db, db.refreshTokens[t]))
            || (t in db.refreshTokens && r.Done? && !Spent(db.refreshTokens[t]) && db.refreshTokens[t].session in db.sessions
                && var session := db.sessions[db.refreshTokens[t].session];
                   session.tenant.Some? && db' == Rotate(db, t, db.refreshTokens[t], session.user, session.tenant.value, expiresAt))
  {
  }

  lemma RefreshFrame(db: Db, t: Id, now: int, expiresAt: int)
    ensures SameAccess(db, Refresh(db, t, now, expiresAt).0) && Refresh(db, t, now, expiresAt).0.issued == db.issued
  {
    RefreshCases(db, t, now, expiresAt);
  }

  lemma RefreshSound(db: Db, t: Id, now: int, expiresAt: int)
    requires Fresh(db)
    ensures Keeps(db, Refresh(db, t, now, expiresAt).0)
  {
    RefreshCases(db, t, now, expiresAt);
    if t in db.refreshTokens {
      KillFamilySound(db, db.refreshTokens[t]);
      if db.refreshTokens[t].session in db.sessions {
        var session := db.sessions[db.refreshTokens[t].session];
        if session.tenant.Some? {
          RotateSound(db, t, session.user, session.tenant.value, expiresAt);
        }
      }
    }
  }

  lemma LogoutSound(db: Db, s: Id)
    requires Fresh(db)
    ensures Keeps(db, Logout(db, s).0)
  {
    SetTokens(db, Logout(db, s).0);
  }

  lemma RevokeSessionSound(db: Db, user: Id, s: Id)
    requires Fresh(db)
    ensures Keeps(db, RevokeSession(db, user, s).0)
  {
    SetTokens(db, RevokeSession(db, user, s).0);
  }

  /** A read of `resolve` changes one flight, and not its session. */
  lemma ResolvingFrame(db: Db, op: ReadOp)
    ensures FlightsOnly(db, DoResolving(db, op).0)
  {
    match op
    case OpStartIssue(u, t) =>
    case OpReadTenant(f) => if Flying(db, f) { SetFlightFrame(db, f, SeeTenant(db, db.flights[f])); }
    case OpReadMembership(f) => if Flying(db, f) { SetFlightFrame(db, f, SeeMembership(db, db.flights[f])); }
    case OpReadAssignments(f) => ReadAssignmentsFrame(db, f);
    case OpReadRole(f, r) => if Flying(db, f) { SetFlightFrame(db, f, SeeRole(db, db.flights[f], r)); }
  }

  ghost predicate FlightsOnly(db: Db, db': Db) {
    && db' == db.(flights := db'.flights, next := db'.next)
    && db.next <= db'.next
    && (forall f | f in db'.flights :: (f in db.flights && db'.flights[f].session == db.flights[f].session)
                                    || (f == db.next && f < db'.next && db'.flights[f].session.None?))
  }

  lemma SetFlightFrame(db: Db, f: Id, flight: Flight)
    requires f in db.flights && flight.session == db.flights[f].session
    ensures FlightsOnly(db, SetFlight(db, f, flight))
  {
  }

  lemma ReadAssignmentsFrame(db: Db, f: Id)
    ensures FlightsOnly(db, ReadAssignments(db, f).0)
  {
    var (db', r) := ReadAssignments(db, f);
    if r.Done? {
      SetFlightFrame(db, f, db'.flights[f]);
    }
  }

  lemma ResolvingKeeps(db: Db, op: ReadOp)
    requires Fresh(db)
    ensures Keeps(db, DoResolving(db, op).0)
  {
    ResolvingFrame(db, op);
    SetTokens(db, DoResolving(db, op).0);
  }

  lemma IamKeeps(db: Db, op: IamOp)
    requires Fresh(db)
    ensures Keeps(db, DoIam(db, op).0)
  {
    match op
    case OpCreateRole(t, key, keys) => CreateRoleSound(db, t, key, keys);
    case OpDeleteRole(t, r) => DeleteRoleSound(db, t, r);
    case OpSetRolePermissions(t, r, ids, keys) => SetRolePermissionsSound(db, t, r, ids, keys);
    case OpCreateAssignment(t, m, r, scopeType, scopeId) => CreateAssignmentSound(db, t, m, r, scopeType, scopeId);
    case OpDeleteAssignment(t, a) => DeleteAssignmentSound(db, t, a);
  }

  lemma TeamKeeps(db: Db, op: TeamOp)
    requires Fresh(db)
    ensures Keeps(db, DoTeam(db, op).0)
  {
    match op
    case OpUpdateStatus(t, m, status) => UpdateStatusSound(db, t, m, status);
    case OpUpdateRoles(t, m, roleIds) => UpdateRolesSound(db, t, m, roleIds);
  }

  lemma InvitingKeeps(db: Db, op: InviteOp)
    requires Fresh(db)
    ensures Keeps(db, DoInviting(db, op).0)
  {
    match op
    case OpInvite(t, email, roleId, roleKey, now) => InviteSound(db, t, email, roleId, roleKey, now);
    case OpResend(t, i, now) => ResendSound(db, t, i, now);
    case OpWithdrawInvite(t, i) => WithdrawInviteSound(db, t, i);
    case OpAccept(token, now) => AcceptSound(db, token, now);
  }

  lemma AuthKeeps(db: Db, op: SessionOp)
    requires Fresh(db)
    ensures Keeps(db, DoAuth(db, op).0)
  {
    match op
    case OpCreateSession(f, expiresAt) => CreateSessionSound(db, f, expiresAt);
    case OpFinish(f, slug, expiresAt) => FinishSound(db, f, slug, expiresAt);
    case OpRefresh(t, now, expiresAt) => RefreshSound(db, t, now, expiresAt);
    case OpLogout(s) => LogoutSound(db, s);
    case OpRevokeSession(u, s) => RevokeSessionSound(db, u, s);
  }

  lemma StepKeeps(db: Db, op: Op)
    requires Fresh(db) && Refer(db) && Unique(db)
    ensures Keeps(db, Do(db, op).0)
  {
    match op
    case Signup(email, slug) => SignUpSound(db, email, slug);
    case Iam(iam) => IamKeeps(db, iam);
    case Team(team) => TeamKeeps(db, team);
    case Inviting(inviting) => InvitingKeeps(db, inviting);
    case Auth(auth) => AuthKeeps(db, auth);
    case Resolving(resolving) => ResolvingKeeps(db, resolving);
  }

  /** Tenants keep their owners, memberships keep their identity, their versions never fall, and
      an owner's membership stays active. */
  ghost predicate MemberStays(ms: map<Id, Membership>, ms': map<Id, Membership>, m: Id, owned: bool)
    requires m in ms
  {
    && m in ms' && ms'[m].tenant == ms[m].tenant && ms'[m].user == ms[m].user && ms[m].version <= ms'[m].version
    && (owned && ms[m].status == Active ==> ms'[m].status == Active)
  }

  predicate OwnsTenant(db: Db, m: Id)
    requires m in db.memberships
  {
    var t := db.memberships[m].tenant;
    t in db.tenants && db.tenants[t].owner == db.memberships[m].user
  }

  ghost predicate Stays(db: Db, db': Db) {
    && (forall t | t in db.tenants :: t in db'.tenants && db'.tenants[t].owner == db.tenants[t].owner)
    && (forall m | m in db.memberships :: MemberStays(db.memberships, db'.memberships, m, OwnsTenant(db, m)))
  }

  /** One membership row rewritten, the others as they were. */
  lemma OneMemberStays(db: Db, db': Db, m: Id, row: Membership)
    requires m in db.memberships && db'.tenants == db.tenants && db'.memberships == db.memberships[m := row]
    requires row.tenant == db.memberships[m].tenant && row.user == db.memberships[m].user
    requires db.memberships[m].version <= row.version
    requires OwnsTenant(db, m) && db.memberships[m].status == Active ==> row.status == Active
    ensures Stays(db, db')
  {
  }

  lemma SetRolePermissionsStays(db: Db, tenant: Id, role: Id, ids: set<Id>, keys: set<string>)
    ensures Stays(db, SetRolePermissions(db, tenant, role, ids, keys).0)
  {
    var (db', r) := SetRolePermissions(db, tenant, role, ids, keys);
    if r.Done? {
      assert db'.memberships == BumpHolders(db.memberships, db.assignments, tenant, role);
    }
  }

  lemma CreateAssignmentStays(db: Db, tenant: Id, m: Id, role: Id, scopeType: ScopeType, scopeId: Option<Id>)
    ensures Stays(db, CreateAssignment(db, tenant, m, role, scopeType, scopeId).0)
  {
    hide Stays;
    var (db', r) := CreateAssignment(db, tenant, m, role, scopeType, scopeId);
    if r.Done? { BumpStays(db, db', m); } else { SameStays(db, db'); }
  }

  lemma DeleteAssignmentStays(db: Db, tenant: Id, a: Id)
    ensures Stays(db, DeleteAssignment(db, tenant, a).0)
  {
    hide Stays;
    var (db', r) := DeleteAssignment(db, tenant, a);
    if r.Done? { BumpStays(db, db', db.assignments[a].membership); } else { SameStays(db, db'); }
  }

  lemma IamStays(db: Db, op: IamOp)
    ensures Stays(db, DoIam(db, op).0)
  {
    hide Stays, CreateRole, DeleteRole, SetRolePermissions, CreateAssignment, DeleteAssignment;
    match op
    case OpSetRolePermissions(t, role, ids, keys) => SetRolePermissionsStays(db, t, role, ids, keys);
    case OpCreateAssignment(t, m, role, scopeType, scopeId) => CreateAssignmentStays(db, t, m, role, scopeType, scopeId);
    case OpDeleteAssignment(t, a) => DeleteAssignmentStays(db, t, a);
    case OpCreateRole(t, key, keys) => CreateRoleStays(db, t, key, keys);
    case OpDeleteRole(t, role) => DeleteRoleStays(db, t, role);
  }

  lemma CreateRoleStays(db: Db, tenant: Id, key: string, keys: set<string>)
    ensures Stays(db, CreateRole(db, tenant, key, keys).0)
  {
    SameStays(db, CreateRole(db, tenant, key, keys).0);
  }

  lemma DeleteRoleStays(db: Db, tenant: Id, role: Id)
    ensures Stays(db, DeleteRole(db, tenant, role).0)
  {
    SameStays(db, DeleteRole(db, tenant, role).0);
  }

  lemma SameStays(db: Db, db': Db)
    requires db'.tenants == db.tenants && db'.memberships == db.memberships
    ensures Stays(db, db')
  {
  }

  lemma BumpStays(db: Db, db': Db, m: Id)
    requires m in db.memberships && db'.tenants == db.tenants && db'.memberships == Bump(db.memberships, m)
    ensures Stays(db, db')
  {
    OneMemberStays(db, db', m, Bump(db.memberships, m)[m]);
  }

  /** The owner's guard: only an active status is written to an owner's membership. */
  lemma TeamStays(db: Db, op: TeamOp)
    ensures Stays(db, DoTeam(db, op).0)
  {
    var (db', r) := DoTeam(db, op);
    if r.Done? {
      OneMemberStays(db, db', op.member, db'.memberships[op.member]);
    }
  }

  lemma InviteFrame(db: Db, tenant: Id, email: string, roleId: Option<Id>, roleKey: Option<string>, now: int)
    ensures var db' := Invite(db, tenant, email, roleId, roleKey, now).0;
            db' == db.(invitations := db'.invitations, next := db'.next) && db.next <= db'.next
  {
    var role := InvitedRole(db, tenant, roleId, roleKey);
    if role.Some? && !AlreadyActive(db, tenant, email) {
      assert Invite(db, tenant, email, roleId, roleKey, now).0 == Invited(db, tenant, email, role.value, now);
    }
  }

  lemma JoinStays(db: Db, i: Id)
    requires Fresh(db) && i in db.invitations
    ensures Stays(db, Join(db, i))
  {
    hide Fresh, JoinRows, Invitee;
    var m := InviteeMembership(db, db.invitations[i].tenant, db.invitations[i].email);
    if m in db.memberships {
      OneMemberStays(db, Join(db, i), m, db.memberships[m].(status := Active));
    }
  }

  lemma InvitingStays(db: Db, op: InviteOp)
    requires Fresh(db)
    ensures Stays(db, DoInviting(db, op).0)
  {
    hide Stays;
    match op
    case OpInvite(t, email, roleId, roleKey, now) =>
      InviteFrame(db, t, email, roleId, roleKey, now);
      SameStays(db, Invite(db, t, email, roleId, roleKey, now).0);
    case OpAccept(token, now) =>
      if Acceptable(db, token, now) {
        JoinStays(db, InviteByToken(db.invitations, token).value);
      } else {
        SameStays(db, db);
      }
    case OpResend(t, i, now) => SameStays(db, Resend(db, t, i, now).0);
    case OpWithdrawInvite(t, i) => SameStays(db, WithdrawInvite(db, t, i).0);
  }

  lemma SignUpStays(db: Db, email: string, slug: string)
    requires Fresh(db)
    ensures var db' := SignUp(db, email, slug).0;
            && Stays(db, db')
            && forall t | t in db'.tenants && t !in db.tenants :: OwnerActive(db'.memberships, t, db'.tenants[t].owner)
  {
    var (db', r) := SignUp(db, email, slug);
    if r.Done? {
      assert db'.memberships == db.memberships[db.next + 2 := Membership(db.next + 1, db.next, Active, 1)];
      assert db'.tenants == db.tenants[db.next + 1 := Tenant(slug, Running, db.next, 1)];
      assert IsMember(db'.memberships, db.next + 2, db.next + 1, db.next);
    }
  }

  lemma AuthFrame(db: Db, op: SessionOp)
    ensures SameAccess(db, DoAuth(db, op).0)
  {
    match op
    case OpFinish(f, slug, expiresAt) => FinishFrame(db, f, slug, expiresAt);
    case OpRefresh(t, now, expiresAt) => RefreshFrame(db, t, now, expiresAt);
    case _ =>
  }

  lemma StepStays(db: Db, op: Op)
    requires Fresh(db)
    ensures Stays(db, Do(db, op).0)
  {
    match op
    case Signup(email, slug) => SignUpStays(db, email, slug);
    case Iam(iam) => IamStays(db, iam);
    case Team(team) => TeamStays(db, team);
    case Inviting(inviting) => InvitingStays(db, inviting);
    case Auth(auth) => AuthFrame(db, auth);
    case Resolving(resolving) => ResolvingFrame(db, resolving);
  }

  lemma OwnedStep(db: Db, op: Op)
    requires Fresh(db) && Owned(db)
    ensures Owned(Do(db, op).0)
  {
    StepStays(db, op);
    var db' := Do(db, op).0;
    NewTenants(db, op);
    forall t | t in db'.tenants && t in db.tenants ensures OwnerActive(db'.memberships, t, db'.tenants[t].owner) {
      var m :| IsMember(db.memberships, m, t, db.tenants[t].owner) && db.memberships[m].status == Active;
      assert MemberStays(db.memberships, db'.memberships, m, OwnsTenant(db, m));
      assert IsMember(db'.memberships, m, t, db'.tenants[t].owner);
    }
  }

  /** Only signup adds a tenant, and it adds the owner's active membership with it. */
  lemma NewTenants(db: Db, op: Op)
    requires Fresh(db)
    ensures var db' := Do(db, op).0;
            forall t | t in db'.tenants && t !in db.tenants :: OwnerActive(db'.memberships, t, db'.tenants[t].owner)
  {
    hide Fresh, Stays, SignUp, DoIam, DoTeam, DoInviting, DoAuth, DoResolving;
    match op
    case Signup(email, slug) => SignUpStays(db, email, slug);
    case Iam(iam) => IamTenants(db, iam);
    case Team(team) => TeamTenants(db, team);
    case Inviting(inviting) => InvitingTenants(db, inviting);
    case Auth(auth) => AuthFrame(db, auth);
    case Resolving(resolving) => ResolvingFrame(db, resolving);
  }

  lemma TeamTenants(db: Db, op: TeamOp)
    ensures DoTeam(db, op).0.tenants == db.tenants
  {
    hide UpdateStatus, UpdateRoles;
    match op
    case OpUpdateStatus(t, m, status) => UpdateStatusFrame(db, t, m, status);
    case OpUpdateRoles(t, m, roleIds) => UpdateRolesFrame(db, t, m, roleIds);
  }

  lemma IamTenants(db: Db, op: IamOp)
    ensures DoIam(db, op).0.tenants.Keys == db.tenants.Keys
  {
    match op
    case OpSetRolePermissions(t, role, ids, keys) => assert SetRolePermissions(db, t, role, ids, keys).0.tenants.Keys == db.tenants.Keys;
    case _ => assert DoIam(db, op).0.tenants == db.tenants;
  }

  lemma InvitingTenants(db: Db, op: InviteOp)
    ensures DoInviting(db, op).0.tenants == db.tenants
  {
    if op.OpInvite? {
      InviteFrame(db, op.tenant, op.email, op.roleId, op.roleKey, op.now);
    }
  }

  /** What only the session handlers and the reads of `resolve` touch. */
  ghost predicate SameTokens(db: Db, db': Db) {
    db'.flights == db.flights && db'.issued == db.issued && db'.refreshTokens == db.refreshTokens && db.next <= db'.next
  }

  /** The other writers leave tokens and flights alone; only the team service closes sessions, and
      only the invitation service writes invitations. */
  lemma WriterFrame(db: Db, op: Op)
    requires !op.Auth? && !op.Resolving?
    ensures SameTokens(db, Do(db, op).0)
    ensures !op.Team? ==> Do(db, op).0.sessions == db.sessions
    ensures !op.Inviting? ==> Do(db, op).0.invitations == db.invitations
  {
    hide SameTokens, SignUp, DoInviting, DoIam, DoTeam;
    match op
    case Signup(email, slug) => SignUpFrame(db, email, slug);
    case Inviting(inviting) => InvitingFrame(db, inviting);
    case Iam(iam) => IamFrame(db, iam);
    case Team(team) => TeamFrame(db, team);
  }

  lemma SignUpFrame(db: Db, email: string, slug: string)
    ensures SameTokens(db, SignUp(db, email, slug).0) && SignUp(db, email, slug).0.sessions == db.sessions
    ensures SignUp(db, email, slug).0.invitations == db.invitations
  {
    hide Provision, RoleByKey, UserByEmail, HasSlug;
  }

  lemma CreateRoleFrame(db: Db, tenant: Id, key: string, keys: set<string>)
    ensures var db' := CreateRole(db, tenant, key, keys).0;
            db' == db.(roles := db'.roles, next := db'.next) && db.next <= db'.next
  {
    hide RoleByKey, PermissionIds, HasKey;
    if RoleByKey(db.roles, tenant, key).Some? {
    } else if tenant !in db.tenants {
    } else {
    }
  }

  lemma DeleteRoleFrame(db: Db, tenant: Id, role: Id)
    ensures var db' := DeleteRole(db, tenant, role).0; db' == db.(roles := db'.roles)
  {
  }

  lemma DeleteAssignmentFrame(db: Db, tenant: Id, a: Id)
    ensures var db' := DeleteAssignment(db, tenant, a).0;
            db' == db.(assignments := db'.assignments, memberships := db'.memberships)
  {
  }

  lemma SetRolePermissionsFrame(db: Db, tenant: Id, role: Id, ids: set<Id>, keys: set<string>)
    ensures var db' := SetRolePermissions(db, tenant, role, ids, keys).0;
            db' == db.(roles := db'.roles, tenants := db'.tenants, memberships := db'.memberships)
  {
  }

  lemma CreateAssignmentFrame(db: Db, tenant: Id, m: Id, role: Id, scopeType: ScopeType, scopeId: Option<Id>)
    ensures var db' := CreateAssignment(db, tenant, m, role, scopeType, scopeId).0;
            db' == db.(assignments := db'.assignments, memberships := db'.memberships, next := db'.next) && db.next <= db'.next
  {
  }

  lemma IamFrame(db: Db, op: IamOp)
    ensures SameTokens(db, DoIam(db, op).0) && DoIam(db, op).0.sessions == db.sessions
    ensures DoIam(db, op).0.invitations == db.invitations
  {
    hide CreateRole, DeleteRole, CreateAssignment, SetRolePermissions, DeleteAssignment;
    match op
    case OpCreateRole(t, key, keys) => CreateRoleFrame(db, t, key, keys);
    case OpDeleteRole(t, r) => DeleteRoleFrame(db, t, r);
    case OpDeleteAssignment(t, a) => DeleteAssignmentFrame(db, t, a);
    case OpSetRolePermissions(t, r, ids, keys) => SetRolePermissionsFrame(db, t, r, ids, keys);
    case OpCreateAssignment(t, m, r, scopeType, scopeId) => CreateAssignmentFrame(db, t, m, r, scopeType, scopeId);
  }

  lemma UpdateStatusFrame(db: Db, tenant: Id, m: Id, status: MemberStatus)
    ensures var db' := UpdateStatus(db, tenant, m, status).0;
            db' == db.(memberships := db'.memberships, sessions := db'.sessions)
  {
  }

  lemma UpdateRolesFrame(db: Db, tenant: Id, m: Id, roleIds: seq<Id>)
    ensures var db' := UpdateRoles(db, tenant, m, roleIds).0;
            db' == db.(assignments := db'.assignments, memberships := db'.memberships, next := db'.next) && db.next <= db'.next
  {
  }

  lemma TeamFrame(db: Db, op: TeamOp)
    ensures SameTokens(db, DoTeam(db, op).0) && DoTeam(db, op).0.invitations == db.invitations
  {
    hide UpdateStatus, UpdateRoles;
    match op
    case OpUpdateStatus(t, m, status) => UpdateStatusFrame(db, t, m, status);
    case OpUpdateRoles(t, m, roleIds) => UpdateRolesFrame(db, t, m, roleIds);
  }

  lemma InvitingFrame(db: Db, op: InviteOp)
    ensures SameTokens(db, DoInviting(db, op).0) && DoInviting(db, op).0.sessions == db.sessions
  {
    if op.OpInvite? {
      InviteFrame(db, op.tenant, op.email, op.roleId, op.roleKey, op.now);
    }
  }

  lemma StepSound(db: Db, op: Op)
    requires Sound(db)
    ensures Sound(Do(db, op).0)
  {
    StepKeeps(db, op);
    OwnedStep(db, op);
  }

  lemma {:induction false} RunSound(db: Db, ops: seq<Op>)
    requires Sound(db)
    ensures Sound(Run(db, ops))
    decreases |ops|
  {
    if ops != [] {
      StepSound(db, ops[0]);
      RunSound(Do(db, ops[0]).0, ops[1..]);
    }
  }

  ghost predicate Reachable(db: Db) {
    exists catalogue, next, ops :: db == Run(Seeded(catalogue, next), ops)
  }

  lemma SeededSound(catalogue: map<Id, Permission>, next: Id)
    ensures Sound(Seeded(catalogue, next))
  {
  }

  lemma ReachableSound(db: Db)
    requires Reachable(db)
    ensures Sound(db)
  {
    var catalogue, next, ops :| db == Run(Seeded(catalogue, next), ops);
    hide Sound, Run, Seeded;
    SeededSound(catalogue, next);
    RunSound(Seeded(catalogue, next), ops);
  }
}
