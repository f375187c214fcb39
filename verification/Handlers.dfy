/** What each API handler does to the whole database, as one function per handler.
    The class in Backend carries the same handlers out table by table. */
module Handlers {
  import opened Tables
  import opened Provisioning

  type Step = (Db, Outcome)

  // ---- Writers of roles and role assignments (iam.service.ts, setup.sql) --------

  /** Resolves ids, or else keys, to permissions that are global or the tenant's own. */
  function PermissionIds(permissions: map<Id, Permission>, tenant: Id, ids: set<Id>, keys: set<string>): (r: set<Id>)
    ensures r <= permissions.Keys
  {
    if ids == {} then
      set p | p in permissions && permissions[p].key in keys && permissions[p].tenant in {None, Some(tenant)}
    else
      set p | p in ids && p in permissions && permissions[p].tenant in {None, Some(tenant)}
  }

  function Bump(ms: map<Id, Membership>, m: Id): map<Id, Membership>
    requires m in ms
  {
    ms[m := ms[m].(version := ms[m].version + 1)]
  }

  predicate Holds(rows: map<Id, Assignment>, tenant: Id, m: Id, role: Id) {
    exists a :: a in rows && rows[a].tenant == tenant && rows[a].membership == m && rows[a].role == role
  }

  /** The procedure's update of every member of the tenant who holds the role. */
  function BumpHolders(ms: map<Id, Membership>, rows: map<Id, Assignment>, tenant: Id, role: Id): map<Id, Membership> {
    map m | m in ms ::
      if ms[m].tenant == tenant && Holds(rows, tenant, m, role) then ms[m].(version := ms[m].version + 1) else ms[m]
  }

  predicate RoleInTenant(db: Db, tenant: Id, role: Id) {
    role in db.roles && db.roles[role].tenant == tenant
  }

  predicate MemberInTenant(db: Db, tenant: Id, m: Id) {
    m in db.memberships && db.memberships[m].tenant == tenant
  }

  ghost function CreateRole(db: Db, tenant: Id, key: string, keys: set<string>): Step {
    if RoleByKey(db.roles, tenant, key).Some? then (db, Fail(RoleExists))
    else if tenant !in db.tenants then (db, Fail(TenantNotFound))
    else
      var ids := if keys == {} then {} else PermissionIds(db.permissions, tenant, {}, keys);
      (db.(roles := db.roles[db.next := Role(tenant, key, false, ids)], next := db.next + 1), Done(db.next))
  }

  predicate Assigned(db: Db, tenant: Id, role: Id) {
    exists a :: a in db.assignments && db.assignments[a].role == role && db.assignments[a].tenant == tenant
  }

  predicate Offered(db: Db, role: Id) {
    exists i :: i in db.invitations && db.invitations[i].role == role
  }

  /** Deleting a role is refused while it is assigned, or while an invitation row refers to it. */
  ghost function DeleteRole(db: Db, tenant: Id, role: Id): Step {
    if !RoleInTenant(db, tenant, role) then (db, Fail(RoleNotFound))
    else if db.roles[role].isSystem then (db, Fail(SystemRole))
    else if Assigned(db, tenant, role) then (db, Fail(RoleInUse))
    else if Offered(db, role) then (db, Fail(RoleReferenced))
    else (db.(roles := db.roles - {role}), Done(role))
  }

  ghost function SetRolePermissions(db: Db, tenant: Id, role: Id, ids: set<Id>, keys: set<string>): Step {
    if !RoleInTenant(db, tenant, role) then (db, Fail(RoleNotFound))
    else if tenant !in db.tenants then (db, Fail(TenantNotFound))
    else
      (db.(roles := db.roles[role := db.roles[role].(permissions := PermissionIds(db.permissions, tenant, ids, keys))],
           tenants := db.tenants[tenant := db.tenants[tenant].(rbacVersion := db.tenants[tenant].rbacVersion + 1)],
           memberships := BumpHolders(db.memberships, db.assignments, tenant, role)),
       Done(role))
  }

  ghost function CreateAssignment(db: Db, tenant: Id, m: Id, role: Id, scopeType: ScopeType, scopeId: Option<Id>): Step {
    var row := Assignment(tenant, m, role, scopeType, scopeId);
    if !MemberInTenant(db, tenant, m) then (db, Fail(MembershipNotFound))
    else if !RoleInTenant(db, tenant, role) then (db, Fail(RoleNotFound))
    else if scopeId.Some? && row in db.assignments.Values then (db, Fail(AssignmentExists))
    else
      (db.(assignments := db.assignments[db.next := row], memberships := Bump(db.memberships, m), next := db.next + 1),
       Done(db.next))
  }

  ghost function DeleteAssignment(db: Db, tenant: Id, a: Id): Step {
    if a !in db.assignments || db.assignments[a].tenant != tenant then (db, Fail(AssignmentNotFound))
    else if db.assignments[a].membership !in db.memberships then (db, Fail(MembershipNotFound))
    else
      (db.(assignments := db.assignments - {a}, memberships := Bump(db.memberships, db.assignments[a].membership)), Done(a))
  }

  // ---- Team (team.service.ts) ---------------------------------------------------

  /** Every open session of the user in the tenant becomes revoked. */
  function CloseSessions(sessions: map<Id, Session>, user: Id, tenant: Id): map<Id, Session> {
    map s | s in sessions ::
      if sessions[s].user == user && sessions[s].tenant == Some(tenant) && sessions[s].status == Open
      then sessions[s].(status := Revoked) else sessions[s]
  }

  ghost function UpdateStatus(db: Db, tenant: Id, m: Id, status: MemberStatus): Step {
    if !MemberInTenant(db, tenant, m) then (db, Fail(MembershipNotFound))
    else
      var user := db.memberships[m].user;
      if tenant in db.tenants && db.tenants[tenant].owner == user && status != Active then (db, Fail(CannotModifyOwner))
      else
        var ms := db.memberships[m := db.memberships[m].(status := status, version := db.memberships[m].version + 1)];
        (db.(memberships := ms,
             sessions := if status == Active then db.sessions else CloseSessions(db.sessions, user, tenant)),
         Done(m))
  }

  function WithoutMember(rows: map<Id, Assignment>, tenant: Id, m: Id): map<Id, Assignment> {
    map a | a in rows && !(rows[a].tenant == tenant && rows[a].membership == m) :: rows[a]
  }

  /** One fresh tenant-wide row for each listed role, numbered from `next`. */
  function FreshRows(tenant: Id, m: Id, roleIds: seq<Id>, next: Id): (rows: map<Id, Assignment>)
    ensures forall a :: a in rows <==> next <= a < next + |roleIds|
    ensures forall a | a in rows :: rows[a] == Assignment(tenant, m, roleIds[a - next], TenantScope, None)
  {
    if roleIds == [] then map[]
    else
      var last := |roleIds| - 1;
      FreshRows(tenant, m, roleIds[..last], next)[next + last := Assignment(tenant, m, roleIds[last], TenantScope, None)]
  }

  /** The listed roles that the tenant has; the query returns each of them once. */
  function FoundRoles(db: Db, tenant: Id, roleIds: seq<Id>): set<Id> {
    set r | r in roleIds && RoleInTenant(db, tenant, r)
  }

  ghost function UpdateRoles(db: Db, tenant: Id, m: Id, roleIds: seq<Id>): Step {
    if !MemberInTenant(db, tenant, m) then (db, Fail(MembershipNotFound))
    else if |FoundRoles(db, tenant, roleIds)| != |roleIds| then (db, Fail(RoleNotFound))
    else
      (db.(assignments := WithoutMember(db.assignments, tenant, m) + FreshRows(tenant, m, roleIds, db.next),
           memberships := Bump(db.memberships, m), next := db.next + |roleIds|),
       Done(m))
  }

  // ---- Invitations (invitations.service.ts) -------------------------------------

  const INVITE_TTL_MS: int := 7 * 24 * 60 * 60 * 1000

  /** An explicit role id, or else the role with the given key, by default the light user. */
  ghost function InvitedRole(db: Db, tenant: Id, roleId: Option<Id>, roleKey: Option<string>): Option<Id> {
    match roleId
    case Some(r) => if RoleInTenant(db, tenant, r) then Some(r) else None
    case None => RoleByKey(db.roles, tenant, if roleKey.Some? then roleKey.value else LIGHT_USER)
  }

  ghost predicate AlreadyActive(db: Db, tenant: Id, email: string) {
    match UserByEmail(db.users, email)
    case None => false
    case Some(u) =>
      match MembershipOf(db.memberships, tenant, u)
      case None => false
      case Some(m) => db.memberships[m].status == Active
  }

  function WithdrawPending(invites: map<Id, Invitation>, tenant: Id, email: string): map<Id, Invitation> {
    map i | i in invites ::
      if invites[i].tenant == tenant && invites[i].email == email && invites[i].status == Pending
      then invites[i].(status := Withdrawn) else invites[i]
  }

  function Invited(db: Db, tenant: Id, email: string, role: Id, now: int): Db {
    var row := Invitation(tenant, email, role, Pending, db.next + 1, now + INVITE_TTL_MS);
    db.(invitations := WithdrawPending(db.invitations, tenant, email)[db.next := row], next := db.next + 2)
  }

  ghost function Invite(db: Db, tenant: Id, email: string, roleId: Option<Id>, roleKey: Option<string>, now: int): Step {
    match InvitedRole(db, tenant, roleId, roleKey)
    case None => (db, Fail(RoleNotFound))
    case Some(role) =>
      if AlreadyActive(db, tenant, email) then (db, Fail(AlreadyMember))
      else (Invited(db, tenant, email, role, now), Done(db.next))
  }

  predicate PendingInTenant(db: Db, tenant: Id, i: Id) {
    i in db.invitations && db.invitations[i].tenant == tenant && db.invitations[i].status == Pending
  }

  /** Resending replaces the token, so the link mailed before is dead. */
  ghost function Resend(db: Db, tenant: Id, i: Id, now: int): Step {
    if !PendingInTenant(db, tenant, i) then (db, Fail(InvitationInvalid))
    else
      (db.(invitations := db.invitations[i := db.invitations[i].(token := db.next, expiresAt := now + INVITE_TTL_MS)],
           next := db.next + 1),
       Done(i))
  }

  ghost function WithdrawInvite(db: Db, tenant: Id, i: Id): Step {
    if !PendingInTenant(db, tenant, i) then (db, Fail(InvitationInvalid))
    else (db.(invitations := db.invitations[i := db.invitations[i].(status := Withdrawn)]), Done(i))
  }

  ghost predicate Acceptable(db: Db, token: Id, now: int) {
    var i := InviteByToken(db.invitations, token);
    i.Some? && db.invitations[i.value].status == Pending && now <= db.invitations[i.value].expiresAt
  }

  /** The user the invitation belongs to: the holder of its address, or a new row at `next`. */
  ghost function Invitee(db: Db, email: string): Id {
    match UserByEmail(db.users, email)
    case Some(u) => u
    case None => db.next
  }

  /** The membership that acceptance activates: the existing one, or a new row at `next + 1`. */
  ghost function InviteeMembership(db: Db, tenant: Id, email: string): Id {
    match MembershipOf(db.memberships, tenant, Invitee(db, email))
    case Some(m) => m
    case None => db.next + 1
  }

  /** The memberships after the upsert: active, and with the version an existing row already had. */
  ghost function Activated(db: Db, tenant: Id, email: string): map<Id, Membership> {
    var m := InviteeMembership(db, tenant, email);
    if m in db.memberships then db.memberships[m := db.memberships[m].(status := Active)]
    else db.memberships[m := Membership(tenant, Invitee(db, email), Active, 1)]
  }

  /** The upsert of the offered role: nothing when the membership already holds it, in any scope. */
  ghost function JoinRows(db: Db, i: Id): map<Id, Assignment>
    requires i in db.invitations
  {
    var inv := db.invitations[i];
    var m := InviteeMembership(db, inv.tenant, inv.email);
    if Holds(db.assignments, inv.tenant, m, inv.role) then db.assignments
    else db.assignments[db.next + 2 := Assignment(inv.tenant, m, inv.role, TenantScope, None)]
  }

  /** The transaction behind a valid invitation: user, membership, assignment, and the row itself. */
  ghost function Join(db: Db, i: Id): Db
    requires i in db.invitations
  {
    var inv := db.invitations[i];
    db.(users := db.users[Invitee(db, inv.email) := User(inv.email)],
        memberships := Activated(db, inv.tenant, inv.email),
        assignments := JoinRows(db, i),
        invitations := db.invitations[i := inv.(status := Accepted)],
        next := db.next + 3)
  }

  ghost function Accept(db: Db, token: Id, now: int): Step {
    if !Acceptable(db, token, now) then (db, Fail(InvitationInvalid))
    else
      var i := InviteByToken(db.invitations, token).value;
      (Join(db, i), Done(InviteeMembership(db, db.invitations[i].tenant, db.invitations[i].email)))
  }

  // ---- Signup's transaction (auth.service.ts) -------------------------------------

  /** The new user takes id `next`, the tenant `next + 1`, the owner's membership `next + 2`, its
      assignment `next + 3`; `roles` is the table with the tenant's provisioned roles in it. */
  function NewTenant(db: Db, email: string, slug: string, roles: map<Id, Role>, ownerRole: Id, next: Id): Db {
    db.(users := db.users[db.next := User(email)],
        tenants := db.tenants[db.next + 1 := Tenant(slug, Running, db.next, 1)],
        roles := roles,
        memberships := db.memberships[db.next + 2 := Membership(db.next + 1, db.next, Active, 1)],
        assignments := db.assignments[db.next + 3 := Assignment(db.next + 1, db.next + 2, ownerRole, TenantScope, None)],
        next := next)
  }

  ghost function SignUp(db: Db, email: string, slug: string): Step {
    if UserByEmail(db.users, email).Some? then (db, Fail(EmailTaken))
    else if exists t :: HasSlug(db.tenants, t, slug) then (db, Fail(SlugTaken))
    else
      var roles := Provision(db.roles, db.permissions, db.next + 1, SYSTEM_ROLES, db.next + 4);
      var ownerRole := RoleByKey(roles, db.next + 1, OWNER);
      if ownerRole.None? then (db, Fail(RoleNotFound))
      else (NewTenant(db, email, slug, roles, ownerRole.value, db.next + 4 + |SYSTEM_ROLES|), Done(db.next + 2))
  }

  // ---- Issuing and refreshing sessions (auth.service.ts, membership-context.service.ts) ----

  predicate Flying(db: Db, f: Id) {
    f in db.flights && !db.flights[f].failed
  }

  function SetFlight(db: Db, f: Id, flight: Flight): Db {
    db.(flights := db.flights[f := flight])
  }

  /** `issueSession` for any user and tenant: login, signup and invitation acceptance all end here. */
  function StartIssue(db: Db, user: Id, tenant: Id): Step {
    (db.(flights := db.flights[db.next := Flight(user, tenant, None, true, false, None, None, None, map[])], next := db.next + 1),
     Done(db.next))
  }

  /** The session row, written in parallel with `resolve` and kept even when `resolve` throws. */
  function CreateSession(db: Db, f: Id, expiresAt: int): Step {
    if f !in db.flights || db.flights[f].session.Some? then (db, Fail(NotReady))
    else
      var flight := db.flights[f];
      (db.(sessions := db.sessions[db.next := Session(flight.user, Some(flight.tenant), Open, expiresAt)],
           flights := db.flights[f := flight.(session := Some(db.next))], next := db.next + 1),
       Done(db.next))
  }

  /** A missing tenant makes the call throw. */
  function SeeTenant(db: Db, flight: Flight): Flight {
    if flight.tenant in db.tenants then flight.(rbacVersion := Some(db.tenants[flight.tenant].rbacVersion))
    else flight.(failed := true)
  }

  function ReadTenant(db: Db, f: Id): Step {
    if !Flying(db, f) || db.flights[f].rbacVersion.Some? then (db, Fail(NotReady))
    else (SetFlight(db, f, SeeTenant(db, db.flights[f])), Done(f))
  }

  /** So does a missing membership, or one that is not active. */
  ghost function SeeMembership(db: Db, flight: Flight): Flight {
    var m := MembershipOf(db.memberships, flight.tenant, flight.user);
    if m.Some? && db.memberships[m.value].status == Active then
      flight.(member := Some(Seen(m.value, db.memberships[m.value].version)))
    else flight.(failed := true)
  }

  ghost function ReadMembership(db: Db, f: Id): Step {
    if !Flying(db, f) || db.flights[f].member.Some? then (db, Fail(NotReady))
    else (SetFlight(db, f, SeeMembership(db, db.flights[f])), Done(f))
  }

  /** Both first reads are awaited before the assignments are queried. */
  function ReadAssignments(db: Db, f: Id): Step {
    if !Flying(db, f) || db.flights[f].rows.Some? || db.flights[f].rbacVersion.None? || db.flights[f].member.None? then
      (db, Fail(NotReady))
    else
      var flight := db.flights[f];
      (SetFlight(db, f, flight.(rows := Some(RowsOf(db.assignments, flight.tenant, flight.member.value.id)))), Done(f))
  }

  predicate Wants(flight: Flight, role: Id) {
    flight.rows.Some? && exists a :: a in flight.rows.value && flight.rows.value[a].role == role
  }

  function SeeRole(db: Db, flight: Flight, role: Id): Flight {
    if role in db.roles then flight.(roles := flight.roles[role := db.roles[role]])
    else flight.(failed := true)
  }

  /** The included role and its permission links, read role by role. */
  function ReadRole(db: Db, f: Id, role: Id): Step {
    if !Flying(db, f) || !Wants(db.flights[f], role) || role in db.flights[f].roles then (db, Fail(NotReady))
    else (SetFlight(db, f, SeeRole(db, db.flights[f], role)), Done(f))
  }

  predicate Resolved(flight: Flight) {
    && flight.rbacVersion.Some? && flight.member.Some? && flight.rows.Some?
    && forall a | a in flight.rows.value :: flight.rows.value[a].role in flight.roles
  }

  /** The claims signed from what the flight collected. */
  function ClaimsOf(permissions: map<Id, Permission>, slug: string, flight: Flight): Claims
    requires Resolved(flight) && flight.session.Some?
  {
    var rows := flight.rows.value;
    Claims(flight.user, flight.session.value, flight.tenant, slug, flight.member.value.id,
           RoleKeys(rows, flight.roles), KeysOf(permissions, Granted(rows, flight.roles)), ScopeOf(rows),
           flight.rbacVersion.value, flight.member.value.version)
  }

  /** The end of the call: a login's first refresh token, in a family of its own, and the access token. */
  function Finish(db: Db, f: Id, slug: string, expiresAt: int): Step {
    if !Flying(db, f) || db.flights[f].session.None? || !Resolved(db.flights[f]) then (db, Fail(NotReady))
    else
      var flight := db.flights[f];
      var token := RefreshToken(flight.session.value, db.next + 1, None, false, expiresAt);
      (db.(refreshTokens := if flight.mints then db.refreshTokens[db.next := token] else db.refreshTokens,
           issued := db.issued + {ClaimsOf(db.permissions, slug, flight)},
           flights := db.flights - {f}, next := db.next + 2),
       Done(db.next))
  }

  function RevokeFamily(tokens: map<Id, RefreshToken>, family: Id): map<Id, RefreshToken> {
    map t | t in tokens :: if tokens[t].family == family then tokens[t].(revoked := true) else tokens[t]
  }

  function RevokeSessionTokens(tokens: map<Id, RefreshToken>, session: Id): map<Id, RefreshToken> {
    map t | t in tokens :: if tokens[t].session == session then tokens[t].(revoked := true) else tokens[t]
  }

  predicate OpenSession(sessions: map<Id, Session>, s: Id, now: int) {
    s in sessions && sessions[s].status == Open && now <= sessions[s].expiresAt
  }

  predicate Spent(token: RefreshToken) {
    token.revoked || token.replacedBy.Some?
  }

  function CloseSession(sessions: map<Id, Session>, s: Id): map<Id, Session> {
    if s in sessions then sessions[s := sessions[s].(status := Revoked)] else sessions
  }

  /** A token that was rotated or revoked before is replayed: its family and its session die. */
  function KillFamily(db: Db, token: RefreshToken): Db {
    db.(refreshTokens := RevokeFamily(db.refreshTokens, token.family), sessions := CloseSession(db.sessions, token.session))
  }

  /** The successor takes id `next` in the same family, and the running `resolve` id `next + 1`. */
  function Rotate(db: Db, t: Id, token: RefreshToken, user: Id, tenant: Id, expiresAt: int): Db {
    var successor := RefreshToken(token.session, token.family, None, false, expiresAt);
    db.(refreshTokens := db.refreshTokens[db.next := successor][t := token.(revoked := true, replacedBy := Some(db.next))],
        flights := db.flights[db.next + 1 := Flight(user, tenant, Some(token.session), false, false, None, None, None, map[])],
        next := db.next + 2)
  }

  /** Rotation with reuse detection. The outcome of a rotation names the new token. */
  function Refresh(db: Db, t: Id, now: int, expiresAt: int): Step {
    if t !in db.refreshTokens then (db, Fail(InvalidRefresh))
    else
      var token := db.refreshTokens[t];
      if Spent(token) then (KillFamily(db, token), Fail(RefreshReuse))
      else if token.expiresAt < now then (db, Fail(RefreshExpired))
      else if !OpenSession(db.sessions, token.session, now) then (db, Fail(SessionInvalid))
      else
        var session := db.sessions[token.session];
        if session.tenant.None? then (db, Fail(NoTenant))
        else if session.tenant.value !in db.tenants then (db, Fail(TenantNotFound))
        else (Rotate(db, t, token, session.user, session.tenant.value, expiresAt), Done(db.next))
  }

  function Logout(db: Db, s: Id): Step {
    (db.(sessions := CloseSession(db.sessions, s), refreshTokens := RevokeSessionTokens(db.refreshTokens, s)), Done(s))
  }

  /** The session is revoked only for its own user; its refresh tokens are revoked either way. */
  function RevokeSession(db: Db, user: Id, s: Id): Step {
    (db.(sessions := if s in db.sessions && db.sessions[s].user == user then CloseSession(db.sessions, s) else db.sessions,
         refreshTokens := RevokeSessionTokens(db.refreshTokens, s)),
     Done(s))
  }

  // ---- The guard (auth.guard.ts) ---------------------------------------------------

  datatype Verdict =
    | Admitted | SessionClosed | TenantInactive | MembershipInactive | TokenStale | TenantMismatch | RoleMismatch

  /** `canActivate` on the three rows it reads, each possibly missing, and the two optional headers. */
  function GuardRows(c: Claims, session: Option<Session>, tenant: Option<Tenant>, member: Option<Membership>,
                     now: int, slugHeader: Option<string>, roleHeader: Option<string>): Verdict
  {
    if session.None? || session.value.status != Open || session.value.expiresAt < now then SessionClosed
    else if tenant.None? || tenant.value.status !in {Running, Trialing} then TenantInactive
    else if member.None? || member.value.status != Active then MembershipInactive
    else if tenant.value.rbacVersion != c.rbacVersion || member.value.version != c.memberVersion then TokenStale
    else if slugHeader.Some? && slugHeader.value != "" && slugHeader.value != c.slug then TenantMismatch
    else if roleHeader.Some? && roleHeader.value != "" && roleHeader.value !in c.roles then RoleMismatch
    else Admitted
  }

  function Row<T>(table: map<Id, T>, id: Id): Option<T> {
    if id in table then Some(table[id]) else None
  }

  /** The guard when all three reads see the same database. */
  function Guard(db: Db, c: Claims, now: int, slugHeader: Option<string>, roleHeader: Option<string>): Verdict {
    GuardRows(c, Row(db.sessions, c.session), Row(db.tenants, c.tenant), Row(db.memberships, c.membership),
              now, slugHeader, roleHeader)
  }

  // ---- Runs ----------------------------------------------------------------------

  datatype IamOp =
    | OpCreateRole(tenant: Id, key: string, keys: set<string>)
    | OpDeleteRole(tenant: Id, role: Id)
    | OpSetRolePermissions(tenant: Id, role: Id, ids: set<Id>, keys: set<string>)
    | OpCreateAssignment(tenant: Id, member: Id, role: Id, scopeType: ScopeType, scopeId: Option<Id>)
    | OpDeleteAssignment(tenant: Id, assignment: Id)

  datatype TeamOp =
    | OpUpdateStatus(tenant: Id, member: Id, status: MemberStatus)
    | OpUpdateRoles(tenant: Id, member: Id, roleIds: seq<Id>)

  datatype InviteOp =
    | OpInvite(tenant: Id, email: string, roleId: Option<Id>, roleKey: Option<string>, now: int)
    | OpResend(tenant: Id, invitation: Id, now: int)
    | OpWithdrawInvite(tenant: Id, invitation: Id)
    | OpAccept(token: Id, now: int)

  datatype SessionOp =
    | OpCreateSession(flight: Id, expiresAt: int)
    | OpFinish(flight: Id, slug: string, expiresAt: int)
    | OpRefresh(token: Id, now: int, expiresAt: int)
    | OpLogout(session: Id)
    | OpRevokeSession(user: Id, session: Id)

  datatype ReadOp =
    | OpStartIssue(user: Id, tenant: Id)
    | OpReadTenant(flight: Id)
    | OpReadMembership(flight: Id)
    | OpReadAssignments(flight: Id)
    | OpReadRole(flight: Id, role: Id)

  /** One atomic step of the system, by the service that takes it. */
  datatype Op =
    | Signup(email: string, slug: string)
    | Iam(iam: IamOp)
    | Team(team: TeamOp)
    | Inviting(inviting: InviteOp)
    | Auth(auth: SessionOp)
    | Resolving(resolving: ReadOp)

  ghost function DoIam(db: Db, op: IamOp): Step {
    match op
    case OpCreateRole(t, key, keys) => CreateRole(db, t, key, keys)
    case OpDeleteRole(t, r) => DeleteRole(db, t, r)
    case OpSetRolePermissions(t, r, ids, keys) => SetRolePermissions(db, t, r, ids, keys)
    case OpCreateAssignment(t, m, r, scopeType, scopeId) => CreateAssignment(db, t, m, r, scopeType, scopeId)
    case OpDeleteAssignment(t, a) => DeleteAssignment(db, t, a)
  }

  ghost function DoTeam(db: Db, op: TeamOp): Step {
    match op
    case OpUpdateStatus(t, m, status) => UpdateStatus(db, t, m, status)
    case OpUpdateRoles(t, m, roleIds) => UpdateRoles(db, t, m, roleIds)
  }

  ghost function DoInviting(db: Db, op: InviteOp): Step {
    match op
    case OpInvite(t, email, roleId, roleKey, now) => Invite(db, t, email, roleId, roleKey, now)
    case OpResend(t, i, now) => Resend(db, t, i, now)
    case OpWithdrawInvite(t, i) => WithdrawInvite(db, t, i)
    case OpAccept(token, now) => Accept(db, token, now)
  }

  ghost function DoAuth(db: Db, op: SessionOp): Step {
    match op
    case OpCreateSession(f, expiresAt) => CreateSession(db, f, expiresAt)
    case OpFinish(f, slug, expiresAt) => Finish(db, f, slug, expiresAt)
    case OpRefresh(t, now, expiresAt) => Refresh(db, t, now, expiresAt)
    case OpLogout(s) => Logout(db, s)
    case OpRevokeSession(u, s) => RevokeSession(db, u, s)
  }

  ghost function DoResolving(db: Db, op: ReadOp): Step {
    match op
    case OpStartIssue(u, t) => StartIssue(db, u, t)
    case OpReadTenant(f) => ReadTenant(db, f)
    case OpReadMembership(f) => ReadMembership(db, f)
    case OpReadAssignments(f) => ReadAssignments(db, f)
    case OpReadRole(f, r) => ReadRole(db, f, r)
  }

  ghost function Do(db: Db, op: Op): Step {
    match op
    case Signup(email, slug) => SignUp(db, email, slug)
    case Iam(iam) => DoIam(db, iam)
    case Team(team) => DoTeam(db, team)
    case Inviting(inviting) => DoInviting(db, inviting)
    case Auth(auth) => DoAuth(db, auth)
    case Resolving(resolving) => DoResolving(db, resolving)
  }

  ghost function Run(db: Db, ops: seq<Op>): Db
    decreases |ops|
  {
    if ops == [] then db else Run(Do(db, ops[0]).0, ops[1..])
  }
}
