/** The rows of the authorisation tables, and the whole database state as one value.

    Every id, token hash and family id is drawn from one counter, `next`, which
    stands for the freshness of uuids and random tokens. */
module Tables {

  datatype Option<+T> = None | Some(value: T)

  type Id = nat

  datatype TenantStatus = Trialing | Running | Halted | Cancelled
  datatype MemberStatus = Active | Suspended | Removed
  datatype SessionStatus = Open | Revoked
  datatype InviteStatus = Pending | Accepted | Withdrawn
  datatype ScopeType = TenantScope | StoreScope

  datatype User = User(email: string)

  datatype Tenant = Tenant(slug: string, status: TenantStatus, owner: Id, rbacVersion: nat)

  /** A permission with no tenant is a global, seeded one. */
  datatype Permission = Permission(tenant: Option<Id>, key: string)

  datatype Role = Role(tenant: Id, key: string, isSystem: bool, permissions: set<Id>)

  datatype Membership = Membership(tenant: Id, user: Id, status: MemberStatus, version: nat)

  datatype Assignment = Assignment(tenant: Id, membership: Id, role: Id, scopeType: ScopeType, scopeId: Option<Id>)

  datatype Invitation = Invitation(tenant: Id, email: string, role: Id, status: InviteStatus, token: Id, expiresAt: int)

  datatype Session = Session(user: Id, tenant: Option<Id>, status: SessionStatus, expiresAt: int)

  datatype RefreshToken = RefreshToken(session: Id, family: Id, replacedBy: Option<Id>, revoked: bool, expiresAt: int)

  /** What `resolve` remembers of the membership row it read. */
  datatype Seen = Seen(id: Id, version: nat)

  /** One running `issueSession` or `refresh` call, whose `resolve` reads its rows one
      query at a time while other transactions commit in between. A login mints its
      first refresh token at the end; a refresh has already rotated its own. */
  datatype Flight = Flight(
    user: Id, tenant: Id, session: Option<Id>, mints: bool, failed: bool,
    rbacVersion: Option<nat>, member: Option<Seen>,
    rows: Option<map<Id, Assignment>>, roles: map<Id, Role>)

  /** The claims signed into an access token. */
  datatype Claims = Claims(
    user: Id, session: Id, tenant: Id, slug: string, membership: Id,
    roles: set<string>, permissions: set<string>, storeScope: set<Id>,
    rbacVersion: nat, memberVersion: nat)

  datatype Db = Db(
    users: map<Id, User>,
    tenants: map<Id, Tenant>,
    permissions: map<Id, Permission>,
    roles: map<Id, Role>,
    memberships: map<Id, Membership>,
    assignments: map<Id, Assignment>,
    invitations: map<Id, Invitation>,
    sessions: map<Id, Session>,
    refreshTokens: map<Id, RefreshToken>,
    flights: map<Id, Flight>,
    issued: set<Claims>,
    next: Id)

  /** The database after seeding: a permission catalogue and nothing else. */
  function Seeded(catalogue: map<Id, Permission>, next: Id): Db {
    Db(map[], map[], catalogue, map[], map[], map[], map[], map[], map[], map[], {}, next)
  }

  datatype Error =
    | RoleExists | RoleNotFound | SystemRole | RoleInUse | RoleReferenced
    | MembershipNotFound | AssignmentNotFound | AssignmentExists
    | CannotModifyOwner | AlreadyMember | InvitationInvalid
    | EmailTaken | SlugTaken | TenantNotFound | NotReady
    | InvalidRefresh | RefreshReuse | RefreshExpired | SessionInvalid | NoTenant

  datatype Outcome = Done(id: Id) | Fail(error: Error)

  // ---- Lookups by a unique key ------------------------------------------------

  predicate HasEmail(users: map<Id, User>, u: Id, email: string) {
    u in users && users[u].email == email
  }

  ghost function UserByEmail(users: map<Id, User>, email: string): (r: Option<Id>)
    ensures r.Some? ==> HasEmail(users, r.value, email)
    ensures r.None? ==> forall u | u in users :: !HasEmail(users, u, email)
  {
    if exists u :: HasEmail(users, u, email) then
      var u :| HasEmail(users, u, email);
      Some(u)
    else None
  }

  predicate IsMember(ms: map<Id, Membership>, m: Id, tenant: Id, user: Id) {
    m in ms && ms[m].tenant == tenant && ms[m].user == user
  }

  ghost function MembershipOf(ms: map<Id, Membership>, tenant: Id, user: Id): (r: Option<Id>)
    ensures r.Some? ==> IsMember(ms, r.value, tenant, user)
    ensures r.None? ==> forall m | m in ms :: !IsMember(ms, m, tenant, user)
  {
    if exists m :: IsMember(ms, m, tenant, user) then
      var m :| IsMember(ms, m, tenant, user);
      Some(m)
    else None
  }

  predicate HasKey(roles: map<Id, Role>, r: Id, tenant: Id, key: string) {
    r in roles && roles[r].tenant == tenant && roles[r].key == key
  }

  ghost function RoleByKey(roles: map<Id, Role>, tenant: Id, key: string): (r: Option<Id>)
    ensures r.Some? ==> HasKey(roles, r.value, tenant, key)
    ensures r.None? ==> forall x | x in roles :: !HasKey(roles, x, tenant, key)
  {
    if exists x :: HasKey(roles, x, tenant, key) then
      var x :| HasKey(roles, x, tenant, key);
      Some(x)
    else None
  }

  predicate HasToken(invites: map<Id, Invitation>, i: Id, token: Id) {
    i in invites && invites[i].token == token
  }

  ghost function InviteByToken(invites: map<Id, Invitation>, token: Id): (r: Option<Id>)
    ensures r.Some? ==> HasToken(invites, r.value, token)
    ensures r.None? ==> forall i | i in invites :: !HasToken(invites, i, token)
  {
    if exists i :: HasToken(invites, i, token) then
      var i :| HasToken(invites, i, token);
      Some(i)
    else None
  }

  predicate HasSlug(tenants: map<Id, Tenant>, t: Id, slug: string) {
    t in tenants && tenants[t].slug == slug
  }

  // ---- What a membership may do -----------------------------------------------

  /** The assignment rows `resolve` selects: filtered by tenant and by membership. */
  function RowsOf(rows: map<Id, Assignment>, tenant: Id, m: Id): map<Id, Assignment> {
    map a | a in rows && rows[a].tenant == tenant && rows[a].membership == m :: rows[a]
  }

  /** The permission ids that a set of assignment rows carries. */
  function Granted(rows: map<Id, Assignment>, roles: map<Id, Role>): set<Id> {
    set a, p | a in rows && rows[a].role in roles && p in roles[rows[a].role].permissions :: p
  }

  function RoleKeys(rows: map<Id, Assignment>, roles: map<Id, Role>): set<string> {
    set a | a in rows && rows[a].role in roles :: roles[rows[a].role].key
  }

  function KeysOf(permissions: map<Id, Permission>, ids: set<Id>): set<string> {
    set p | p in ids && p in permissions :: permissions[p].key
  }

  predicate HasTenantRow(rows: map<Id, Assignment>) {
    exists a :: a in rows && rows[a].scopeType == TenantScope
  }

  /** An empty scope stands for every store of the tenant. */
  function ScopeOf(rows: map<Id, Assignment>): set<Id> {
    if HasTenantRow(rows) then {} else
      set a | a in rows && rows[a].scopeId.Some? :: rows[a].scopeId.value
  }

  predicate Sees(scope: set<Id>, store: Id) {
    scope == {} || store in scope
  }

  function LiveRows(db: Db, m: Id): map<Id, Assignment>
    requires m in db.memberships
  {
    RowsOf(db.assignments, db.memberships[m].tenant, m)
  }

  /** The permission keys a membership holds right now. */
  function LivePermissions(db: Db, m: Id): set<string>
    requires m in db.memberships
  {
    KeysOf(db.permissions, Granted(LiveRows(db, m), db.roles))
  }

  function LiveScope(db: Db, m: Id): set<Id>
    requires m in db.memberships
  {
    ScopeOf(LiveRows(db, m))
  }
}
