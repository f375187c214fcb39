/** When the guard admits, when a refresh token is rotated, what the clock ends for good, and that a
    login ends in a token that the guard admits. */
module Issuing {
  import opened Tables
  import opened Provisioning
  import opened Handlers
  import opened Integrity
  import opened Sessions

  // ---- The guard ---------------------------------------------------------------------------------

  predicate Usable(session: Option<Session>, now: int) {
    session.Some? && session.value.status == Open && now <= session.value.expiresAt
  }

  predicate InBusiness(tenant: Option<Tenant>) {
    tenant.Some? && (tenant.value.status == Running || tenant.value.status == Trialing)
  }

  predicate Working(member: Option<Membership>) {
    member.Some? && member.value.status == Active
  }

  /** A header that is absent or empty says nothing. */
  predicate Agrees(header: Option<string>, allowed: set<string>) {
    header.None? || header.value == "" || header.value in allowed
  }

  predicate UpToDate(c: Claims, tenant: Tenant, member: Membership) {
    c.rbacVersion == tenant.rbacVersion && c.memberVersion == member.version
  }

  function When(objects: bool, v: Verdict): seq<Verdict> {
    if objects then [v] else []
  }

  /** All that speaks against a request, in the order in which it is looked at. */
  function Objections(c: Claims, session: Option<Session>, tenant: Option<Tenant>, member: Option<Membership>,
                      now: int, slugHeader: Option<string>, roleHeader: Option<string>): seq<Verdict>
  {
    When(!Usable(session, now), SessionClosed) + When(!InBusiness(tenant), TenantInactive) + When(!Working(member), MembershipInactive)
    + When(tenant.Some? && member.Some? && !UpToDate(c, tenant.value, member.value), TokenStale)
    + When(!Agrees(slugHeader, {c.slug}), TenantMismatch) + When(!Agrees(roleHeader, c.roles), RoleMismatch)
  }

  /** The guard admits exactly when nothing speaks against it, and otherwise names the first objection. */
  lemma VerdictIsFirstObjection(c: Claims, session: Option<Session>, tenant: Option<Tenant>, member: Option<Membership>,
                                now: int, slugHeader: Option<string>, roleHeader: Option<string>)
    ensures var (v, objections) := (GuardRows(c, session, tenant, member, now, slugHeader, roleHeader),
                                    Objections(c, session, tenant, member, now, slugHeader, roleHeader));
            v == if objections == [] then Admitted else objections[0]
    ensures GuardRows(c, session, tenant, member, now, slugHeader, roleHeader) == Admitted <==>
              && Usable(session, now) && InBusiness(tenant) && Working(member) && UpToDate(c, tenant.value, member.value)
              && Agrees(slugHeader, {c.slug}) && Agrees(roleHeader, c.roles)
  {
  }

  // ---- The session's own end -----------------------------------------------------------------------

  lemma CreateSessionStays(db: Db, f: Id, expiresAt: int)
    requires Below(db.sessions, db.next)
    ensures SessionsStay(db, CreateSession(db, f, expiresAt).0)
  {
  }

  lemma RefreshSessions(db: Db, t: Id, now: int, expiresAt: int)
    ensures SessionsStay(db, Refresh(db, t, now, expiresAt).0)
  {
    hide Refresh;
    RefreshCases(db, t, now, expiresAt);
  }

  lemma AuthSessions(db: Db, op: SessionOp)
    requires Below(db.sessions, db.next)
    ensures SessionsStay(db, DoAuth(db, op).0)
  {
    hide CreateSession, Finish, Refresh, RevokeSessionTokens;
    match op
    case OpCreateSession(f, expiresAt) => CreateSessionStays(db, f, expiresAt);
    case OpFinish(f, slug, expiresAt) => FinishFrame(db, f, slug, expiresAt);
    case OpRefresh(t, now, expiresAt) => RefreshSessions(db, t, now, expiresAt);
    case OpLogout(_) =>
    case OpRevokeSession(_, _) =>
  }

  lemma StepSessions(db: Db, op: Op)
    requires Fresh(db)
    ensures SessionsStay(db, Do(db, op).0)
  {
    hide DoAuth, DoTeam, DoResolving;
    match op
    case Auth(auth) => AuthSessions(db, auth);
    case Team(team) => TeamSessions(db, team);
    case Resolving(resolving) => ResolvingFrame(db, resolving);
    case _ => WriterFrame(db, op);
  }

  lemma {:induction false} RunSessions(db: Db, ops: seq<Op>)
    requires Sound(db)
    ensures SessionsStay(db, Run(db, ops))
    decreases |ops|
  {
    if ops != [] {
      hide Do;
      StepSessions(db, ops[0]);
      StepSound(db, ops[0]);
      RunSessions(Do(db, ops[0]).0, ops[1..]);
      hide Sound;
    }
  }

  /** No step moves the end of a session: once it has passed, the guard refuses every token of the
      session and refresh every refresh token of it, in every continuation. */
  lemma {:induction false} ExpiredSessionStaysOut(db: Db, s: Id, ops: seq<Op>, now: int, u: Id, until: int,
                               c: Claims, tenant: Option<Tenant>, member: Option<Membership>,
                               slugHeader: Option<string>, roleHeader: Option<string>)
    requires Reachable(db) && s in db.sessions
    ensures var db' := Run(db, ops);
            && s in db'.sessions && db'.sessions[s].expiresAt == db.sessions[s].expiresAt
            && (db.sessions[s].expiresAt < now ==>
                  && (c.session == s ==>
                        GuardRows(c, Row(db'.sessions, s), tenant, member, now, slugHeader, roleHeader) == SessionClosed)
                  && (u in db'.refreshTokens && db'.refreshTokens[u].session == s ==> Refresh(db', u, now, until).1.Fail?))
  {
    hide Reachable, Sound, Run;
    ReachableSound(db);
    RunSessions(db, ops);
  }

  // ---- Refresh -------------------------------------------------------------------------------------

  predicate Unspent(token: RefreshToken) {
    !token.revoked && token.replacedBy.None?
  }

  /** The session of the token, if there is one, names a tenant that exists. */
  predicate Placed(db: Db, s: Id) {
    s in db.sessions && db.sessions[s].tenant.Some? && db.sessions[s].tenant.value in db.tenants
  }

  /** A token is rotated exactly when it is known, unspent and in time, its session is usable and the
      session's tenant exists; otherwise the first of these that fails is named. */
  lemma RefreshTable(db: Db, t: Id, now: int, expiresAt: int)
    ensures var (known, r) := (t in db.refreshTokens, Refresh(db, t, now, expiresAt).1);
            && (r.Done? <==> known && Unspent(db.refreshTokens[t]) && now <= db.refreshTokens[t].expiresAt
                             && Usable(Row(db.sessions, db.refreshTokens[t].session), now) && Placed(db, db.refreshTokens[t].session))
            && (r == Fail(InvalidRefresh) <==> !known)
            && (r == Fail(RefreshReuse) <==> known && !Unspent(db.refreshTokens[t]))
            && (r == Fail(RefreshExpired) <==> known && Unspent(db.refreshTokens[t]) && db.refreshTokens[t].expiresAt < now)
            && (r == Fail(SessionInvalid) <==> known && Unspent(db.refreshTokens[t]) && now <= db.refreshTokens[t].expiresAt
                                               && !Usable(Row(db.sessions, db.refreshTokens[t].session), now))
  {
    hide KillFamily, Rotate;
  }

  lemma {:induction false} RunTokens(db: Db, ops: seq<Op>, t: Id)
    requires Sound(db) && t in db.refreshTokens
    ensures var tokens := Run(db, ops).refreshTokens;
            t in tokens && tokens[t].expiresAt == db.refreshTokens[t].expiresAt && tokens[t].session == db.refreshTokens[t].session
    decreases |ops|
  {
    if ops != [] {
      hide Do;
      Sessions.StepAges(db, ops[0]);
      StepSound(db, ops[0]);
      RunTokens(Do(db, ops[0]).0, ops[1..], t);
      hide Sound;
    }
  }

  /** No step moves the end of a refresh token: once it has passed, the token is never rotated, in any
      continuation; it is refused as expired, or as reused when it was spent before. */
  lemma {:induction false} ExpiredTokenStaysOut(db: Db, t: Id, ops: seq<Op>, now: int, until: int)
    requires Reachable(db) && t in db.refreshTokens && db.refreshTokens[t].expiresAt < now
    ensures Refresh(Run(db, ops), t, now, until).1 in {Fail(RefreshExpired), Fail(RefreshReuse)}
  {
    hide Reachable, Sound, Run;
    ReachableSound(db);
    RunTokens(db, ops, t);
    RefreshTable(Run(db, ops), t, now, until);
    hide Refresh;
  }

  /** What a rotation leaves: the old token spent and naming its successor, the successor unspent, of
      the same family and session and with the new end, and a `resolve` for the session's user and
      tenant that signs for that session and mints nothing more. Nothing else moves. */
  lemma RotationLeaves(db: Db, t: Id, now: int, expiresAt: int)
    requires Fresh(db) && Refresh(db, t, now, expiresAt).1.Done?
    ensures var (db', u, spent) := (Refresh(db, t, now, expiresAt).0, Refresh(db, t, now, expiresAt).1.id, db.refreshTokens[t]);
            && u !in db.refreshTokens && u in db'.refreshTokens && t in db'.refreshTokens
            && Unspent(db'.refreshTokens[u]) && db'.refreshTokens[u].expiresAt == expiresAt
            && db'.refreshTokens[u].session == spent.session && db'.refreshTokens[u].family == spent.family
            && db'.refreshTokens[t].revoked && db'.refreshTokens[t].replacedBy == Some(u)
            && db'.refreshTokens - {t, u} == db.refreshTokens - {t}
            && (exists f :: f !in db.flights && f in db'.flights && db'.flights == db.flights[f := db'.flights[f]]
                            && SignsFor(db', f, spent.session) && !db'.flights[f].mints)
            && db' == db.(refreshTokens := db'.refreshTokens, flights := db'.flights, next := db'.next)
  {
    var db' := Refresh(db, t, now, expiresAt).0;
    assert db'.flights == db.flights[db.next + 1 := db'.flights[db.next + 1]];
    assert SignsFor(db', db.next + 1, db.refreshTokens[t].session);
  }

  /** The running call signs for the session, and for its user and tenant; it has read nothing yet. */
  ghost predicate SignsFor(db: Db, f: Id, s: Id) {
    f in db.flights && s in db.sessions &&
    var flight := db.flights[f];
    && flight.session == Some(s) && flight.user == db.sessions[s].user && Some(flight.tenant) == db.sessions[s].tenant
    && !flight.failed && flight.rbacVersion.None? && flight.member.None? && flight.rows.None? && flight.roles == map[]
  }

  // ---- Logging out -----------------------------------------------------------------------------------

  lemma LogoutSpends(db: Db, s: Id, t: Id)
    requires t in db.refreshTokens && db.refreshTokens[t].session == s
    ensures Used(Logout(db, s).0, t)
  {
  }

  /** A logout also spends every refresh token of the session: replayed later they count as reused. */
  lemma {:induction false} LoggedOutTokens(db: Db, s: Id, ops: seq<Op>, t: Id, now: int, until: int)
    requires Reachable(db) && t in db.refreshTokens && db.refreshTokens[t].session == s
    ensures Refresh(Run(Logout(db, s).0, ops), t, now, until).1 == Fail(RefreshReuse)
  {
    hide Reachable, Sound, Logout, Run;
    ReachableSound(db);
    StepSound(db, Auth(OpLogout(s)));
    LogoutSpends(db, s, t);
    RunUsed(Logout(db, s).0, ops, t);
  }

  /** The refresh tokens of other sessions stay as they were. */
  ghost predicate OnlyOf(db: Db, db': Db, s: Id) {
    && db'.refreshTokens.Keys == db.refreshTokens.Keys
    && forall t | t in db.refreshTokens && db.refreshTokens[t].session != s :: db'.refreshTokens[t] == db.refreshTokens[t]
  }

  /** A logout closes its session and spends its refresh tokens, and touches no other. */
  lemma LogoutLeaves(db: Db, s: Id)
    ensures var db' := Logout(db, s).0;
            && OnlyOf(db, db', s) && db' == db.(sessions := db'.sessions, refreshTokens := db'.refreshTokens)
            && db'.sessions.Keys == db.sessions.Keys
            && (forall x | x in db.sessions :: db'.sessions[x] == if x == s then db.sessions[x].(status := Revoked) else db.sessions[x])
  {
  }

  /** A replay revokes the tokens of its family and closes its session, and touches no other. */
  lemma ReplayLeaves(db: Db, t: Id, now: int, expiresAt: int)
    requires Refresh(db, t, now, expiresAt).1 == Fail(RefreshReuse)
    ensures t in db.refreshTokens
    ensures var (db', token) := (Refresh(db, t, now, expiresAt).0, db.refreshTokens[t]);
            && db'.refreshTokens.Keys == db.refreshTokens.Keys && db'.sessions.Keys == db.sessions.Keys
            && (forall u | u in db.refreshTokens :: db'.refreshTokens[u] ==
                  if db.refreshTokens[u].family == token.family then db.refreshTokens[u].(revoked := true) else db.refreshTokens[u])
            && (forall s | s in db.sessions :: db'.sessions[s] ==
                  if s == token.session then db.sessions[s].(status := Revoked) else db.sessions[s])
            && db' == db.(sessions := db'.sessions, refreshTokens := db'.refreshTokens)
  {
  }

  /** A user's own session is closed; another user's stays as it was. */
  lemma RevokedIfOwn(db: Db, user: Id, s: Id)
    ensures var db' := RevokeSession(db, user, s).0;
            && db'.sessions.Keys == db.sessions.Keys
            && (forall x | x in db.sessions :: db'.sessions[x].(status := Open) == db.sessions[x].(status := Open))
            && (forall x | x in db.sessions ::
                  db'.sessions[x].status == Revoked <==> db.sessions[x].status == Revoked || (x == s && db.sessions[x].user == user))
            && db' == db.(sessions := db'.sessions, refreshTokens := db'.refreshTokens)
    ensures forall t | t in db.refreshTokens && db.refreshTokens[t].session == s :: Used(RevokeSession(db, user, s).0, t)
    ensures OnlyOf(db, RevokeSession(db, user, s).0, s)
  {
  }

  /** Revoking a session spends its refresh tokens, whoever asks; for the user's own session the guard
      refuses its access tokens in every continuation. */
  lemma {:induction false} RevocationIsFinal(db: Db, user: Id, s: Id, ops: seq<Op>, t: Id, now: int, until: int,
                          c: Claims, tenant: Option<Tenant>, member: Option<Membership>,
                          slugHeader: Option<string>, roleHeader: Option<string>)
    requires Reachable(db)
    ensures var db' := Run(RevokeSession(db, user, s).0, ops);
            && (t in db.refreshTokens && db.refreshTokens[t].session == s ==> Refresh(db', t, now, until).1 == Fail(RefreshReuse))
            && (s in db.sessions && db.sessions[s].user == user && c.session == s ==>
                  GuardRows(c, Row(db'.sessions, s), tenant, member, now, slugHeader, roleHeader) == SessionClosed)
  {
    hide Reachable, Sound, RevokeSession, Run;
    ReachableSound(db);
    StepSound(db, Auth(OpRevokeSession(user, s)));
    RevokedIfOwn(db, user, s);
    var db1 := RevokeSession(db, user, s).0;
    hide GuardRows, Refresh;
    if t in db.refreshTokens && db.refreshTokens[t].session == s {
      RunUsed(db1, ops, t);
      UsedIsRefused(Run(db1, ops), t, now, until);
    }
    if s in db.sessions && db.sessions[s].user == user {
      RunClosed(db1, ops, s);
      if c.session == s {
        ClosedRefuses(Run(db1, ops), c, tenant, member, now, slugHeader, roleHeader);
      }
    }
  }

  lemma UsedIsRefused(db: Db, t: Id, now: int, until: int)
    requires Used(db, t)
    ensures Refresh(db, t, now, until).1 == Fail(RefreshReuse)
  {
  }

  // ---- A login from beginning to end -------------------------------------------------------------------

  lemma {:induction false} RunSplits(db: Db, a: seq<Op>, b: seq<Op>)
    ensures Run(db, a + b) == Run(Run(db, a), b)
    decreases |a|
  {
    if a == [] {
      assert a + b == b;
    } else {
      assert (a + b)[1..] == a[1..] + b;
      RunSplits(Do(db, a[0]).0, a[1..], b);
      hide Do;
    }
  }

  function RoleReads(f: Id, roles: seq<Id>): seq<Op> {
    if roles == [] then [] else [Resolving(OpReadRole(f, roles[0]))] + RoleReads(f, roles[1..])
  }

  /** The calls of a login that no other transaction interrupts. */
  function LoginCalls(f: Id, user: Id, tenant: Id, slug: string, roles: seq<Id>, sessionEnd: int, tokenEnd: int): seq<Op> {
    [Resolving(OpStartIssue(user, tenant))] + ([Auth(OpCreateSession(f, sessionEnd))]
    + ([Resolving(OpReadTenant(f))] + ([Resolving(OpReadMembership(f))] + ([Resolving(OpReadAssignments(f))]
    + (RoleReads(f, roles) + [Auth(OpFinish(f, slug, tokenEnd))])))))
  }

  /** The roles of the rows, each listed once. */
  ghost predicate ListsRoles(rows: map<Id, Assignment>, roles: seq<Id>) {
    && (forall i, j | 0 <= i < j < |roles| :: roles[i] != roles[j])
    && (forall r :: r in roles <==> exists a :: a in rows && rows[a].role == r)
  }

  lemma {:induction false} RunFirst(db: Db, op: Op, rest: seq<Op>)
    ensures Run(db, [op] + rest) == Run(Do(db, op).0, rest)
  {
    assert ([op] + rest)[1..] == rest;
    hide Do;
  }

  function WithRoles(flight: Flight, table: map<Id, Role>, roles: seq<Id>): Flight
    requires forall r | r in roles :: r in table
    decreases |roles|
  {
    if roles == [] then flight
    else
      assert roles[0] in roles;
      WithRoles(flight.(roles := flight.roles[roles[0] := table[roles[0]]]), table, roles[1..])
  }

  lemma OneRoleRead(db: Db, f: Id, r: Id)
    requires Flying(db, f) && r in db.roles && Wants(db.flights[f], r) && r !in db.flights[f].roles
    ensures var flight := db.flights[f];
            Do(db, Resolving(OpReadRole(f, r))).0 == SetFlight(db, f, flight.(roles := flight.roles[r := db.roles[r]]))
  {
  }

  lemma {:induction false} WithRolesHolds(flight: Flight, table: map<Id, Role>, roles: seq<Id>)
    requires forall r | r in roles :: r in table
    requires forall r | r in flight.roles :: r in table && flight.roles[r] == table[r]
    ensures var now := WithRoles(flight, table, roles);
            && now == flight.(roles := now.roles)
            && (forall r :: r in now.roles <==> r in flight.roles || r in roles)
            && (forall r | r in now.roles :: r in table && now.roles[r] == table[r])
    decreases |roles|
  {
    if roles != [] {
      WithRolesHolds(flight.(roles := flight.roles[roles[0] := table[roles[0]]]), table, roles[1..]);
      assert forall r :: r in roles <==> r == roles[0] || r in roles[1..];
    }
  }

  lemma {:induction false} ReadsRoles(db: Db, f: Id, roles: seq<Id>)
    requires Flying(db, f) && (forall i, j | 0 <= i < j < |roles| :: roles[i] != roles[j])
    requires forall r | r in roles :: r in db.roles && Wants(db.flights[f], r) && r !in db.flights[f].roles
    ensures Run(db, RoleReads(f, roles)) == SetFlight(db, f, WithRoles(db.flights[f], db.roles, roles))
    decreases |roles|
  {
    if roles == [] {
      NoRoles(db, f);
    } else {
      var r, flight := roles[0], db.flights[f];
      var db' := SetFlight(db, f, flight.(roles := flight.roles[r := db.roles[r]]));
      OneRoleRead(db, f, r);
      RunFirst(db, Resolving(OpReadRole(f, r)), RoleReads(f, roles[1..]));
      hide Run, Do;
      assert forall x | x in roles[1..] :: x in roles && x != r;
      ReadsRoles(db', f, roles[1..]);
      SetTwice(db, f, db'.flights[f], WithRoles(flight, db.roles, roles));
    }
  }

  lemma NoRoles(db: Db, f: Id)
    requires f in db.flights
    ensures SetFlight(db, f, WithRoles(db.flights[f], db.roles, [])) == db
  {
    assert db.flights[f := db.flights[f]] == db.flights;
  }

  lemma SetTwice(db: Db, f: Id, a: Flight, b: Flight)
    ensures SetFlight(SetFlight(db, f, a), f, b) == SetFlight(db, f, b)
  {
  }

  /** The database while the login runs: its session is open, its call has read what the flight says. */
  function Underway(db: Db, user: Id, tenant: Id, sessionEnd: int, flight: Flight): Db {
    db.(sessions := db.sessions[db.next + 1 := Session(user, Some(tenant), Open, sessionEnd)],
        flights := db.flights[db.next := flight], next := db.next + 2)
  }

  function Blank(db: Db, user: Id, tenant: Id): Flight {
    Flight(user, tenant, Some(db.next + 1), true, false, None, None, None, map[])
  }

  lemma Opens(db: Db, user: Id, tenant: Id, sessionEnd: int)
    ensures Do(Do(db, Resolving(OpStartIssue(user, tenant))).0, Auth(OpCreateSession(db.next, sessionEnd))).0
         == Underway(db, user, tenant, sessionEnd, Blank(db, user, tenant))
  {
    var flights := db.flights[db.next := Flight(user, tenant, None, true, false, None, None, None, map[])];
    assert flights[db.next := Blank(db, user, tenant)] == db.flights[db.next := Blank(db, user, tenant)];
  }

  lemma Sets(db: Db, user: Id, tenant: Id, sessionEnd: int, was: Flight, flight: Flight)
    ensures SetFlight(Underway(db, user, tenant, sessionEnd, was), db.next, flight) == Underway(db, user, tenant, sessionEnd, flight)
  {
  }

  /** What the five calls before the roles have read of an active member of an existing tenant. */
  function Reads(db: Db, user: Id, tenant: Id, m: Id): Flight
    requires tenant in db.tenants && m in db.memberships
  {
    Blank(db, user, tenant).(rbacVersion := Some(db.tenants[tenant].rbacVersion), member := Some(Seen(m, db.memberships[m].version)),
                             rows := Some(LiveRows(db, m)))
  }

  lemma ReadsTenant(db: Db, user: Id, tenant: Id, sessionEnd: int, flight: Flight)
    requires tenant in db.tenants && flight.tenant == tenant && !flight.failed && flight.rbacVersion.None?
    ensures Do(Underway(db, user, tenant, sessionEnd, flight), Resolving(OpReadTenant(db.next))).0
         == Underway(db, user, tenant, sessionEnd, flight.(rbacVersion := Some(db.tenants[tenant].rbacVersion)))
  {
    Sets(db, user, tenant, sessionEnd, flight, flight.(rbacVersion := Some(db.tenants[tenant].rbacVersion)));
    hide SetFlight;
  }

  lemma ReadsMember(db: Db, user: Id, tenant: Id, m: Id, sessionEnd: int, flight: Flight)
    requires MembersUnique(db.memberships) && IsMember(db.memberships, m, tenant, user) && db.memberships[m].status == Active
    requires flight.tenant == tenant && flight.user == user && !flight.failed && flight.member.None?
    ensures Do(Underway(db, user, tenant, sessionEnd, flight), Resolving(OpReadMembership(db.next))).0
         == Underway(db, user, tenant, sessionEnd, flight.(member := Some(Seen(m, db.memberships[m].version))))
  {
    assert MembershipOf(db.memberships, tenant, user) == Some(m);
    Sets(db, user, tenant, sessionEnd, flight, flight.(member := Some(Seen(m, db.memberships[m].version))));
    hide SetFlight, MembersUnique, IsMember;
  }

  lemma ReadsRows(db: Db, user: Id, tenant: Id, m: Id, sessionEnd: int, flight: Flight)
    requires m in db.memberships && db.memberships[m].tenant == tenant && flight.member.Some? && flight.member.value.id == m
    requires flight.tenant == tenant && !flight.failed && flight.rbacVersion.Some? && flight.rows.None?
    ensures Do(Underway(db, user, tenant, sessionEnd, flight), Resolving(OpReadAssignments(db.next))).0
         == Underway(db, user, tenant, sessionEnd, flight.(rows := Some(LiveRows(db, m))))
  {
    Sets(db, user, tenant, sessionEnd, flight, flight.(rows := Some(LiveRows(db, m))));
    hide SetFlight, RowsOf;
  }

  lemma ReadsBegin(db: Db, user: Id, tenant: Id, m: Id, sessionEnd: int)
    requires MembersUnique(db.memberships) && IsMember(db.memberships, m, tenant, user) && db.memberships[m].status == Active
    requires tenant in db.tenants
    ensures var f := db.next;
            var begun := Underway(db, user, tenant, sessionEnd, Blank(db, user, tenant));
            var first := Do(begun, Resolving(OpReadTenant(f))).0;
            var second := Do(first, Resolving(OpReadMembership(f))).0;
            Do(second, Resolving(OpReadAssignments(f))).0 == Underway(db, user, tenant, sessionEnd, Reads(db, user, tenant, m))
  {
    hide Underway, Do, MembersUnique, LiveRows;
    var flight := Blank(db, user, tenant);
    var flight1 := flight.(rbacVersion := Some(db.tenants[tenant].rbacVersion));
    var flight2 := flight1.(member := Some(Seen(m, db.memberships[m].version)));
    ReadsTenant(db, user, tenant, sessionEnd, flight);
    ReadsMember(db, user, tenant, m, sessionEnd, flight1);
    ReadsRows(db, user, tenant, m, sessionEnd, flight2);
  }

  /** The claims that say what the member may do now. */
  function LiveClaims(db: Db, user: Id, tenant: Id, slug: string, m: Id): Claims
    requires tenant in db.tenants && m in db.memberships
  {
    Claims(user, db.next + 1, tenant, slug, m, RoleKeys(LiveRows(db, m), db.roles), LivePermissions(db, m), LiveScope(db, m),
           db.tenants[tenant].rbacVersion, db.memberships[m].version)
  }

  /** The database after the login: one session, one refresh token in a family of its own, one token issued. */
  function LoggedIn(db: Db, user: Id, tenant: Id, slug: string, m: Id, sessionEnd: int, tokenEnd: int): Db
    requires tenant in db.tenants && m in db.memberships
  {
    db.(sessions := db.sessions[db.next + 1 := Session(user, Some(tenant), Open, sessionEnd)],
        refreshTokens := db.refreshTokens[db.next + 2 := RefreshToken(db.next + 1, db.next + 3, None, false, tokenEnd)],
        issued := db.issued + {LiveClaims(db, user, tenant, slug, m)}, next := db.next + 4)
  }

  /** The roles that the flight collected give the same permissions and keys as the whole table. */
  lemma SameRoles(rows: map<Id, Assignment>, roles: map<Id, Role>, table: map<Id, Role>)
    requires forall r | r in roles :: r in table && roles[r] == table[r]
    requires forall a | a in rows :: rows[a].role in roles
    ensures Granted(rows, roles) == Granted(rows, table) && RoleKeys(rows, roles) == RoleKeys(rows, table)
  {
  }

  lemma {:induction false} LoginEnds(db: Db, user: Id, tenant: Id, slug: string, m: Id, roles: seq<Id>, sessionEnd: int, tokenEnd: int)
    requires Sound(db) && IsMember(db.memberships, m, tenant, user) && tenant in db.tenants && ListsRoles(LiveRows(db, m), roles)
    requires forall r | r in roles :: r in db.roles
    ensures Do(Underway(db, user, tenant, sessionEnd, WithRoles(Reads(db, user, tenant, m), db.roles, roles)),
               Auth(OpFinish(db.next, slug, tokenEnd))).0
         == LoggedIn(db, user, tenant, slug, m, sessionEnd, tokenEnd)
  {
    hide Sound, WithRoles, LiveRows, Finish, LiveClaims, ClaimsOf, ListsRoles, Resolved;
    var flight := WithRoles(Reads(db, user, tenant, m), db.roles, roles);
    FlightClaims(db, user, tenant, slug, m, roles);
    FlightGone(db, flight);
    FinishMints(Underway(db, user, tenant, sessionEnd, flight), db.next, slug, tokenEnd);
  }

  /** The end of a call that mints. */
  lemma FinishMints(db: Db, f: Id, slug: string, tokenEnd: int)
    requires Flying(db, f) && db.flights[f].session.Some? && Resolved(db.flights[f]) && db.flights[f].mints
    ensures Finish(db, f, slug, tokenEnd).0
         == db.(refreshTokens := db.refreshTokens[db.next := RefreshToken(db.flights[f].session.value, db.next + 1, None, false, tokenEnd)],
                issued := db.issued + {ClaimsOf(db.permissions, slug, db.flights[f])},
                flights := db.flights - {f}, next := db.next + 2)
  {
    hide ClaimsOf, Resolved;
  }

  lemma {:induction false} FlightClaims(db: Db, user: Id, tenant: Id, slug: string, m: Id, roles: seq<Id>)
    requires tenant in db.tenants && m in db.memberships && ListsRoles(LiveRows(db, m), roles)
    requires forall r | r in roles :: r in db.roles
    ensures var flight := WithRoles(Reads(db, user, tenant, m), db.roles, roles);
            && !flight.failed && flight.mints && flight.session == Some(db.next + 1) && Resolved(flight)
            && ClaimsOf(db.permissions, slug, flight) == LiveClaims(db, user, tenant, slug, m)
  {
    var flight := WithRoles(Reads(db, user, tenant, m), db.roles, roles);
    WithRolesHolds(Reads(db, user, tenant, m), db.roles, roles);
    hide WithRoles, LiveRows;
    assert forall a | a in LiveRows(db, m) :: LiveRows(db, m)[a].role in roles;
    hide ListsRoles;
    SameRoles(LiveRows(db, m), flight.roles, db.roles);
    hide Granted, RoleKeys, KeysOf, ScopeOf;
  }

  lemma FlightGone(db: Db, flight: Flight)
    requires Sound(db)
    ensures db.flights[db.next := flight] - {db.next} == db.flights
  {
    assert db.next !in db.flights;
  }

  lemma {:induction false} CallsUnfold(db: Db, user: Id, tenant: Id, slug: string, roles: seq<Id>, sessionEnd: int, tokenEnd: int)
    ensures var f := db.next;
            var begun := Do(Do(db, Resolving(OpStartIssue(user, tenant))).0, Auth(OpCreateSession(f, sessionEnd))).0;
            var second := Do(Do(begun, Resolving(OpReadTenant(f))).0, Resolving(OpReadMembership(f))).0;
            var third := Do(second, Resolving(OpReadAssignments(f))).0;
            Run(db, LoginCalls(f, user, tenant, slug, roles, sessionEnd, tokenEnd))
            == Do(Run(third, RoleReads(f, roles)), Auth(OpFinish(f, slug, tokenEnd))).0
  {
    hide Do;
    var f := db.next;
    var a, b, c := Resolving(OpStartIssue(user, tenant)), Auth(OpCreateSession(f, sessionEnd)), Resolving(OpReadTenant(f));
    var d, e, z := Resolving(OpReadMembership(f)), Resolving(OpReadAssignments(f)), Auth(OpFinish(f, slug, tokenEnd));
    var rest := RoleReads(f, roles) + [z];
    RunFirst(db, a, [b] + ([c] + ([d] + ([e] + rest))));
    var db1 := Do(db, a).0;
    RunFirst(db1, b, [c] + ([d] + ([e] + rest)));
    var db2 := Do(db1, b).0;
    RunFirst(db2, c, [d] + ([e] + rest));
    var db3 := Do(db2, c).0;
    RunFirst(db3, d, [e] + rest);
    var db4 := Do(db3, d).0;
    RunFirst(db4, e, rest);
    var db5 := Do(db4, e).0;
    RunSplits(db5, RoleReads(f, roles), [z]);
    RunOne(Run(db5, RoleReads(f, roles)), z);
    hide Run, RoleReads;
  }

  lemma {:induction false} RunOne(db: Db, op: Op)
    ensures Run(db, [op]) == Do(db, op).0
  {
    assert [op][1..] == [];
    hide Do;
  }

  /** A login that nothing interrupts, of an active member of a tenant in business: it opens one session
      and mints one refresh token, and the guard admits the token it issues, which says exactly what the
      member may do, until the session ends. */
  lemma {:induction false} LoginAdmits(db: Db, user: Id, tenant: Id, slug: string, m: Id, roles: seq<Id>, sessionEnd: int, tokenEnd: int, now: int)
    requires Reachable(db) && IsMember(db.memberships, m, tenant, user) && db.memberships[m].status == Active
    requires tenant in db.tenants && InBusiness(Some(db.tenants[tenant])) && ListsRoles(LiveRows(db, m), roles)
    ensures var db' := Run(db, LoginCalls(db.next, user, tenant, slug, roles, sessionEnd, tokenEnd));
            var c := LiveClaims(db, user, tenant, slug, m);
            && db' == LoggedIn(db, user, tenant, slug, m, sessionEnd, tokenEnd) && c in db'.issued
            && (Guard(db', c, now, None, None) == Admitted <==> now <= sessionEnd)
  {
    hide Reachable, Sound, Do, Run, LoginCalls, RoleReads, Guard, LiveClaims;
    ReachableSound(db);
    RolesThere(db, m, roles);
    CallsUnfold(db, user, tenant, slug, roles, sessionEnd, tokenEnd);
    Opens(db, user, tenant, sessionEnd);
    OneMember(db);
    ReadsBegin(db, user, tenant, m, sessionEnd);
    var flight := Reads(db, user, tenant, m);
    var third := Underway(db, user, tenant, sessionEnd, flight);
    RolesWanted(db, user, tenant, m, roles);
    ReadsRoles(third, db.next, roles);
    Sets(db, user, tenant, sessionEnd, flight, WithRoles(flight, db.roles, roles));
    LoginEnds(db, user, tenant, slug, m, roles, sessionEnd, tokenEnd);
    hide Do, Run, LoginCalls, RoleReads, WithRoles, SetFlight, Reads, LivePermissions, LiveRows, LiveScope, RoleKeys, MembersUnique;
    GuardWelcomes(db, user, tenant, slug, m, sessionEnd, tokenEnd, now);
  }

  lemma GuardWelcomes(db: Db, user: Id, tenant: Id, slug: string, m: Id, sessionEnd: int, tokenEnd: int, now: int)
    requires m in db.memberships && db.memberships[m].status == Active
    requires tenant in db.tenants && InBusiness(Some(db.tenants[tenant]))
    ensures var (db', c) := (LoggedIn(db, user, tenant, slug, m, sessionEnd, tokenEnd), LiveClaims(db, user, tenant, slug, m));
            c in db'.issued && (Guard(db', c, now, None, None) == Admitted <==> now <= sessionEnd)
  {
    hide LivePermissions, LiveRows, LiveScope, RoleKeys;
  }

  lemma OneMember(db: Db)
    requires Sound(db)
    ensures MembersUnique(db.memberships)
  {
  }

  lemma RolesThere(db: Db, m: Id, roles: seq<Id>)
    requires Sound(db) && m in db.memberships && ListsRoles(LiveRows(db, m), roles)
    ensures forall r | r in roles :: r in db.roles
  {
  }

  lemma RolesWanted(db: Db, user: Id, tenant: Id, m: Id, roles: seq<Id>)
    requires tenant in db.tenants && m in db.memberships && ListsRoles(LiveRows(db, m), roles)
    ensures forall r | r in roles :: Wants(Reads(db, user, tenant, m), r)
    ensures forall i, j | 0 <= i < j < |roles| :: roles[i] != roles[j]
  {
  }
}
