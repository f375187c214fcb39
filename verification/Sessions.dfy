/** Refresh-token families and revoked sessions, over every run. */
module Sessions {
  import opened Tables
  import opened Provisioning
  import opened Handlers
  import opened Integrity

  // ---- A family is one linear chain ----------------------------------------------------

  ghost predicate Linked(tokens: map<Id, RefreshToken>, t: Id, u: Id) {
    t < u && t in tokens && tokens[t].revoked && tokens[t].replacedBy == Some(u)
  }

  /** `chain` lists the tokens of the family from the oldest to the newest: each but the last is
      revoked and replaced by the next, the last is replaced by none, and all are of one session. */
  ghost predicate IsChain(tokens: map<Id, RefreshToken>, family: Id, chain: seq<Id>) {
    && chain != []
    && (forall t :: t in chain <==> t in tokens && tokens[t].family == family)
    && (forall i | 0 <= i < |chain| :: tokens[chain[i]].session == tokens[chain[0]].session)
    && (forall i, j | 0 <= i < j < |chain| && j == i + 1 :: Linked(tokens, chain[i], chain[j]))
    && tokens[chain[|chain| - 1]].replacedBy == None
  }

  ghost predicate Chained(tokens: map<Id, RefreshToken>, family: Id) {
    exists chain :: IsChain(tokens, family, chain)
  }

  ghost predicate AllChained(tokens: map<Id, RefreshToken>) {
    forall t | t in tokens :: Chained(tokens, tokens[t].family)
  }

  /** What a chain says of one token, kept from one table to the next. */
  ghost predicate SameLink(was: RefreshToken, now: RefreshToken) {
    now.family == was.family && now.session == was.session && now.replacedBy == was.replacedBy && (was.revoked ==> now.revoked)
  }

  lemma SameChain(tokens: map<Id, RefreshToken>, tokens': map<Id, RefreshToken>, family: Id, chain: seq<Id>)
    requires IsChain(tokens, family, chain)
    requires forall t | t in tokens && tokens[t].family == family :: t in tokens' && SameLink(tokens[t], tokens'[t])
    requires forall t | t in tokens' && tokens'[t].family == family :: t in tokens && tokens[t].family == family
    ensures Chained(tokens', family)
  {
    forall i, j | 0 <= i < j < |chain| && j == i + 1 ensures Linked(tokens', chain[i], chain[j]) {
      assert Linked(tokens, chain[i], chain[j]);
    }
    assert IsChain(tokens', family, chain);
  }

  /** Revoking tokens leaves every chain as it is. */
  ghost predicate OnlyRevokes(tokens: map<Id, RefreshToken>, tokens': map<Id, RefreshToken>) {
    && tokens'.Keys == tokens.Keys
    && forall t | t in tokens :: tokens'[t] == tokens[t] || tokens'[t] == tokens[t].(revoked := true)
  }

  lemma RevokingKeepsChains(tokens: map<Id, RefreshToken>, tokens': map<Id, RefreshToken>)
    requires AllChained(tokens) && OnlyRevokes(tokens, tokens')
    ensures AllChained(tokens')
  {
    hide IsChain;
    forall t | t in tokens' ensures Chained(tokens', tokens'[t].family) {
      assert Chained(tokens, tokens[t].family);
      var chain :| IsChain(tokens, tokens[t].family, chain);
      SameChain(tokens, tokens', tokens[t].family, chain);
    }
  }

  /** A token of a family of its own is a chain by itself. */
  lemma MintingKeepsChains(tokens: map<Id, RefreshToken>, x: Id, row: RefreshToken)
    requires AllChained(tokens) && x !in tokens && row.replacedBy.None?
    requires forall t | t in tokens :: tokens[t].family != row.family
    ensures AllChained(tokens[x := row])
  {
    var tokens' := tokens[x := row];
    forall t | t in tokens' ensures Chained(tokens', tokens'[t].family) {
      if t == x {
        assert IsChain(tokens', row.family, [x]);
      } else {
        assert Chained(tokens, tokens[t].family);
        var chain :| IsChain(tokens, tokens[t].family, chain);
        SameChain(tokens, tokens', tokens[t].family, chain);
      }
    }
  }

  /** Rotating an unspent token appends its successor to the chain it ends. */
  lemma RotatingKeepsChains(tokens: map<Id, RefreshToken>, t: Id, x: Id, expiresAt: int)
    requires AllChained(tokens) && t in tokens && !Spent(tokens[t])
    requires x !in tokens && Below(tokens, x)
    ensures AllChained(Rotated(tokens, t, x, expiresAt))
  {
    var tokens' := Rotated(tokens, t, x, expiresAt);
    forall u | u in tokens' ensures Chained(tokens', tokens'[u].family) {
      if tokens'[u].family == tokens[t].family {
        OwnChain(tokens, t, x, expiresAt);
      } else {
        OtherChain(tokens, t, x, expiresAt, u);
      }
      hide Chained, AllChained, Spent;
    }
    hide Chained, Rotated, Spent;
  }

  lemma OwnChain(tokens: map<Id, RefreshToken>, t: Id, x: Id, expiresAt: int)
    requires AllChained(tokens) && t in tokens && !Spent(tokens[t]) && x !in tokens && Below(tokens, x)
    ensures Chained(Rotated(tokens, t, x, expiresAt), tokens[t].family)
  {
    hide IsChain, Rotated;
    assert Chained(tokens, tokens[t].family);
    var chain :| IsChain(tokens, tokens[t].family, chain);
    Extended(tokens, t, x, expiresAt, chain);
  }

  lemma OtherChain(tokens: map<Id, RefreshToken>, t: Id, x: Id, expiresAt: int, u: Id)
    requires AllChained(tokens) && t in tokens && x !in tokens
    requires u in Rotated(tokens, t, x, expiresAt) && Rotated(tokens, t, x, expiresAt)[u].family != tokens[t].family
    ensures Chained(Rotated(tokens, t, x, expiresAt), Rotated(tokens, t, x, expiresAt)[u].family)
  {
    hide IsChain;
    assert Chained(tokens, tokens[u].family);
    var other :| IsChain(tokens, tokens[u].family, other);
    SameChain(tokens, Rotated(tokens, t, x, expiresAt), tokens[u].family, other);
  }

  function Rotated(tokens: map<Id, RefreshToken>, t: Id, x: Id, expiresAt: int): map<Id, RefreshToken>
    requires t in tokens
  {
    var row := RefreshToken(tokens[t].session, tokens[t].family, None, false, expiresAt);
    tokens[x := row][t := tokens[t].(revoked := true, replacedBy := Some(x))]
  }

  lemma Extended(tokens: map<Id, RefreshToken>, t: Id, x: Id, expiresAt: int, chain: seq<Id>)
    requires t in tokens && !Spent(tokens[t]) && x !in tokens && Below(tokens, x)
    requires IsChain(tokens, tokens[t].family, chain)
    ensures IsChain(Rotated(tokens, t, x, expiresAt), tokens[t].family, chain + [x])
  {
    HeadIsLast(tokens, tokens[t].family, chain, t);
    var tokens', chain' := Rotated(tokens, t, x, expiresAt), chain + [x];
    forall i, j | 0 <= i < j < |chain'| && j == i + 1 ensures Linked(tokens', chain'[i], chain'[j]) {
      if j < |chain| {
        assert Linked(tokens, chain[i], chain[j]);
      }
    }
  }

  lemma HeadIsLast(tokens: map<Id, RefreshToken>, family: Id, chain: seq<Id>, t: Id)
    requires IsChain(tokens, family, chain) && t in tokens && tokens[t].family == family
    requires !tokens[t].revoked || tokens[t].replacedBy.None?
    ensures t == chain[|chain| - 1]
  {
    var i :| 0 <= i < |chain| && chain[i] == t;
    assert i + 1 < |chain| ==> Linked(tokens, chain[i], chain[i + 1]);
  }

  lemma FinishChained(db: Db, f: Id, slug: string, expiresAt: int)
    requires Fresh(db) && AllChained(db.refreshTokens)
    ensures AllChained(Finish(db, f, slug, expiresAt).0.refreshTokens)
  {
    if Finish(db, f, slug, expiresAt).1.Done? && db.flights[f].mints {
      var row := RefreshToken(db.flights[f].session.value, db.next + 1, None, false, expiresAt);
      MintingKeepsChains(db.refreshTokens, db.next, row);
    }
  }

  lemma RefreshChained(db: Db, t: Id, now: int, expiresAt: int)
    requires Fresh(db) && AllChained(db.refreshTokens)
    ensures AllChained(Refresh(db, t, now, expiresAt).0.refreshTokens)
  {
    hide AllChained;
    var (db', r) := Refresh(db, t, now, expiresAt);
    if r == Fail(RefreshReuse) {
      RevokingKeepsChains(db.refreshTokens, RevokeFamily(db.refreshTokens, db.refreshTokens[t].family));
    } else if r.Done? {
      RotatingKeepsChains(db.refreshTokens, t, db.next, expiresAt);
      assert db'.refreshTokens == Rotated(db.refreshTokens, t, db.next, expiresAt);
    }
  }

  lemma AuthChained(db: Db, op: SessionOp)
    requires Fresh(db) && AllChained(db.refreshTokens)
    ensures AllChained(DoAuth(db, op).0.refreshTokens)
  {
    hide AllChained, Finish, Refresh;
    match op
    case OpFinish(f, slug, expiresAt) => FinishChained(db, f, slug, expiresAt);
    case OpRefresh(t, now, expiresAt) => RefreshChained(db, t, now, expiresAt);
    case OpLogout(s) => RevokingKeepsChains(db.refreshTokens, RevokeSessionTokens(db.refreshTokens, s));
    case OpRevokeSession(u, s) => RevokingKeepsChains(db.refreshTokens, RevokeSessionTokens(db.refreshTokens, s));
    case OpCreateSession(_, _) =>
  }

  lemma StepChained(db: Db, op: Op)
    requires Fresh(db) && AllChained(db.refreshTokens)
    ensures AllChained(Do(db, op).0.refreshTokens)
  {
    hide AllChained, Fresh, DoAuth, DoResolving;
    match op
    case Auth(auth) => AuthChained(db, auth);
    case Resolving(resolving) => ResolvingFrame(db, resolving);
    case _ => WriterFrame(db, op);
  }

  lemma {:induction false} RunChained(db: Db, ops: seq<Op>)
    requires Sound(db) && AllChained(db.refreshTokens)
    ensures AllChained(Run(db, ops).refreshTokens)
    decreases |ops|
  {
    if ops != [] {
      StepChained(db, ops[0]);
      StepSound(db, ops[0]);
      RunChained(Do(db, ops[0]).0, ops[1..]);
    }
  }

  /** In every reachable state the tokens of a family form one chain, and at most one of them,
      the chain's last, is not revoked. */
  lemma FamilyIsOneChain(db: Db, family: Id) returns (chain: seq<Id>)
    requires Reachable(db)
    requires exists t :: t in db.refreshTokens && db.refreshTokens[t].family == family
    ensures IsChain(db.refreshTokens, family, chain)
    ensures forall t | t in db.refreshTokens && db.refreshTokens[t].family == family && !db.refreshTokens[t].revoked ::
              t == chain[|chain| - 1]
  {
    var catalogue, next, ops :| db == Run(Seeded(catalogue, next), ops);
    SeededSound(catalogue, next);
    hide Sound, Run;
    assert AllChained(Seeded(catalogue, next).refreshTokens);
    hide Seeded;
    RunChained(Seeded(catalogue, next), ops);
    var t :| t in db.refreshTokens && db.refreshTokens[t].family == family;
    assert Chained(db.refreshTokens, family);
    chain :| IsChain(db.refreshTokens, family, chain);
    forall u | u in db.refreshTokens && db.refreshTokens[u].family == family && !db.refreshTokens[u].revoked
      ensures u == chain[|chain| - 1]
    {
      HeadIsLast(db.refreshTokens, family, chain, u);
    }
  }

  // ---- What is dead stays dead ------------------------------------------------------------

  ghost predicate Closed(db: Db, s: Id) {
    s in db.sessions && db.sessions[s].status == Revoked
  }

  /** A family whose tokens are all revoked, and whose id is taken. */
  ghost predicate DeadFamily(db: Db, family: Id) {
    family < db.next && forall t | t in db.refreshTokens && db.refreshTokens[t].family == family :: db.refreshTokens[t].revoked
  }

  ghost predicate Used(db: Db, t: Id) {
    t in db.refreshTokens && Spent(db.refreshTokens[t])
  }

  lemma CreateSessionClosed(db: Db, f: Id, expiresAt: int, s: Id)
    requires Below(db.sessions, db.next) && Closed(db, s)
    ensures Closed(CreateSession(db, f, expiresAt).0, s)
  {
  }

  lemma RefreshClosed(db: Db, t: Id, now: int, expiresAt: int, s: Id)
    requires Closed(db, s)
    ensures Closed(Refresh(db, t, now, expiresAt).0, s)
  {
    hide Refresh;
    RefreshCases(db, t, now, expiresAt);
  }

  /** No step of a session handler opens a revoked session. */
  lemma AuthClosed(db: Db, op: SessionOp, s: Id)
    requires Below(db.sessions, db.next) && Closed(db, s)
    ensures Closed(DoAuth(db, op).0, s)
  {
    hide Finish, Refresh, CreateSession, RevokeSessionTokens;
    match op
    case OpCreateSession(f, expiresAt) => CreateSessionClosed(db, f, expiresAt, s);
    case OpFinish(f, slug, expiresAt) => FinishFrame(db, f, slug, expiresAt);
    case OpRefresh(t, now, expiresAt) => RefreshClosed(db, t, now, expiresAt, s);
    case OpLogout(_) =>
    case OpRevokeSession(_, _) =>
  }

  lemma TeamClosed(db: Db, op: TeamOp, s: Id)
    requires Closed(db, s)
    ensures Closed(DoTeam(db, op).0, s)
  {
  }

  lemma StepClosed(db: Db, op: Op, s: Id)
    requires Fresh(db) && Closed(db, s)
    ensures Closed(Do(db, op).0, s)
  {
    hide DoAuth, DoTeam, DoResolving;
    match op
    case Auth(auth) => AuthClosed(db, auth, s);
    case Team(team) => TeamClosed(db, team, s);
    case Resolving(resolving) => ResolvingFrame(db, resolving);
    case _ => WriterFrame(db, op);
  }

  /** How a step may change the refresh tokens: old ones stay in their family and stay spent, new
      ones start a family or join one that has an unrevoked token. */
  ghost predicate TokensAge(tokens: map<Id, RefreshToken>, tokens': map<Id, RefreshToken>, next: Id) {
    && (forall t | t in tokens :: t in tokens' && tokens'[t].family == tokens[t].family && tokens'[t].session == tokens[t].session
          && tokens'[t].expiresAt == tokens[t].expiresAt
          && (tokens[t].revoked ==> tokens'[t].revoked) && (tokens[t].replacedBy.Some? ==> tokens'[t].replacedBy.Some?))
    && (forall u | u in tokens' && u !in tokens ::
          next <= tokens'[u].family || exists t :: t in tokens && !tokens[t].revoked && tokens[t].family == tokens'[u].family)
  }

  lemma RotateAges(db: Db, t: Id, user: Id, tenant: Id, expiresAt: int)
    requires Fresh(db) && t in db.refreshTokens && !Spent(db.refreshTokens[t])
    ensures TokensAge(db.refreshTokens, Rotate(db, t, db.refreshTokens[t], user, tenant, expiresAt).refreshTokens, db.next)
  {
  }

  lemma RefreshAges(db: Db, t: Id, now: int, expiresAt: int)
    requires Fresh(db)
    ensures TokensAge(db.refreshTokens, Refresh(db, t, now, expiresAt).0.refreshTokens, db.next)
    ensures db.next <= Refresh(db, t, now, expiresAt).0.next
  {
    RefreshCases(db, t, now, expiresAt);
    if Refresh(db, t, now, expiresAt).1.Done? {
      var session := db.sessions[db.refreshTokens[t].session];
      RotateAges(db, t, session.user, session.tenant.value, expiresAt);
    }
  }

  lemma FinishAges(db: Db, f: Id, slug: string, expiresAt: int)
    requires Fresh(db)
    ensures TokensAge(db.refreshTokens, Finish(db, f, slug, expiresAt).0.refreshTokens, db.next)
    ensures db.next <= Finish(db, f, slug, expiresAt).0.next
  {
  }

  lemma AuthAges(db: Db, op: SessionOp)
    requires Fresh(db)
    ensures TokensAge(db.refreshTokens, DoAuth(db, op).0.refreshTokens, db.next) && db.next <= DoAuth(db, op).0.next
  {
    match op
    case OpFinish(f, slug, expiresAt) => FinishAges(db, f, slug, expiresAt);
    case OpRefresh(t, now, expiresAt) => RefreshAges(db, t, now, expiresAt);
    case OpLogout(_) =>
    case OpRevokeSession(_, _) =>
    case OpCreateSession(_, _) =>
  }

  lemma StepAges(db: Db, op: Op)
    requires Fresh(db)
    ensures TokensAge(db.refreshTokens, Do(db, op).0.refreshTokens, db.next) && db.next <= Do(db, op).0.next
  {
    hide Fresh, DoAuth, DoResolving;
    match op
    case Auth(auth) => AuthAges(db, auth);
    case Resolving(resolving) => ResolvingFrame(db, resolving);
    case _ => WriterFrame(db, op);
  }

  lemma StepDeadFamily(db: Db, op: Op, family: Id)
    requires Fresh(db) && DeadFamily(db, family)
    ensures DeadFamily(Do(db, op).0, family)
  {
    hide Fresh, Do;
    StepAges(db, op);
  }

  lemma StepUsed(db: Db, op: Op, t: Id)
    requires Fresh(db) && Used(db, t)
    ensures Used(Do(db, op).0, t)
  {
    hide Fresh, Do;
    StepAges(db, op);
  }

  lemma {:induction false} RunClosed(db: Db, ops: seq<Op>, s: Id)
    requires Sound(db) && Closed(db, s)
    ensures Closed(Run(db, ops), s)
    decreases |ops|
  {
    if ops != [] {
      StepClosed(db, ops[0], s);
      StepSound(db, ops[0]);
      RunClosed(Do(db, ops[0]).0, ops[1..], s);
    }
  }

  lemma {:induction false} RunDeadFamily(db: Db, ops: seq<Op>, family: Id)
    requires Sound(db) && DeadFamily(db, family)
    ensures DeadFamily(Run(db, ops), family)
    decreases |ops|
  {
    if ops != [] {
      StepDeadFamily(db, ops[0], family);
      StepSound(db, ops[0]);
      RunDeadFamily(Do(db, ops[0]).0, ops[1..], family);
    }
  }

  lemma {:induction false} RunUsed(db: Db, ops: seq<Op>, t: Id)
    requires Sound(db) && Used(db, t)
    ensures Used(Run(db, ops), t)
    decreases |ops|
  {
    if ops != [] {
      StepUsed(db, ops[0], t);
      StepSound(db, ops[0]);
      RunUsed(Do(db, ops[0]).0, ops[1..], t);
    }
  }

  // ---- Whose session a token names ------------------------------------------------------------

  predicate SessionOf(sessions: map<Id, Session>, s: Id, user: Id, tenant: Id) {
    s in sessions && sessions[s].user == user && sessions[s].tenant == Some(tenant)
  }

  /** Running calls and issued tokens name a session of their own user in their own tenant. */
  ghost predicate OwnSessions(db: Db) {
    && (forall f | f in db.flights && db.flights[f].session.Some? ::
          SessionOf(db.sessions, db.flights[f].session.value, db.flights[f].user, db.flights[f].tenant))
    && (forall c | c in db.issued :: SessionOf(db.sessions, c.session, c.user, c.tenant))
  }

  /** Sessions stay, with their users and tenants. */
  ghost predicate SessionsStay(db: Db, db': Db) {
    forall s | s in db.sessions ::
      && s in db'.sessions && db'.sessions[s].user == db.sessions[s].user && db'.sessions[s].tenant == db.sessions[s].tenant
      && db'.sessions[s].expiresAt == db.sessions[s].expiresAt
  }

  lemma OwnSessionsKept(db: Db, db': Db)
    requires OwnSessions(db) && SessionsStay(db, db') && db'.issued == db.issued
    requires forall f | f in db'.flights :: f in db.flights && db'.flights[f] == db.flights[f]
    ensures OwnSessions(db')
  {
  }

  lemma CreateSessionOwn(db: Db, f: Id, expiresAt: int)
    requires Below(db.sessions, db.next) && OwnSessions(db)
    ensures OwnSessions(CreateSession(db, f, expiresAt).0)
  {
  }

  lemma FinishOwn(db: Db, f: Id, slug: string, expiresAt: int)
    requires OwnSessions(db)
    ensures OwnSessions(Finish(db, f, slug, expiresAt).0)
  {
    FinishFrame(db, f, slug, expiresAt);
    if Finish(db, f, slug, expiresAt).1.Done? {
      assert SessionOf(db.sessions, db.flights[f].session.value, db.flights[f].user, db.flights[f].tenant);
    }
  }

  lemma RotateOwn(db: Db, t: Id, expiresAt: int)
    requires OwnSessions(db) && t in db.refreshTokens && db.refreshTokens[t].session in db.sessions
    requires db.sessions[db.refreshTokens[t].session].tenant.Some?
    ensures var session := db.sessions[db.refreshTokens[t].session];
            OwnSessions(Rotate(db, t, db.refreshTokens[t], session.user, session.tenant.value, expiresAt))
  {
  }

  lemma RefreshOwn(db: Db, t: Id, now: int, expiresAt: int)
    requires OwnSessions(db)
    ensures OwnSessions(Refresh(db, t, now, expiresAt).0)
  {
    hide Refresh, OwnSessions, Rotate;
    RefreshCases(db, t, now, expiresAt);
    if t in db.refreshTokens {
      OwnSessionsKept(db, KillFamily(db, db.refreshTokens[t]));
      if db.refreshTokens[t].session in db.sessions && db.sessions[db.refreshTokens[t].session].tenant.Some? {
        RotateOwn(db, t, expiresAt);
      }
    }
  }

  lemma AuthOwn(db: Db, op: SessionOp)
    requires Below(db.sessions, db.next) && OwnSessions(db)
    ensures OwnSessions(DoAuth(db, op).0)
  {
    hide OwnSessions, CreateSession, Finish, Refresh, RevokeSessionTokens;
    match op
    case OpCreateSession(f, expiresAt) => CreateSessionOwn(db, f, expiresAt);
    case OpFinish(f, slug, expiresAt) => FinishOwn(db, f, slug, expiresAt);
    case OpRefresh(t, now, expiresAt) => RefreshOwn(db, t, now, expiresAt);
    case OpLogout(s) => OwnSessionsKept(db, Logout(db, s).0);
    case OpRevokeSession(u, s) => OwnSessionsKept(db, RevokeSession(db, u, s).0);
  }

  lemma StatusSessions(db: Db, tenant: Id, m: Id, status: MemberStatus)
    ensures SessionsStay(db, UpdateStatus(db, tenant, m, status).0)
  {
    if MemberInTenant(db, tenant, m) {
      ClosingKeeps(db.sessions, db.memberships[m].user, tenant);
    }
    hide CloseSessions, MemberInTenant;
  }

  lemma ClosingKeeps(sessions: map<Id, Session>, user: Id, tenant: Id)
    ensures var closed := CloseSessions(sessions, user, tenant);
            closed.Keys == sessions.Keys && forall s | s in sessions :: closed[s].(status := Open) == sessions[s].(status := Open)
  {
  }

  lemma TeamSessions(db: Db, op: TeamOp)
    ensures SessionsStay(db, DoTeam(db, op).0)
  {
    hide UpdateRoles, UpdateStatus;
    match op
    case OpUpdateStatus(t, m, status) => StatusSessions(db, t, m, status);
    case OpUpdateRoles(t, m, roleIds) => UpdateRolesFrame(db, t, m, roleIds);
  }

  lemma ResolvingOwn(db: Db, op: ReadOp)
    requires OwnSessions(db)
    ensures OwnSessions(DoResolving(db, op).0)
  {
    match op
    case OpStartIssue(u, t) =>
    case OpReadTenant(f) => if Flying(db, f) { FlightOwn(db, f, SeeTenant(db, db.flights[f])); }
    case OpReadMembership(f) => if Flying(db, f) { FlightOwn(db, f, SeeMembership(db, db.flights[f])); }
    case OpReadAssignments(f) => ReadAssignmentsOwn(db, f);
    case OpReadRole(f, r) => if Flying(db, f) { FlightOwn(db, f, SeeRole(db, db.flights[f], r)); }
  }

  lemma FlightOwn(db: Db, f: Id, flight: Flight)
    requires OwnSessions(db) && f in db.flights
    requires flight.session == db.flights[f].session && flight.user == db.flights[f].user && flight.tenant == db.flights[f].tenant
    ensures OwnSessions(SetFlight(db, f, flight))
  {
  }

  lemma ReadAssignmentsOwn(db: Db, f: Id)
    requires OwnSessions(db)
    ensures OwnSessions(ReadAssignments(db, f).0)
  {
    var (db', r) := ReadAssignments(db, f);
    if r.Done? {
      FlightOwn(db, f, db'.flights[f]);
    }
  }

  lemma StepOwn(db: Db, op: Op)
    requires Fresh(db) && OwnSessions(db)
    ensures OwnSessions(Do(db, op).0)
  {
    hide OwnSessions, DoAuth, DoTeam, DoResolving;
    match op
    case Auth(auth) => AuthOwn(db, auth);
    case Resolving(resolving) => ResolvingOwn(db, resolving);
    case Team(team) =>
      TeamSessions(db, team);
      WriterFrame(db, op);
      OwnSessionsKept(db, Do(db, op).0);
    case _ =>
      WriterFrame(db, op);
      OwnSessionsKept(db, Do(db, op).0);
  }

  lemma {:induction false} RunOwn(db: Db, ops: seq<Op>)
    requires Sound(db) && OwnSessions(db)
    ensures OwnSessions(Run(db, ops))
    decreases |ops|
  {
    if ops != [] {
      hide OwnSessions, Do;
      StepOwn(db, ops[0]);
      StepSound(db, ops[0]);
      RunOwn(Do(db, ops[0]).0, ops[1..]);
    }
  }

  lemma ReachableOwn(db: Db)
    requires Reachable(db)
    ensures OwnSessions(db)
  {
    var catalogue, next, ops :| db == Run(Seeded(catalogue, next), ops);
    SeededSound(catalogue, next);
    hide Sound, Run;
    assert OwnSessions(Seeded(catalogue, next));
    hide OwnSessions, Seeded;
    RunOwn(Seeded(catalogue, next), ops);
  }

  // ---- Main results --------------------------------------------------------------------------

  /** A refresh token works at most once: after a successful refresh, replaying it in any
      continuation is detected as reuse. */
  lemma {:induction false} RefreshOnce(db: Db, t: Id, now: int, expiresAt: int, ops: seq<Op>, later: int, until: int)
    requires Reachable(db) && Refresh(db, t, now, expiresAt).1.Done?
    ensures Refresh(Run(Refresh(db, t, now, expiresAt).0, ops), t, later, until).1 == Fail(RefreshReuse)
  {
    hide Reachable, Sound;
    ReachableSound(db);
    StepSound(db, Auth(OpRefresh(t, now, expiresAt)));
    RunUsed(Refresh(db, t, now, expiresAt).0, ops, t);
  }

  /** Once a spent token is replayed, then in every continuation each token of its family is
      refused as reused, and the guard refuses every access token of the session, whatever its
      claims and whatever else the guard reads. */
  lemma {:induction false} ReuseKillsForever(db: Db, t: Id, now: int, expiresAt: int, ops: seq<Op>,
                          u: Id, later: int, until: int,
                          c: Claims, tenant: Option<Tenant>, member: Option<Membership>,
                          slugHeader: Option<string>, roleHeader: Option<string>)
    requires Reachable(db) && Refresh(db, t, now, expiresAt).1 == Fail(RefreshReuse)
    ensures var db' := Run(Refresh(db, t, now, expiresAt).0, ops);
            && (u in db'.refreshTokens && db'.refreshTokens[u].family == db.refreshTokens[t].family ==>
                  Refresh(db', u, later, until).1 == Fail(RefreshReuse))
            && (c.session == db.refreshTokens[t].session ==>
                  GuardRows(c, Row(db'.sessions, c.session), tenant, member, later, slugHeader, roleHeader) == SessionClosed)
  {
    hide Reachable, Sound;
    hide KillFamily, DeadFamily, Closed, GuardRows, Run;
    ReachableSound(db);
    SoundRefers(db);
    Detected(db, t, now, expiresAt);
    var dead := KillFamily(db, db.refreshTokens[t]);
    StepSound(db, Auth(OpRefresh(t, now, expiresAt)));
    Killed(db, t);
    RunDeadFamily(dead, ops, db.refreshTokens[t].family);
    RunClosed(dead, ops, db.refreshTokens[t].session);
    RefusedWhenDead(Run(dead, ops), u, later, until, db.refreshTokens[t].family);
    if c.session == db.refreshTokens[t].session {
      ClosedRefuses(Run(dead, ops), c, tenant, member, later, slugHeader, roleHeader);
    }
  }

  lemma SoundRefers(db: Db)
    requires Sound(db)
    ensures Fresh(db) && Refer(db)
  {
  }

  lemma Detected(db: Db, t: Id, now: int, expiresAt: int)
    requires Refresh(db, t, now, expiresAt).1 == Fail(RefreshReuse)
    ensures t in db.refreshTokens && Refresh(db, t, now, expiresAt).0 == KillFamily(db, db.refreshTokens[t])
  {
  }

  lemma ClosedRefuses(db: Db, c: Claims, tenant: Option<Tenant>, member: Option<Membership>, now: int,
                      slugHeader: Option<string>, roleHeader: Option<string>)
    requires Closed(db, c.session)
    ensures GuardRows(c, Row(db.sessions, c.session), tenant, member, now, slugHeader, roleHeader) == SessionClosed
  {
  }

  lemma Killed(db: Db, t: Id)
    requires Fresh(db) && Refer(db) && t in db.refreshTokens
    ensures DeadFamily(KillFamily(db, db.refreshTokens[t]), db.refreshTokens[t].family)
    ensures Closed(KillFamily(db, db.refreshTokens[t]), db.refreshTokens[t].session)
  {
  }

  lemma RefusedWhenDead(db: Db, u: Id, now: int, expiresAt: int, family: Id)
    requires DeadFamily(db, family)
    ensures u in db.refreshTokens && db.refreshTokens[u].family == family ==> Refresh(db, u, now, expiresAt).1 == Fail(RefreshReuse)
  {
  }

  /** When a member is suspended or removed, every session that was open for that user in that
      tenant is refused by the guard and by refresh in every continuation, reactivation included. */
  lemma {:induction false} SuspensionIsFinal(db: Db, tenant: Id, m: Id, status: MemberStatus, s: Id, ops: seq<Op>,
                          u: Id, later: int, until: int,
                          c: Claims, tenantRow: Option<Tenant>, member: Option<Membership>,
                          slugHeader: Option<string>, roleHeader: Option<string>)
    requires Reachable(db) && status != Active && UpdateStatus(db, tenant, m, status).1.Done?
    requires s in db.sessions && db.sessions[s].status == Open
    requires db.sessions[s].user == db.memberships[m].user && db.sessions[s].tenant == Some(tenant)
    ensures var db' := Run(UpdateStatus(db, tenant, m, status).0, ops);
            && (u in db'.refreshTokens && db'.refreshTokens[u].session == s ==> Refresh(db', u, later, until).1.Fail?)
            && (c.session == s ==>
                  GuardRows(c, Row(db'.sessions, c.session), tenantRow, member, later, slugHeader, roleHeader) == SessionClosed)
  {
    hide Reachable, Sound;
    ReachableSound(db);
    StepSound(db, Team(OpUpdateStatus(tenant, m, status)));
    RunClosed(UpdateStatus(db, tenant, m, status).0, ops, s);
  }

  /** So every access token issued to the member before is refused by the guard for good. */
  lemma {:induction false} SuspendedTokensDie(db: Db, tenant: Id, m: Id, status: MemberStatus, c: Claims, ops: seq<Op>, later: int,
                           tenantRow: Option<Tenant>, member: Option<Membership>,
                           slugHeader: Option<string>, roleHeader: Option<string>)
    requires Reachable(db) && status != Active && UpdateStatus(db, tenant, m, status).1.Done?
    requires c in db.issued && c.tenant == tenant && c.user == db.memberships[m].user
    ensures var db' := Run(UpdateStatus(db, tenant, m, status).0, ops);
            GuardRows(c, Row(db'.sessions, c.session), tenantRow, member, later, slugHeader, roleHeader) == SessionClosed
  {
    hide Reachable, Sound, Run;
    ReachableSound(db);
    ReachableOwn(db);
    assert SessionOf(db.sessions, c.session, c.user, tenant);
    hide OwnSessions;
    StepSound(db, Team(OpUpdateStatus(tenant, m, status)));
    SuspensionCloses(db, tenant, m, status, c.session);
    RunClosed(UpdateStatus(db, tenant, m, status).0, ops, c.session);
  }

  lemma SuspensionCloses(db: Db, tenant: Id, m: Id, status: MemberStatus, s: Id)
    requires status != Active && UpdateStatus(db, tenant, m, status).1.Done? && SessionOf(db.sessions, s, db.memberships[m].user, tenant)
    ensures Closed(UpdateStatus(db, tenant, m, status).0, s)
  {
  }

  /** After a logout the session is refused for ever. */
  lemma {:induction false} LogoutIsFinal(db: Db, s: Id, ops: seq<Op>, u: Id, later: int, until: int,
                      c: Claims, tenant: Option<Tenant>, member: Option<Membership>,
                      slugHeader: Option<string>, roleHeader: Option<string>)
    requires Reachable(db) && s in db.sessions
    ensures var db' := Run(Logout(db, s).0, ops);
            && (u in db'.refreshTokens && db'.refreshTokens[u].session == s ==> Refresh(db', u, later, until).1.Fail?)
            && (c.session == s ==>
                  GuardRows(c, Row(db'.sessions, c.session), tenant, member, later, slugHeader, roleHeader) == SessionClosed)
  {
    hide Reachable, Sound;
    ReachableSound(db);
    StepSound(db, Auth(OpLogout(s)));
    RunClosed(Logout(db, s).0, ops, s);
  }

  /** The owner of a tenant is an active member of it in every reachable state. */
  lemma OwnerAlwaysActive(db: Db, tenant: Id)
    requires Reachable(db) && tenant in db.tenants
    ensures exists m :: IsMember(db.memberships, m, tenant, db.tenants[tenant].owner) && db.memberships[m].status == Active
  {
    ReachableSound(db);
    assert OwnerActive(db.memberships, tenant, db.tenants[tenant].owner);
  }
}
