/** The main results on access tokens, over every run of the system from a seeded database. */
module Access {
  import opened Tables
  import opened Provisioning
  import opened Handlers
  import opened Integrity
  import opened Coherence
  import Sessions

  /** Every acceptance of the run is as harmless as the closeness asks when it happens: of the same
      permissions and scope when it is clean, or when its role adds no permission key and the scope is
      the whole tenant; of identical rows when it lands on a new or non-active membership, or on a role
      already held. */
  ghost predicate AllowedRun(db: Db, ops: seq<Op>, mode: Closeness)
    decreases |ops|
  {
    ops == [] || (AllowedStep(db, ops[0], mode) && AllowedRun(Do(db, ops[0]).0, ops[1..], mode))
  }

  lemma {:induction false} AnyRunWithin(db: Db, ops: seq<Op>)
    ensures AllowedRun(db, ops, Within)
    decreases |ops|
  {
    hide Do;
    if ops != [] {
      AnyRunWithin(Do(db, ops[0]).0, ops[1..]);
    }
  }

  lemma {:induction false} RunCoherent(db: Db, ops: seq<Op>, mode: Closeness)
    requires Sound(db) && Coherent(db, mode) && AllowedRun(db, ops, mode)
    ensures Coherent(Run(db, ops), mode)
    decreases |ops|
  {
    if ops != [] {
      hide Sound, Coherent, Do, AllowedStep;
      StepCoherent(db, ops[0], mode);
      StepSound(db, ops[0]);
      RunCoherent(Do(db, ops[0]).0, ops[1..], mode);
    }
  }

  lemma SeededCoherent(catalogue: map<Id, Permission>, next: Id, mode: Closeness)
    ensures Sound(Seeded(catalogue, next)) && Coherent(Seeded(catalogue, next), mode)
  {
  }

  lemma ReachableCoherent(db: Db)
    requires Reachable(db)
    ensures Coherent(db, Within)
  {
    var catalogue, next, ops :| db == Run(Seeded(catalogue, next), ops);
    SeededCoherent(catalogue, next, Within);
    AnyRunWithin(Seeded(catalogue, next), ops);
    hide Coherent, Sound, AllowedRun;
    RunCoherent(Seeded(catalogue, next), ops, Within);
  }

  /** Whatever session and tenant rows the guard saw before, if it admits an issued token after
      reading the membership row in `db`, then the token's holder is an active member whose live
      permissions, roles and stores in `db` include those of the token. The tenant's own version
      counter plays no part in this. */
  lemma AdmittedWithinLive(db: Db, c: Claims, session: Option<Session>, tenant: Option<Tenant>,
                           now: int, slugHeader: Option<string>, roleHeader: Option<string>)
    requires Reachable(db) && c in db.issued
    requires GuardRows(c, session, tenant, Row(db.memberships, c.membership), now, slugHeader, roleHeader) == Admitted
    ensures IsMember(db.memberships, c.membership, c.tenant, c.user) && db.memberships[c.membership].status == Active
    ensures c.permissions <= LivePermissions(db, c.membership)
    ensures c.roles <= RoleKeys(LiveRows(db, c.membership), db.roles)
    ensures forall store :: Sees(c.storeScope, store) ==> Sees(LiveScope(db, c.membership), store)
  {
    ReachableCoherent(db);
    assert ClaimsCoherent(db, c, Within);
  }

  /** On runs of harmless acceptances an admitted token carries exactly the live permissions and the
      live scope, and on runs of clean ones exactly the live roles too. */
  lemma {:induction false} AdmittedExactlyLive(catalogue: map<Id, Permission>, next: Id, ops: seq<Op>, c: Claims,
                            session: Option<Session>, tenant: Option<Tenant>,
                            now: int, slugHeader: Option<string>, roleHeader: Option<string>)
    requires AllowedRun(Seeded(catalogue, next), ops, Same)
    requires c in Run(Seeded(catalogue, next), ops).issued
    requires GuardRows(c, session, tenant, Row(Run(Seeded(catalogue, next), ops).memberships, c.membership),
                       now, slugHeader, roleHeader) == Admitted
    ensures var db := Run(Seeded(catalogue, next), ops);
            && c.permissions == LivePermissions(db, c.membership) && c.storeScope == LiveScope(db, c.membership)
            && (AllowedRun(Seeded(catalogue, next), ops, Identical) ==> c.roles == RoleKeys(LiveRows(db, c.membership), db.roles))
  {
    AllowedFits(catalogue, next, ops, c, Same);
    if AllowedRun(Seeded(catalogue, next), ops, Identical) {
      AllowedFits(catalogue, next, ops, c, Identical);
    }
    hide AllowedRun, Run, Seeded;
  }

  lemma {:induction false} AllowedFits(catalogue: map<Id, Permission>, next: Id, ops: seq<Op>, c: Claims, mode: Closeness)
    requires AllowedRun(Seeded(catalogue, next), ops, mode) && c in Run(Seeded(catalogue, next), ops).issued
    ensures ClaimsCoherent(Run(Seeded(catalogue, next), ops), c, mode)
  {
    hide AllowedRun, Run, Seeded, Sound;
    SeededCoherent(catalogue, next, mode);
    RunCoherent(Seeded(catalogue, next), ops, mode);
  }

  /** The step changes what the membership may do, or where, or leaves it not active. */
  ghost predicate Changes(db: Db, db': Db, m: Id) {
    m in db.memberships && m in db'.memberships &&
    (LivePermissions(db', m) != LivePermissions(db, m) || LiveScope(db', m) != LiveScope(db, m) || db'.memberships[m].status != Active)
  }

  /** Such a step moves the member's version, so that after it, and in every continuation, the guard
      admits none of the tokens issued before; only an acceptance that is not harmless does not. */
  lemma {:induction false} ChangeEvicts(db: Db, op: Op, later: seq<Op>, c: Claims, session: Option<Session>, tenant: Option<Tenant>,
                     now: int, slugHeader: Option<string>, roleHeader: Option<string>)
    requires Reachable(db) && c in db.issued && AllowedStep(db, op, Same) && Changes(db, Do(db, op).0, c.membership)
    ensures GuardRows(c, session, tenant, Row(Run(Do(db, op).0, later).memberships, c.membership), now, slugHeader, roleHeader)
            != Admitted
  {
    hide Sound, AllowedStep, Changes, Do, Run;
    ReachableSound(db);
    ReachableCoherent(db);
    assert ClaimsCoherent(db, c, Within);
    hide Coherent;
    ChangeMoves(db, op, c.membership, c.memberVersion);
    StepSound(db, op);
    RunVersion(Do(db, op).0, later, c.membership);
  }

  /** A version that was read while the member was active lies behind after the change. */
  lemma ChangeMoves(db: Db, op: Op, m: Id, version: nat)
    requires Sound(db) && AllowedStep(db, op, Same) && Changes(db, Do(db, op).0, m)
    requires m in db.memberships && version <= db.memberships[m].version
    requires Current(db, m, version) ==> db.memberships[m].status == Active
    ensures m in Do(db, op).0.memberships && version < Do(db, op).0.memberships[m].version
  {
    hide Sound, AllowedStep, Do;
    var db' := Do(db, op).0;
    StepSteady(db, op, Same);
    assert SteadyMember(db, db', m, Same);
    if Current(db', m, version) {
      SteadySame(db, db', m);
    }
  }

  /** Nor does a `resolve` that had read the membership row before such a step ever yield a token that
      the guard admits, however the call ends and whenever the token is shown. */
  lemma {:induction false} ChangeEvictsResolves(db: Db, op: Op, between: seq<Op>, f: Id, slug: string, expiresAt: int, later: seq<Op>,
                             session: Option<Session>, tenant: Option<Tenant>,
                             now: int, slugHeader: Option<string>, roleHeader: Option<string>)
    requires Reachable(db) && f in db.flights && db.flights[f].member.Some?
    requires AllowedStep(db, op, Same) && Changes(db, Do(db, op).0, db.flights[f].member.value.id)
    ensures var signing := Run(Do(db, op).0, between);
            Finish(signing, f, slug, expiresAt).1.Done? ==>
              var c := ClaimsOf(signing.permissions, slug, signing.flights[f]);
              && c in Finish(signing, f, slug, expiresAt).0.issued
              && GuardRows(c, session, tenant, Row(Run(Finish(signing, f, slug, expiresAt).0, later).memberships, c.membership),
                           now, slugHeader, roleHeader) != Admitted
  {
    var seen := db.flights[f].member.value;
    var db', signing := Do(db, op).0, Run(Do(db, op).0, between);
    hide Reachable, Sound, AllowedStep, Changes, Do, Run, Coherent, Remembers, Finish, ClaimsOf, GuardRows;
    ReachableSound(db);
    ReachableCoherent(db);
    SeenWhileActive(db, f);
    ChangeMoves(db, op, seen.id, seen.version);
    StepSound(db, op);
    Remembered(db, f);
    StepRemembers(db, op, f, seen);
    RunRemembers(db', between, f, seen);
    RunSound(db', between);
    RunVersion(db', between, seen.id);
    FinishVersion(signing, f, slug, expiresAt, later, seen.id);
    if Finish(signing, f, slug, expiresAt).1.Done? {
      SignsWhatItSaw(signing, f, slug, expiresAt, seen);
      var c := ClaimsOf(signing.permissions, slug, signing.flights[f]);
      OldVersionRefused(c, session, tenant, Run(Finish(signing, f, slug, expiresAt).0, later), now, slugHeader, roleHeader);
    }
  }

  lemma SeenWhileActive(db: Db, f: Id)
    requires Coherent(db, Within) && f in db.flights && db.flights[f].member.Some?
    ensures var seen := db.flights[f].member.value;
            && seen.id in db.memberships && seen.version <= db.memberships[seen.id].version
            && (Current(db, seen.id, seen.version) ==> db.memberships[seen.id].status == Active)
  {
    assert FlightCoherent(db, db.flights[f], Within);
  }

  lemma SignsWhatItSaw(db: Db, f: Id, slug: string, expiresAt: int, seen: Seen)
    requires Remembers(db, f, seen) && Finish(db, f, slug, expiresAt).1.Done?
    ensures f in db.flights && Resolved(db.flights[f]) && db.flights[f].session.Some?
    ensures var c := ClaimsOf(db.permissions, slug, db.flights[f]);
            c.membership == seen.id && c.memberVersion == seen.version && c in Finish(db, f, slug, expiresAt).0.issued
  {
    hide Resolved;
  }

  /** What the flight read of the membership; ids are never drawn twice. */
  ghost predicate Remembers(db: Db, f: Id, seen: Seen) {
    f < db.next && (f in db.flights ==> db.flights[f].member == Some(seen))
  }

  lemma Remembered(db: Db, f: Id)
    requires Sound(db) && f in db.flights && db.flights[f].member.Some?
    ensures Remembers(db, f, db.flights[f].member.value)
  {
  }

  lemma StepRemembers(db: Db, op: Op, f: Id, seen: Seen)
    requires Remembers(db, f, seen)
    ensures Remembers(Do(db, op).0, f, seen)
  {
    match op
    case Auth(auth) => AuthRemembers(db, auth, f, seen);
    case Resolving(resolving) => ResolvingRemembers(db, resolving, f, seen);
    case _ => WriterFrame(db, op);
    hide DoIam, DoTeam, DoInviting, SignUp, DoAuth, DoResolving;
  }

  lemma AuthRemembers(db: Db, op: SessionOp, f: Id, seen: Seen)
    requires Remembers(db, f, seen)
    ensures Remembers(DoAuth(db, op).0, f, seen)
  {
    match op
    case OpCreateSession(g, expiresAt) => CreateSessionRemembers(db, g, expiresAt, f, seen);
    case OpFinish(g, slug, expiresAt) => FinishRemembers(db, g, slug, expiresAt, f, seen);
    case OpRefresh(t, now, expiresAt) => RefreshRemembers(db, t, now, expiresAt, f, seen);
    case _ =>
    hide CreateSession, Finish, Refresh, RevokeSessionTokens, CloseSession;
  }

  lemma CreateSessionRemembers(db: Db, g: Id, expiresAt: int, f: Id, seen: Seen)
    requires Remembers(db, f, seen)
    ensures Remembers(CreateSession(db, g, expiresAt).0, f, seen)
  {
  }

  lemma FinishRemembers(db: Db, g: Id, slug: string, expiresAt: int, f: Id, seen: Seen)
    requires Remembers(db, f, seen)
    ensures Remembers(Finish(db, g, slug, expiresAt).0, f, seen)
  {
    hide ClaimsOf, Resolved;
  }

  lemma RefreshRemembers(db: Db, t: Id, now: int, expiresAt: int, f: Id, seen: Seen)
    requires Remembers(db, f, seen)
    ensures Remembers(Refresh(db, t, now, expiresAt).0, f, seen)
  {
    if t in db.refreshTokens {
      KillRemembers(db, db.refreshTokens[t], f, seen);
      if db.refreshTokens[t].session in db.sessions && db.sessions[db.refreshTokens[t].session].tenant.Some? {
        var session := db.sessions[db.refreshTokens[t].session];
        RotateRemembers(db, t, session.user, session.tenant.value, expiresAt, f, seen);
      }
    }
    hide Remembers, KillFamily, Rotate, Spent;
  }

  lemma KillRemembers(db: Db, token: RefreshToken, f: Id, seen: Seen)
    requires Remembers(db, f, seen)
    ensures Remembers(KillFamily(db, token), f, seen)
  {
    hide RevokeFamily, CloseSession;
  }

  lemma RotateRemembers(db: Db, t: Id, user: Id, tenant: Id, expiresAt: int, f: Id, seen: Seen)
    requires Remembers(db, f, seen) && t in db.refreshTokens
    ensures Remembers(Rotate(db, t, db.refreshTokens[t], user, tenant, expiresAt), f, seen)
  {
  }

  lemma ResolvingRemembers(db: Db, op: ReadOp, f: Id, seen: Seen)
    requires Remembers(db, f, seen)
    ensures Remembers(DoResolving(db, op).0, f, seen)
  {
    hide RowsOf, MembershipOf, Wants;
  }

  lemma {:induction false} RunRemembers(db: Db, ops: seq<Op>, f: Id, seen: Seen)
    requires Remembers(db, f, seen)
    ensures Remembers(Run(db, ops), f, seen)
    decreases |ops|
  {
    hide Do, Remembers;
    if ops != [] {
      StepRemembers(db, ops[0], f, seen);
      RunRemembers(Do(db, ops[0]).0, ops[1..], f, seen);
    }
  }

  lemma {:induction false} FinishVersion(db: Db, f: Id, slug: string, expiresAt: int, later: seq<Op>, m: Id)
    requires Sound(db) && m in db.memberships
    ensures var end := Run(Finish(db, f, slug, expiresAt).0, later);
            m in end.memberships && db.memberships[m].version <= end.memberships[m].version
  {
    hide Sound, Run;
    var op := Auth(OpFinish(f, slug, expiresAt));
    assert Do(db, op) == Finish(db, f, slug, expiresAt);
    hide Finish;
    StepVersion(db, op, m);
    StepSound(db, op);
    RunVersion(Do(db, op).0, later, m);
  }

  lemma OldVersionRefused(c: Claims, session: Option<Session>, tenant: Option<Tenant>, db: Db,
                          now: int, slugHeader: Option<string>, roleHeader: Option<string>)
    requires c.membership in db.memberships && c.memberVersion < db.memberships[c.membership].version
    ensures GuardRows(c, session, tenant, Row(db.memberships, c.membership), now, slugHeader, roleHeader) != Admitted
  {
  }

  lemma SteadySame(db: Db, db': Db, m: Id)
    requires Sound(db) && Steady(db, db', Same)
    requires m in db.memberships && db.memberships[m].status == Active && Current(db', m, db.memberships[m].version)
    ensures !Changes(db, db', m)
  {
    assert SteadyMember(db, db', m, Same);
    GrownScope(db', LiveRows(db, m), LiveRows(db', m), Same);
    GrownPermissions(db, db', LiveRows(db, m), LiveRows(db', m), Same);
  }

  lemma {:induction false} RunVersion(db: Db, ops: seq<Op>, m: Id)
    requires Sound(db) && m in db.memberships
    ensures m in Run(db, ops).memberships && db.memberships[m].version <= Run(db, ops).memberships[m].version
    decreases |ops|
  {
    hide Sound, Do;
    if ops != [] {
      var db' := Do(db, ops[0]).0;
      StepVersion(db, ops[0], m);
      StepSound(db, ops[0]);
      RunVersion(db', ops[1..], m);
    }
  }

  lemma StepVersion(db: Db, op: Op, m: Id)
    requires Sound(db) && m in db.memberships
    ensures m in Do(db, op).0.memberships && db.memberships[m].version <= Do(db, op).0.memberships[m].version
  {
    hide Do;
    StepStays(db, op);
    assert MemberStays(db.memberships, Do(db, op).0.memberships, m, OwnsTenant(db, m));
  }

  /** After `updateRoles` the member holds the listed roles and no others, each for the whole tenant. */
  lemma RolesReplaced(db: Db, tenant: Id, m: Id, roleIds: seq<Id>)
    requires Reachable(db) && UpdateRoles(db, tenant, m, roleIds).1.Done?
    ensures var db' := UpdateRoles(db, tenant, m, roleIds).0;
            && m in db'.memberships
            && RoleKeys(LiveRows(db', m), db'.roles) == (set r | r in roleIds && r in db.roles :: db.roles[r].key)
            && LiveScope(db', m) == {}
  {
    hide Reachable, Sound;
    ReachableSound(db);
    Sessions.SoundRefers(db);
    AllFound(db, tenant, roleIds);
    var db' := UpdateRoles(db, tenant, m, roleIds).0;
    var rows := FreshRows(tenant, m, roleIds, db.next);
    NewLiveRows(db.assignments, tenant, m, roleIds, db.next);
    assert LiveRows(db', m) == rows;
    hide UpdateRoles, LiveRows;
    forall r | r in roleIds ensures db.roles[r].key in RoleKeys(rows, db.roles) {
      var i :| 0 <= i < |roleIds| && roleIds[i] == r;
      assert rows[db.next + i].role == r;
    }
    if roleIds != [] {
      assert rows[db.next].scopeType == TenantScope;
    }
  }

  lemma {:induction false} NewLiveRows(rows: map<Id, Assignment>, tenant: Id, m: Id, roleIds: seq<Id>, next: Id)
    requires Below(rows, next)
    ensures RowsOf(WithoutMember(rows, tenant, m) + FreshRows(tenant, m, roleIds, next), tenant, m) == FreshRows(tenant, m, roleIds, next)
  {
  }

  // ---- Where exactness is lost -------------------------------------------------------

  /** An acceptance that gives an already active member a role it lacks leaves the member's tokens
      admitted. Such a token, exact before, stays exact if and only if the acceptance is harmless: the
      role adds no permission key and the scope was the whole tenant already. */
  lemma AcceptKeepsExactIff(db: Db, token: Id, now: int, i: Id, c: Claims)
    requires Reachable(db) && Acceptable(db, token, now) && !CleanAccept(db, token, now)
    requires HasToken(db.invitations, i, token)
    requires c.membership == InviteeMembership(db, db.invitations[i].tenant, db.invitations[i].email)
    requires c.membership in db.memberships
    requires c.permissions == LivePermissions(db, c.membership) && c.storeScope == LiveScope(db, c.membership)
    ensures var db' := Accept(db, token, now).0;
            && db'.memberships == db.memberships && db'.tenants == db.tenants && db'.sessions == db.sessions
            && (c.permissions == LivePermissions(db', c.membership) && c.storeScope == LiveScope(db', c.membership)
                <==> HarmlessAccept(db, token, now))
  {
    hide Reachable, Sound, Accept, Acceptable, CleanAccept, InviteeMembership, Granted, KeysOf;
    ReachableSound(db);
    var m, inv := c.membership, db.invitations[i];
    var row := Assignment(inv.tenant, m, inv.role, TenantScope, None);
    UncleanRows(db, token, now, i, m);
    AddedRow(LiveRows(db, m), db.next + 2, row, db.roles, db.permissions);
  }

  lemma UncleanRows(db: Db, token: Id, now: int, i: Id, m: Id)
    requires Sound(db) && Acceptable(db, token, now) && !CleanAccept(db, token, now)
    requires HasToken(db.invitations, i, token)
    requires m == InviteeMembership(db, db.invitations[i].tenant, db.invitations[i].email)
    ensures var (db', inv) := (Accept(db, token, now).0, db.invitations[i]);
            && db'.memberships == db.memberships && db'.tenants == db.tenants && db'.sessions == db.sessions
            && db'.roles == db.roles && db'.permissions == db.permissions
            && InviteByToken(db.invitations, token) == Some(i) && inv.role in db.roles && db.next + 2 !in LiveRows(db, m)
            && LiveRows(db', m) == LiveRows(db, m)[db.next + 2 := Assignment(inv.tenant, m, inv.role, TenantScope, None)]
  {
    hide MembersUnique, EmailsUnique, SlugsUnique, KeysUnique, Owned;
    assert InviteByToken(db.invitations, token) == Some(i);
  }

  // ---- Store scope (store-scope.ts) ------------------------------------------------------

  datatype StoreFilter = EveryStore | OneStore(id: Id) | StoresIn(ids: set<Id>) | Forbidden

  function StoreScopeFilter(scope: set<Id>, requested: Option<Id>): StoreFilter {
    match requested
    case Some(s) => if scope != {} && s !in scope then Forbidden else OneStore(s)
    case None => if scope != {} then StoresIn(scope) else EveryStore
  }

  predicate Selects(f: StoreFilter, store: Id) {
    match f
    case EveryStore => true
    case OneStore(s) => store == s
    case StoresIn(ids) => store in ids
    case Forbidden => false
  }

  /** The filter built for an admitted token selects a store's rows exactly when the token sees the
      store and the caller asked for it or for none; and only stores in the live scope. */
  lemma FilterWithinLive(db: Db, c: Claims, requested: Option<Id>, store: Id, session: Option<Session>, tenant: Option<Tenant>,
                         now: int, slugHeader: Option<string>, roleHeader: Option<string>)
    requires Reachable(db) && c in db.issued
    requires GuardRows(c, session, tenant, Row(db.memberships, c.membership), now, slugHeader, roleHeader) == Admitted
    ensures Selects(StoreScopeFilter(c.storeScope, requested), store)
       <==> Sees(c.storeScope, store) && (requested == None || requested == Some(store))
    ensures Selects(StoreScopeFilter(c.storeScope, requested), store) ==> Sees(LiveScope(db, c.membership), store)
  {
    AdmittedWithinLive(db, c, session, tenant, now, slugHeader, roleHeader);
  }

  /** A scope is empty, and so opens every store, exactly when some row is tenant-wide or no row
      names a store: store-scoped rows without a store id open them all too. */
  lemma ScopeOpenIff(rows: map<Id, Assignment>)
    ensures ScopeOf(rows) == {} <==> HasTenantRow(rows) || forall a | a in rows :: rows[a].scopeId.None?
  {
    if !HasTenantRow(rows) && exists a :: a in rows && rows[a].scopeId.Some? {
      var a :| a in rows && rows[a].scopeId.Some?;
      assert rows[a].scopeId.value in ScopeOf(rows);
    }
  }

  /** So a store-scoped assignment that names no store, given to a member without assignments, opens
      every store: the request is admitted, and the row does not restrict. */
  lemma UnnamedStoreOpensAll(db: Db, tenant: Id, m: Id, role: Id, store: Id)
    requires Reachable(db) && MemberInTenant(db, tenant, m) && RoleInTenant(db, tenant, role) && LiveRows(db, m) == map[]
    ensures var (db', r) := CreateAssignment(db, tenant, m, role, StoreScope, None);
            && r.Done? && MemberInTenant(db', tenant, m)
            && LiveRows(db', m).Values == {Assignment(tenant, m, role, StoreScope, None)}
            && LiveScope(db', m) == {} && Sees(LiveScope(db', m), store)
            && PermissionsOf(db', LiveRows(db', m)) == KeysOf(db.permissions, db.roles[role].permissions)
  {
    hide Reachable;
    ReachableSound(db);
    var row := Assignment(tenant, m, role, StoreScope, None);
    hide Refer, Unique, Owned;
    OnlyRow(db.assignments, db.memberships[m].tenant, m, db.next, row);
    hide Fresh, LiveRows, RowsOf, Granted, KeysOf;
    SingleRow(db, db.next, row);
  }

  lemma OnlyRow(rows: map<Id, Assignment>, tenant: Id, m: Id, a: Id, row: Assignment)
    requires RowsOf(rows, tenant, m) == map[] && a !in rows && row.tenant == tenant && row.membership == m
    ensures RowsOf(rows[a := row], tenant, m) == map[a := row]
  {
    assert forall b | b in RowsOf(rows[a := row], tenant, m) :: b == a || b in RowsOf(rows, tenant, m);
  }

  lemma SingleRow(db: Db, a: Id, row: Assignment)
    requires row.role in db.roles && row.scopeType == StoreScope && row.scopeId == None
    ensures map[a := row].Values == {row} && ScopeOf(map[a := row]) == {}
    ensures PermissionsOf(db, map[a := row]) == KeysOf(db.permissions, db.roles[row.role].permissions)
  {
    var rows := map[a := row];
    assert rows[a] == row;
    assert Granted(rows, db.roles) == db.roles[row.role].permissions;
  }
}
