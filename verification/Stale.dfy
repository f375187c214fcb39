/** A run, from an empty database, on which an unclean acceptance leaves an admitted token behind the
    live permissions: exact coherence needs its condition.

    Bob is a member without permissions. He is suspended, invited again with a role that carries a
    permission, reactivated by hand, logs in, and only then accepts the invitation. */
module Stale {
  import opened Tables
  import opened Provisioning
  import opened Handlers
  import opened Integrity
  import opened Coherence
  import opened Access

  ghost predicate Leads(db: Db, op: Op, db': Db) {
    Do(db, op).0 == db'
  }

  lemma {:induction false} RunAppend(db: Db, ops: seq<Op>, op: Op)
    ensures Run(db, ops + [op]) == Do(Run(db, ops), op).0
    decreases |ops|
  {
    if ops == [] {
      assert ops + [op] == [op];
      assert Run(db, [op]) == Run(Do(db, op).0, [op][1..]);
    } else {
      assert (ops + [op])[1..] == ops[1..] + [op];
      RunAppend(Do(db, ops[0]).0, ops[1..], op);
    }
  }

  lemma Reach(db: Db, op: Op, db': Db)
    requires Reachable(db) && Leads(db, op, db')
    ensures Reachable(db')
  {
    var catalogue, next, ops :| db == Run(Seeded(catalogue, next), ops);
    RunAppend(Seeded(catalogue, next), ops, op);
    assert db' == Run(Seeded(catalogue, next), ops + [op]);
  }

  // The rows of the run.
  const KEY := "products.delete"
  const CATALOGUE: map<Id, Permission> := map[0 := Permission(None, KEY)]
  const OWNER_ROLE := Role(11, OWNER, true, {0})
  const LIGHT_ROLE := Role(11, LIGHT_USER, true, {})
  const VIP_ROLE := Role(11, "vip", false, {0})
  const OWNER_ROW := Assignment(11, 12, 14, TenantScope, None)
  const BOB_ROW := Assignment(11, 20, 15, TenantScope, None)
  const OWNER_MEMBER := Membership(11, 10, Active, 1)

  ghost function Founded(): Db {
    Seeded(CATALOGUE, 10).(
      users := map[10 := User("owner")],
      tenants := map[11 := Tenant("acme", Running, 10, 1)],
      roles := map[14 := OWNER_ROLE, 15 := LIGHT_ROLE],
      memberships := map[12 := OWNER_MEMBER],
      assignments := map[13 := OWNER_ROW],
      next := 16)
  }

  lemma CatalogueGrants()
    ensures GrantedIds(CATALOGUE, Everything) == {0} && GrantedIds(CATALOGUE, Only(LIGHT_USER_PERMISSIONS)) == {}
  {
    assert KEY in ALL_PERMISSION_KEYS && |KEY| == 15;
    assert forall k | k in LIGHT_USER_PERMISSIONS :: |k| != 15;
  }

  lemma FoundedReachable()
    ensures Reachable(Founded())
  {
    var db := Seeded(CATALOGUE, 10);
    assert db == Run(Seeded(CATALOGUE, 10), []);
    var r1 := ProvisionRole(map[], CATALOGUE, 11, SYSTEM_ROLES[0], 14);
    CatalogueGrants();
    assert r1 == map[14 := OWNER_ROLE];
    var r2 := ProvisionRole(r1, CATALOGUE, 11, SYSTEM_ROLES[1], 15);
    assert RoleByKey(r1, 11, LIGHT_USER).None?;
    assert r2 == map[14 := OWNER_ROLE, 15 := LIGHT_ROLE];
    assert Provision(r2, CATALOGUE, 11, SYSTEM_ROLES[1..][1..], 16) == r2;
    assert Provision(r1, CATALOGUE, 11, SYSTEM_ROLES[1..], 15) == r2;
    assert Provision(map[], CATALOGUE, 11, SYSTEM_ROLES, 14) == r2;
    assert HasKey(r2, 14, 11, OWNER);
    assert RoleByKey(r2, 11, OWNER) == Some(14);
    Reach(db, Signup("owner", "acme"), Founded());
  }

  // One step each: the vip role, bob's first invitation, and his acceptance of it.

  ghost function WithVip(): Db {
    Founded().(roles := map[14 := OWNER_ROLE, 15 := LIGHT_ROLE, 16 := VIP_ROLE], next := 17)
  }

  lemma CreateVip()
    ensures Leads(Founded(), Iam(OpCreateRole(11, "vip", {KEY})), WithVip())
  {
    assert RoleByKey(Founded().roles, 11, "vip").None?;
    assert PermissionIds(CATALOGUE, 11, {}, {KEY}) == {0};
  }

  ghost function BobInvited(): Db {
    WithVip().(invitations := map[17 := Invitation(11, "bob", 15, Pending, 18, INVITE_TTL_MS)], next := 19)
  }

  lemma InviteBob()
    ensures Leads(WithVip(), Inviting(OpInvite(11, "bob", None, None, 0)), BobInvited())
  {
    var db := WithVip();
    assert HasKey(db.roles, 15, 11, LIGHT_USER);
    assert RoleByKey(db.roles, 11, LIGHT_USER) == Some(15);
    assert UserByEmail(db.users, "bob").None?;
    assert WithdrawPending(db.invitations, 11, "bob") == map[];
  }

  ghost function BobJoined(): Db {
    WithVip().(
      users := map[10 := User("owner"), 19 := User("bob")],
      memberships := map[12 := OWNER_MEMBER, 20 := Membership(11, 19, Active, 1)],
      assignments := map[13 := OWNER_ROW, 21 := BOB_ROW],
      invitations := map[17 := Invitation(11, "bob", 15, Accepted, 18, INVITE_TTL_MS)],
      next := 22)
  }

  lemma BobJoins()
    ensures Leads(BobInvited(), Inviting(OpAccept(18, 0)), BobJoined())
  {
    FirstInvite(BobInvited());
    JoinsBob();
    hide BobInvited, BobJoined, Join, Acceptable, InviteByToken;
  }

  lemma FirstInvite(db: Db)
    requires db.invitations == map[17 := Invitation(11, "bob", 15, Pending, 18, INVITE_TTL_MS)]
    ensures InviteByToken(db.invitations, 18) == Some(17) && Acceptable(db, 18, 0)
  {
    assert HasToken(db.invitations, 17, 18);
  }

  lemma JoinsBob()
    ensures Join(BobInvited(), 17) == BobJoined()
  {
    var db := BobInvited();
    NewBob(db);
    hide Invitee, InviteeMembership, Activated;
    assert JoinRows(db, 17) == map[13 := OWNER_ROW, 21 := BOB_ROW];
    hide JoinRows;
    assert db.users == map[10 := User("owner")];
  }

  lemma NewBob(db: Db)
    requires db.users == map[10 := User("owner")] && db.memberships == map[12 := OWNER_MEMBER] && db.next == 19
    ensures Invitee(db, "bob") == 19 && InviteeMembership(db, 11, "bob") == 20
    ensures Activated(db, 11, "bob") == map[12 := OWNER_MEMBER, 20 := Membership(11, 19, Active, 1)]
  {
    assert UserByEmail(db.users, "bob").None?;
    assert MembershipOf(db.memberships, 11, 19).None?;
    hide UserByEmail, MembershipOf;
  }

  // He is suspended, invited again with the vip role, and reactivated by hand.

  ghost function BobSuspended(): Db {
    BobJoined().(memberships := map[12 := OWNER_MEMBER, 20 := Membership(11, 19, Suspended, 2)])
  }

  lemma SetsBobsStatus(db: Db, was: MemberStatus, version: nat, status: MemberStatus)
    requires db.memberships == map[12 := OWNER_MEMBER, 20 := Membership(11, 19, was, version)] && db.sessions == map[]
    requires db.tenants == map[11 := Tenant("acme", Running, 10, 1)]
    ensures UpdateStatus(db, 11, 20, status).0
         == db.(memberships := map[12 := OWNER_MEMBER, 20 := Membership(11, 19, status, version + 1)])
  {
    assert CloseSessions(map[], 19, 11) == map[];
    hide CloseSessions;
  }

  lemma SuspendBob()
    ensures Leads(BobJoined(), Team(OpUpdateStatus(11, 20, Suspended)), BobSuspended())
  {
    hide UpdateStatus;
    SetsBobsStatus(BobJoined(), Active, 1, Suspended);
  }

  ghost function BobInvitedAgain(): Db {
    BobSuspended().(
      invitations := map[17 := Invitation(11, "bob", 15, Accepted, 18, INVITE_TTL_MS),
                         22 := Invitation(11, "bob", 16, Pending, 23, INVITE_TTL_MS)],
      next := 24)
  }

  lemma BobIs(ms: map<Id, Membership>)
    requires ms.Keys == {12, 20} && ms[12] == OWNER_MEMBER && ms[20].tenant == 11 && ms[20].user == 19
    ensures MembershipOf(ms, 11, 19) == Some(20)
  {
    assert IsMember(ms, 20, 11, 19);
  }

  lemma BobByEmail(users: map<Id, User>)
    requires users == map[10 := User("owner"), 19 := User("bob")]
    ensures UserByEmail(users, "bob") == Some(19)
  {
    assert HasEmail(users, 19, "bob");
  }

  lemma InviteBobAgain()
    ensures Leads(BobSuspended(), Inviting(OpInvite(11, "bob", Some(16), None, 0)), BobInvitedAgain())
  {
    BobMayBeInvited(BobSuspended());
    InvitesBobAgain();
    hide BobSuspended, BobInvitedAgain, Invited, InvitedRole, AlreadyActive;
  }

  lemma BobMayBeInvited(db: Db)
    requires db.users == map[10 := User("owner"), 19 := User("bob")]
    requires db.memberships == map[12 := OWNER_MEMBER, 20 := Membership(11, 19, Suspended, 2)]
    requires 16 in db.roles && db.roles[16] == VIP_ROLE
    ensures InvitedRole(db, 11, Some(16), None) == Some(16) && !AlreadyActive(db, 11, "bob")
  {
    BobByEmail(db.users);
    BobIs(db.memberships);
    hide UserByEmail, MembershipOf;
  }

  lemma InvitesBobAgain()
    ensures Invited(BobSuspended(), 11, "bob", 16, 0) == BobInvitedAgain()
  {
    var invites := map[17 := Invitation(11, "bob", 15, Accepted, 18, INVITE_TTL_MS)];
    assert BobSuspended().invitations == invites;
    assert WithdrawPending(invites, 11, "bob") == invites;
    hide WithdrawPending;
  }

  ghost function BobBack(): Db {
    BobInvitedAgain().(memberships := map[12 := OWNER_MEMBER, 20 := Membership(11, 19, Active, 3)])
  }

  lemma ReactivateBob()
    ensures Leads(BobInvitedAgain(), Team(OpUpdateStatus(11, 20, Active)), BobBack())
  {
    hide UpdateStatus;
    SetsBobsStatus(BobInvitedAgain(), Suspended, 2, Active);
  }

  // He logs in; the flight's reads follow one another.

  const F0 := Flight(19, 11, None, true, false, None, None, None, map[])
  const F1 := F0.(session := Some(25))
  const F2 := F1.(rbacVersion := Some(1))
  const F3 := F2.(member := Some(Seen(20, 3)))
  const F4 := F3.(rows := Some(map[21 := BOB_ROW]))
  const F5 := F4.(roles := map[15 := LIGHT_ROLE])

  ghost function Flown(flight: Flight): Db {
    BobBack().(sessions := map[25 := Session(19, Some(11), Open, 1000)], flights := map[24 := flight], next := 26)
  }

  ghost function Started(): Db {
    BobBack().(flights := map[24 := F0], next := 25)
  }

  lemma StartBob()
    ensures Leads(BobBack(), Resolving(OpStartIssue(19, 11)), Started())
  {
  }

  lemma OpenBob()
    ensures Leads(Started(), Auth(OpCreateSession(24, 1000)), Flown(F1))
  {
  }

  lemma Onward(was: Flight, now: Flight)
    ensures Flown(was).flights == map[24 := was] && SetFlight(Flown(was), 24, now) == Flown(now)
  {
    assert Flown(was).flights[24 := now] == map[24 := now];
  }

  lemma ReadBobsTenant()
    ensures Leads(Flown(F1), Resolving(OpReadTenant(24)), Flown(F2))
  {
    Onward(F1, F2);
    assert Flown(F1).tenants == map[11 := Tenant("acme", Running, 10, 1)];
    assert SeeTenant(Flown(F1), F1) == F2;
    hide Flown, SetFlight, SeeTenant;
  }

  lemma ReadBobsMembership()
    ensures Leads(Flown(F2), Resolving(OpReadMembership(24)), Flown(F3))
  {
    Onward(F2, F3);
    BobsMembership(Flown(F2));
    hide Flown, SetFlight, SeeMembership;
  }

  lemma BobsMembership(db: Db)
    requires db.memberships == map[12 := OWNER_MEMBER, 20 := Membership(11, 19, Active, 3)]
    ensures SeeMembership(db, F2) == F3
  {
    BobIs(db.memberships);
  }

  lemma BobsRows(db: Db)
    requires db.assignments == map[13 := OWNER_ROW, 21 := BOB_ROW]
    ensures RowsOf(db.assignments, 11, 20) == map[21 := BOB_ROW]
  {
  }

  lemma ReadBobsRows()
    ensures Leads(Flown(F3), Resolving(OpReadAssignments(24)), Flown(F4))
  {
    Onward(F3, F4);
    BobsRows(Flown(F3));
    hide Flown, SetFlight, RowsOf;
  }

  lemma BobsRole(db: Db)
    requires db.roles == map[14 := OWNER_ROLE, 15 := LIGHT_ROLE, 16 := VIP_ROLE]
    ensures SeeRole(db, F4, 15) == F5 && Wants(F4, 15) && 15 !in F4.roles
  {
    assert 21 in F4.rows.value && F4.rows.value[21].role == 15;
  }

  lemma ReadBobsRole()
    ensures Leads(Flown(F4), Resolving(OpReadRole(24, 15)), Flown(F5))
  {
    Onward(F4, F5);
    BobsRole(Flown(F4));
    hide Flown, SetFlight, SeeRole, Wants;
  }

  const BOB_CLAIMS := Claims(19, 25, 11, "acme", 20, {LIGHT_USER}, {}, {}, 1, 3)

  ghost function LoggedIn(): Db {
    BobBack().(
      sessions := map[25 := Session(19, Some(11), Open, 1000)],
      refreshTokens := map[26 := RefreshToken(25, 27, None, false, 1000)],
      issued := {BOB_CLAIMS},
      next := 28)
  }

  lemma BobsClaims()
    ensures ClaimsOf(CATALOGUE, "acme", F5) == BOB_CLAIMS
  {
    var rows := map[21 := BOB_ROW];
    assert 21 in rows && rows[21] == BOB_ROW;
    assert Granted(rows, F5.roles) == {};
    assert KeysOf(CATALOGUE, {}) == {};
    assert RoleKeys(rows, F5.roles) == {LIGHT_USER};
    assert HasTenantRow(rows);
  }

  lemma SignBob()
    ensures Leads(Flown(F5), Auth(OpFinish(24, "acme", 1000)), LoggedIn())
  {
    BobsClaims();
    Onward(F5, F5);
    BobIsResolved();
    BobsTables(Flown(F5));
    FinishesBob(Flown(F5));
    hide Flown, LoggedIn, Finish;
  }

  lemma BobIsResolved()
    ensures Resolved(F5)
  {
  }

  lemma BobsTables(db: Db)
    requires db == Flown(F5)
    ensures db.permissions == CATALOGUE && db.issued == {} && db.refreshTokens == map[] && db.next == 26
    ensures db.(refreshTokens := map[26 := RefreshToken(25, 27, None, false, 1000)], issued := {BOB_CLAIMS}, flights := map[], next := 28)
         == LoggedIn()
  {
  }

  lemma FinishesBob(db: Db)
    requires db.permissions == CATALOGUE && db.issued == {} && db.refreshTokens == map[] && db.next == 26
    requires db.flights == map[24 := F5] && Resolved(F5) && ClaimsOf(CATALOGUE, "acme", F5) == BOB_CLAIMS
    ensures Finish(db, 24, "acme", 1000).0
         == db.(refreshTokens := map[26 := RefreshToken(25, 27, None, false, 1000)], issued := {BOB_CLAIMS}, flights := map[], next := 28)
  {
    assert Flying(db, 24) && db.flights - {24} == map[];
    hide ClaimsOf, Resolved;
  }

  // And at last he accepts: the vip role is his, and his version has not moved.

  lemma BobsInvite(db: Db)
    requires db.invitations == LoggedIn().invitations && db.users == LoggedIn().users && db.memberships == LoggedIn().memberships
    ensures InviteByToken(db.invitations, 23) == Some(22) && Acceptable(db, 23, 0)
    ensures Invitee(db, "bob") == 19 && InviteeMembership(db, 11, "bob") == 20
    ensures Activated(db, 11, "bob") == db.memberships
  {
    assert HasToken(db.invitations, 22, 23);
    BobByEmail(db.users);
    BobIs(db.memberships);
  }

  lemma LoggedInReachable()
    ensures Reachable(LoggedIn())
  {
    FoundedReachable();
    CreateVip();
    Reach(Founded(), Iam(OpCreateRole(11, "vip", {KEY})), WithVip());
    InviteBob();
    Reach(WithVip(), Inviting(OpInvite(11, "bob", None, None, 0)), BobInvited());
    BobJoins();
    Reach(BobInvited(), Inviting(OpAccept(18, 0)), BobJoined());
    SuspendBob();
    Reach(BobJoined(), Team(OpUpdateStatus(11, 20, Suspended)), BobSuspended());
    InviteBobAgain();
    Reach(BobSuspended(), Inviting(OpInvite(11, "bob", Some(16), None, 0)), BobInvitedAgain());
    ReactivateBob();
    Reach(BobInvitedAgain(), Team(OpUpdateStatus(11, 20, Active)), BobBack());
    StartBob();
    Reach(BobBack(), Resolving(OpStartIssue(19, 11)), Started());
    OpenBob();
    Reach(Started(), Auth(OpCreateSession(24, 1000)), Flown(F1));
    ReadBobsTenant();
    Reach(Flown(F1), Resolving(OpReadTenant(24)), Flown(F2));
    ReadBobsMembership();
    Reach(Flown(F2), Resolving(OpReadMembership(24)), Flown(F3));
    ReadBobsRows();
    Reach(Flown(F3), Resolving(OpReadAssignments(24)), Flown(F4));
    ReadBobsRole();
    Reach(Flown(F4), Resolving(OpReadRole(24, 15)), Flown(F5));
    SignBob();
    Reach(Flown(F5), Auth(OpFinish(24, "acme", 1000)), LoggedIn());
  }

  lemma BobLacksVip(was: Db)
    requires was == LoggedIn()
    ensures Acceptable(was, 23, 0) && !CleanAccept(was, 23, 0)
    ensures HasToken(was.invitations, 22, 23) && was.invitations[22].role == 16 && was.invitations[22].tenant == 11
    ensures InviteeMembership(was, 11, was.invitations[22].email) == 20 && 20 in was.memberships
    ensures 16 in was.roles && KEY in KeysOf(was.permissions, was.roles[16].permissions)
  {
    BobsInvite(was);
    assert was.assignments == map[13 := OWNER_ROW, 21 := BOB_ROW];
    assert was.roles[16] == VIP_ROLE && was.permissions == CATALOGUE;
    assert KEY in KeysOf(CATALOGUE, {0}) by {
      assert 0 in CATALOGUE;
    }
  }

  lemma BobsGain(was: Db)
    requires was == LoggedIn() && Sound(was)
    ensures var db := Accept(was, 23, 0).0;
            && db.sessions == was.sessions && db.tenants == was.tenants && db.memberships == was.memberships
            && 20 in db.memberships && KEY in KeysOf(db.permissions, Granted(LiveRows(db, 20), db.roles))
  {
    BobLacksVip(was);
    UncleanRows(was, 23, 0, 22, 20);
    AddedRow(LiveRows(was, 20), was.next + 2, Assignment(11, 20, 16, TenantScope, None), was.roles, was.permissions);
  }

  lemma GuardsBob(db: Db)
    requires db.sessions == LoggedIn().sessions && db.tenants == LoggedIn().tenants && db.memberships == LoggedIn().memberships
    ensures Guard(db, BOB_CLAIMS, 0, None, None) == Admitted
    ensures 20 in db.memberships
  {
    assert db.tenants == map[11 := Tenant("acme", Running, 10, 1)];
  }

  lemma AcceptFrame(db: Db, token: Id, now: int)
    ensures Accept(db, token, now).0.issued == db.issued
  {
  }

  /** In a reachable state the guard admits a token that lacks a live permission of its holder. */
  lemma AdmittedButBehind() returns (db: Db, c: Claims)
    ensures Reachable(db) && c in db.issued && c.membership in db.memberships
    ensures Guard(db, c, 0, None, None) == Admitted
    ensures c.permissions < LivePermissions(db, c.membership)
  {
    LoggedInReachable();
    var was := LoggedIn();
    c := BOB_CLAIMS;
    assert c in was.issued;
    ReachableSound(was);
    db := AcceptedBy(was);
    GuardsBob(db);
  }

  lemma ReachAccept(was: Db, token: Id, now: int)
    requires Reachable(was)
    ensures Reachable(Accept(was, token, now).0)
  {
    Reach(was, Inviting(OpAccept(token, now)), Accept(was, token, now).0);
  }

  lemma AcceptedBy(was: Db) returns (db: Db)
    requires was == LoggedIn() && Reachable(was) && Sound(was)
    ensures Reachable(db) && db.issued == was.issued
    ensures db.sessions == was.sessions && db.tenants == was.tenants && db.memberships == was.memberships
    ensures 20 in db.memberships && KEY in KeysOf(db.permissions, Granted(LiveRows(db, 20), db.roles))
  {
    BobsGain(was);
    AcceptFrame(was, 23, 0);
    ReachAccept(was, 23, 0);
    db := Accept(was, 23, 0).0;
  }

  // ---- A store-scoped row that restricts nothing ---------------------------------------------------

  lemma StripOwner()
    ensures var db := DeleteAssignment(Founded(), 11, 13).0;
            && MemberInTenant(db, 11, 12) && RoleInTenant(db, 11, 15) && LiveRows(db, 12) == map[]
            && db.memberships[12].status == Active
  {
    assert Founded().assignments == map[13 := OWNER_ROW];
    hide SYSTEM_ROLES, LIGHT_USER_PERMISSIONS;
  }

  /** In a reachable state every assignment of an active member is limited to stores, and yet the member
      sees every store, because the one row names none. */
  lemma EveryStoreOpened() returns (db: Db, m: Id)
    ensures Reachable(db) && m in db.memberships && db.memberships[m].status == Active && LiveRows(db, m) != map[]
    ensures forall a | a in LiveRows(db, m) :: LiveRows(db, m)[a].scopeType == StoreScope
    ensures forall store :: Sees(LiveScope(db, m), store)
  {
    hide Reachable, Founded;
    FoundedReachable();
    StripOwner();
    hide DeleteAssignment;
    var bare := DeleteAssignment(Founded(), 11, 13).0;
    Reach(Founded(), Iam(OpDeleteAssignment(11, 13)), bare);
    db, m := CreateAssignment(bare, 11, 12, 15, StoreScope, None).0, 12;
    Reach(bare, Iam(OpCreateAssignment(11, 12, 15, StoreScope, None)), db);
    UnnamedStoreOpensAll(bare, 11, 12, 15, 0);
    CreatedKeepsStatus(bare, 11, 12, 15);
    hide CreateAssignment, LiveRows, LiveScope;
    assert forall a | a in LiveRows(db, m) :: LiveRows(db, m)[a] in LiveRows(db, m).Values;
    assert Assignment(11, 12, 15, StoreScope, None) in LiveRows(db, m).Values;
  }

  lemma CreatedKeepsStatus(db: Db, tenant: Id, m: Id, role: Id)
    requires MemberInTenant(db, tenant, m)
    ensures var db' := CreateAssignment(db, tenant, m, role, StoreScope, None).0;
            m in db'.memberships && db'.memberships[m].status == db.memberships[m].status
  {
  }
}
