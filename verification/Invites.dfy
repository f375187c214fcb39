/** The life of an invitation, over every run. */
module Invites {
  import opened Tables
  import opened Provisioning
  import opened Handlers
  import opened Integrity
  import Sessions

  /** At most one invitation of an address to a tenant is pending. */
  ghost predicate OnePending(invites: map<Id, Invitation>) {
    forall i, j | i in invites && j in invites && invites[i].status == Pending && invites[j].status == Pending
      && invites[i].tenant == invites[j].tenant && invites[i].email == invites[j].email :: i == j
  }

  /** A token that was handed out and that no pending invitation carries. */
  ghost predicate DeadToken(db: Db, token: Id) {
    token < db.next && forall i | i in db.invitations && db.invitations[i].token == token :: db.invitations[i].status != Pending
  }

  /** What an invitation step may leave pending: what was pending with the same token, or a row
      whose token is new. */
  ghost predicate PendingAges(invites: map<Id, Invitation>, invites': map<Id, Invitation>, next: Id) {
    forall i | i in invites' && invites'[i].status == Pending ::
      next <= invites'[i].token || (i in invites && invites[i].status == Pending && invites[i].token == invites'[i].token)
  }

  lemma InvitedAges(db: Db, tenant: Id, email: string, role: Id, now: int)
    requires Fresh(db)
    ensures var invites := Invited(db, tenant, email, role, now).invitations;
            PendingAges(db.invitations, invites, db.next) && (OnePending(db.invitations) ==> OnePending(invites))
  {
    var left := WithdrawPending(db.invitations, tenant, email);
    StillPending(db.invitations, tenant, email);
    assert Invited(db, tenant, email, role, now).invitations[db.next].token == db.next + 1;
    hide WithdrawPending;
  }

  lemma StillPending(invites: map<Id, Invitation>, tenant: Id, email: string)
    ensures var left := WithdrawPending(invites, tenant, email);
            && left.Keys == invites.Keys
            && forall i | i in left && left[i].status == Pending ::
                 left[i] == invites[i] && (invites[i].tenant != tenant || invites[i].email != email)
  {
  }

  lemma InviteAges(db: Db, tenant: Id, email: string, roleId: Option<Id>, roleKey: Option<string>, now: int)
    requires Fresh(db)
    ensures var invites := Invite(db, tenant, email, roleId, roleKey, now).0.invitations;
            PendingAges(db.invitations, invites, db.next) && (OnePending(db.invitations) ==> OnePending(invites))
  {
    hide Fresh, Invited;
    var role := InvitedRole(db, tenant, roleId, roleKey);
    if role.Some? {
      InvitedAges(db, tenant, email, role.value, now);
    }
  }

  lemma ResendAges(db: Db, tenant: Id, i: Id, now: int)
    ensures var invites := Resend(db, tenant, i, now).0.invitations;
            PendingAges(db.invitations, invites, db.next) && (OnePending(db.invitations) ==> OnePending(invites))
  {
  }

  lemma WithdrawInviteAges(db: Db, tenant: Id, i: Id)
    ensures var invites := WithdrawInvite(db, tenant, i).0.invitations;
            PendingAges(db.invitations, invites, db.next) && (OnePending(db.invitations) ==> OnePending(invites))
  {
  }

  lemma AcceptAges(db: Db, token: Id, now: int)
    ensures var invites := Accept(db, token, now).0.invitations;
            PendingAges(db.invitations, invites, db.next) && (OnePending(db.invitations) ==> OnePending(invites))
  {
  }

  lemma InvitingAges(db: Db, op: InviteOp)
    requires Fresh(db)
    ensures var invites := DoInviting(db, op).0.invitations;
            PendingAges(db.invitations, invites, db.next) && (OnePending(db.invitations) ==> OnePending(invites))
  {
    hide Fresh, PendingAges, OnePending, Invite, Resend, WithdrawInvite, Accept;
    match op
    case OpInvite(t, email, roleId, roleKey, now) => InviteAges(db, t, email, roleId, roleKey, now);
    case OpResend(t, i, now) => ResendAges(db, t, i, now);
    case OpWithdrawInvite(t, i) => WithdrawInviteAges(db, t, i);
    case OpAccept(token, now) => AcceptAges(db, token, now);
  }

  lemma StepAges(db: Db, op: Op)
    requires Fresh(db)
    ensures var invites := Do(db, op).0.invitations;
            PendingAges(db.invitations, invites, db.next) && (OnePending(db.invitations) ==> OnePending(invites))
  {
    hide Fresh, DoInviting, DoAuth, DoResolving, OnePending;
    match op
    case Inviting(inviting) => InvitingAges(db, inviting);
    case Auth(auth) => AuthFrame(db, auth);
    case Resolving(resolving) => ResolvingFrame(db, resolving);
    case _ => WriterFrame(db, op);
  }

  lemma NextGrows(db: Db, op: Op)
    requires Fresh(db)
    ensures db.next <= Do(db, op).0.next
  {
    hide Fresh, DoInviting, DoAuth, DoResolving;
    match op
    case Auth(auth) => Sessions.AuthAges(db, auth);
    case Resolving(resolving) => ResolvingFrame(db, resolving);
    case _ => WriterFrame(db, op);
  }

  lemma StepDeadToken(db: Db, op: Op, token: Id)
    requires Fresh(db) && DeadToken(db, token)
    ensures DeadToken(Do(db, op).0, token)
  {
    hide Fresh, Do;
    NextGrows(db, op);
    StepAges(db, op);
  }

  lemma {:induction false} RunOnePending(db: Db, ops: seq<Op>)
    requires Sound(db) && OnePending(db.invitations)
    ensures OnePending(Run(db, ops).invitations)
    decreases |ops|
  {
    if ops != [] {
      StepAges(db, ops[0]);
      StepSound(db, ops[0]);
      RunOnePending(Do(db, ops[0]).0, ops[1..]);
    }
  }

  lemma {:induction false} RunDeadToken(db: Db, ops: seq<Op>, token: Id)
    requires Sound(db) && DeadToken(db, token)
    ensures Sound(Run(db, ops)) && DeadToken(Run(db, ops), token)
    decreases |ops|
  {
    if ops != [] {
      StepDeadToken(db, ops[0], token);
      StepSound(db, ops[0]);
      RunDeadToken(Do(db, ops[0]).0, ops[1..], token);
    }
  }

  /** In every reachable state at most one invitation per tenant and address is pending. */
  lemma AtMostOnePending(db: Db, i: Id, j: Id)
    requires Reachable(db) && i in db.invitations && j in db.invitations
    requires db.invitations[i].status == Pending && db.invitations[j].status == Pending
    requires db.invitations[i].tenant == db.invitations[j].tenant && db.invitations[i].email == db.invitations[j].email
    ensures i == j
  {
    var catalogue, next, ops :| db == Run(Seeded(catalogue, next), ops);
    RunOnePending(Seeded(catalogue, next), ops);
  }

  /** The handlers that take a token out of use: acceptance of the token itself, a resend or a
      revocation of its invitation, and a new invitation of the same address to the same tenant. */
  ghost predicate Supersedes(db: Db, op: InviteOp, token: Id) {
    exists i :: HasToken(db.invitations, i, token) && Ends(db, op, i)
  }

  predicate Ends(db: Db, op: InviteOp, i: Id)
    requires i in db.invitations
  {
    match op
    case OpAccept(t, now) => t == db.invitations[i].token
    case OpResend(t, x, now) => x == i
    case OpWithdrawInvite(t, x) => x == i
    case OpInvite(t, email, roleId, roleKey, now) => t == db.invitations[i].tenant && email == db.invitations[i].email
  }

  lemma AcceptedIsDead(db: Db, token: Id, now: int)
    requires Fresh(db) && TokensUnique(db.invitations) && Accept(db, token, now).1.Done?
    ensures DeadToken(Accept(db, token, now).0, token)
  {
    var i := InviteByToken(db.invitations, token).value;
    assert forall j | HasToken(db.invitations, j, token) :: j == i;
    assert forall j | j in db.invitations && db.invitations[j].token == token :: HasToken(db.invitations, j, token);
  }

  lemma ResentIsDead(db: Db, tenant: Id, i: Id, now: int)
    requires Fresh(db) && TokensUnique(db.invitations) && Resend(db, tenant, i, now).1.Done?
    ensures DeadToken(Resend(db, tenant, i, now).0, db.invitations[i].token)
  {
    var token := db.invitations[i].token;
    assert HasToken(db.invitations, i, token);
    assert forall j | j in db.invitations && db.invitations[j].token == token :: HasToken(db.invitations, j, token);
  }

  lemma WithdrawnIsDead(db: Db, tenant: Id, i: Id)
    requires Fresh(db) && TokensUnique(db.invitations) && WithdrawInvite(db, tenant, i).1.Done?
    ensures DeadToken(WithdrawInvite(db, tenant, i).0, db.invitations[i].token)
  {
    var token := db.invitations[i].token;
    assert HasToken(db.invitations, i, token);
    assert forall j | j in db.invitations && db.invitations[j].token == token :: HasToken(db.invitations, j, token);
  }

  lemma ReinvitedIsDead(db: Db, tenant: Id, email: string, role: Id, now: int, i: Id)
    requires Fresh(db) && TokensUnique(db.invitations) && i in db.invitations
    requires db.invitations[i].tenant == tenant && db.invitations[i].email == email
    ensures DeadToken(Invited(db, tenant, email, role, now), db.invitations[i].token)
  {
    var token := db.invitations[i].token;
    assert HasToken(db.invitations, i, token);
    var withdrawn := WithdrawPending(db.invitations, tenant, email);
    forall j | j in withdrawn && withdrawn[j].token == token ensures withdrawn[j].status != Pending {
      assert HasToken(db.invitations, j, token);
    }
    assert Invited(db, tenant, email, role, now).invitations.Keys == withdrawn.Keys + {db.next};
  }

  lemma SupersededIsDead(db: Db, op: InviteOp, token: Id)
    requires Sound(db) && Supersedes(db, op, token) && DoInviting(db, op).1.Done?
    ensures DeadToken(DoInviting(db, op).0, token)
  {
    var i :| HasToken(db.invitations, i, token) && Ends(db, op, i);
    match op
    case OpAccept(_, now) => AcceptedIsDead(db, token, now);
    case OpResend(t, _, now) => ResentIsDead(db, t, i, now);
    case OpWithdrawInvite(t, _) => WithdrawnIsDead(db, t, i);
    case OpInvite(t, email, roleId, roleKey, now) =>
      ReinvitedIsDead(db, t, email, InvitedRole(db, t, roleId, roleKey).value, now, i);
  }

  /** A token that was accepted or superseded is never accepted again, in any continuation. */
  lemma {:induction false} TokenDiesForGood(db: Db, op: InviteOp, token: Id, ops: seq<Op>, now: int)
    requires Reachable(db) && Supersedes(db, op, token) && DoInviting(db, op).1.Done?
    ensures Accept(Run(DoInviting(db, op).0, ops), token, now).1 == Fail(InvitationInvalid)
  {
    hide Reachable, Sound, Supersedes, DoInviting;
    ReachableSound(db);
    StepSound(db, Inviting(op));
    SupersededIsDead(db, op, token);
    RunDeadToken(DoInviting(db, op).0, ops, token);
  }

  /** Acceptance leaves one membership of the invited address in the tenant: it is active and it
      holds the role, for the whole tenant or as it did before. */
  lemma AcceptanceJoins(db: Db, token: Id, now: int, i: Id)
    requires Reachable(db) && HasToken(db.invitations, i, token) && Accept(db, token, now).1.Done?
    ensures var (db', m, inv) := (Accept(db, token, now).0, Accept(db, token, now).1.id, db.invitations[i]);
            && m in db'.memberships && db'.memberships[m].tenant == inv.tenant && db'.memberships[m].status == Active
            && HasEmail(db'.users, db'.memberships[m].user, inv.email)
            && (forall n | IsMember(db'.memberships, n, inv.tenant, db'.memberships[m].user) :: n == m)
            && (forall u | HasEmail(db'.users, u, inv.email) :: u == db'.memberships[m].user)
            && Holds(db'.assignments, inv.tenant, m, inv.role)
            && db'.invitations[i].status == Accepted
  {
    hide Reachable, Sound, Accept, HasEmail, IsMember, Holds;
    ReachableSound(db);
    StepSound(db, Inviting(OpAccept(token, now)));
    Joined(db, token, now, i);
    var (db', r) := Accept(db, token, now);
    OnlyMember(db', r.id, db.invitations[i].email);
  }

  lemma OnlyMember(db: Db, m: Id, email: string)
    requires Sound(db) && m in db.memberships && HasEmail(db.users, db.memberships[m].user, email)
    ensures forall n | IsMember(db.memberships, n, db.memberships[m].tenant, db.memberships[m].user) :: n == m
    ensures forall u | HasEmail(db.users, u, email) :: u == db.memberships[m].user
  {
    assert IsMember(db.memberships, m, db.memberships[m].tenant, db.memberships[m].user);
  }

  lemma Joined(db: Db, token: Id, now: int, i: Id)
    requires Sound(db) && HasToken(db.invitations, i, token) && Accept(db, token, now).1.Done?
    ensures var (db', m, inv) := (Accept(db, token, now).0, Accept(db, token, now).1.id, db.invitations[i]);
            && m in db'.memberships && db'.memberships[m].tenant == inv.tenant && db'.memberships[m].status == Active
            && HasEmail(db'.users, db'.memberships[m].user, inv.email)
            && Holds(db'.assignments, inv.tenant, m, inv.role)
            && i in db'.invitations && db'.invitations[i].status == Accepted
  {
    assert InviteByToken(db.invitations, token) == Some(i);
    var (db', r) := Accept(db, token, now);
    var inv := db.invitations[i];
    if !Holds(db.assignments, inv.tenant, r.id, inv.role) {
      assert db.next + 2 in db'.assignments;
    }
  }

  // ---- When an invitation can be used ----------------------------------------------------------------

  ghost predicate PendingWith(db: Db, token: Id, now: int) {
    exists i :: i in db.invitations && db.invitations[i].token == token && db.invitations[i].status == Pending
                && now <= db.invitations[i].expiresAt
  }

  /** A token is accepted exactly when a pending invitation carries it and has not run out. */
  lemma AcceptedIff(db: Db, token: Id, now: int)
    requires TokensUnique(db.invitations)
    ensures var r := Accept(db, token, now).1;
            (r.Done? <==> PendingWith(db, token, now)) && (r == Fail(InvitationInvalid) <==> !PendingWith(db, token, now))
  {
    if i :| i in db.invitations && db.invitations[i].token == token && db.invitations[i].status == Pending
            && now <= db.invitations[i].expiresAt {
      assert HasToken(db.invitations, i, token);
      assert InviteByToken(db.invitations, token) == Some(i);
    }
    hide Join;
  }

  /** No step of the run ends the invitation. */
  ghost predicate LeftAlone(db: Db, ops: seq<Op>, i: Id)
    decreases |ops|
  {
    ops == [] || (!EndedBy(db, ops[0], i) && LeftAlone(Do(db, ops[0]).0, ops[1..], i))
  }

  ghost predicate EndedBy(db: Db, op: Op, i: Id) {
    op.Inviting? && i in db.invitations && Ends(db, op.inviting, i) && Do(db, op).1.Done?
  }

  lemma InviteKeeps(db: Db, op: InviteOp, i: Id)
    requires Fresh(db) && i in db.invitations && op.OpInvite?
    requires Ends(db, op, i) ==> DoInviting(db, op).1.Fail?
    ensures i in DoInviting(db, op).0.invitations && DoInviting(db, op).0.invitations[i] == db.invitations[i]
  {
    hide InvitedRole, AlreadyActive;
  }

  lemma AcceptKeeps(db: Db, token: Id, now: int, i: Id)
    requires i in db.invitations && (token == db.invitations[i].token ==> Accept(db, token, now).1.Fail?)
    ensures i in Accept(db, token, now).0.invitations && Accept(db, token, now).0.invitations[i] == db.invitations[i]
  {
    hide Invitee, Activated, JoinRows, InviteeMembership;
  }

  lemma InvitingKeeps(db: Db, op: InviteOp, i: Id)
    requires Fresh(db) && i in db.invitations && (Ends(db, op, i) ==> DoInviting(db, op).1.Fail?)
    ensures i in DoInviting(db, op).0.invitations && DoInviting(db, op).0.invitations[i] == db.invitations[i]
  {
    match op
    case OpInvite(_, _, _, _, _) => InviteKeeps(db, op, i);
    case OpResend(t, x, now) => ResendKeeps(db, t, x, now, i);
    case OpWithdrawInvite(t, x) => RevocationKeeps(db, t, x, i);
    case OpAccept(token, now) => AcceptKeeps(db, token, now, i);
    hide Invite, Accept, Resend, WithdrawInvite, Fresh;
  }

  lemma ResendKeeps(db: Db, tenant: Id, x: Id, now: int, i: Id)
    requires i in db.invitations && (x == i ==> Resend(db, tenant, x, now).1.Fail?)
    ensures i in Resend(db, tenant, x, now).0.invitations && Resend(db, tenant, x, now).0.invitations[i] == db.invitations[i]
  {
  }

  lemma RevocationKeeps(db: Db, tenant: Id, x: Id, i: Id)
    requires i in db.invitations && (x == i ==> WithdrawInvite(db, tenant, x).1.Fail?)
    ensures i in WithdrawInvite(db, tenant, x).0.invitations && WithdrawInvite(db, tenant, x).0.invitations[i] == db.invitations[i]
  {
  }

  lemma StepKeepsInvitation(db: Db, op: Op, i: Id)
    requires Sound(db) && i in db.invitations && !EndedBy(db, op, i)
    ensures i in Do(db, op).0.invitations && Do(db, op).0.invitations[i] == db.invitations[i]
  {
    hide DoInviting, DoAuth, DoResolving, DoIam, DoTeam, SignUp, Refer, Owned, MembersUnique, KeysUnique;
    match op
    case Inviting(inviting) => InvitingKeeps(db, inviting, i);
    case Auth(auth) => AuthFrame(db, auth);
    case Resolving(resolving) => ResolvingFrame(db, resolving);
    case _ => WriterFrame(db, op);
  }

  lemma {:induction false} RunKeepsInvitation(db: Db, ops: seq<Op>, i: Id)
    requires Sound(db) && i in db.invitations && LeftAlone(db, ops, i)
    ensures i in Run(db, ops).invitations && Run(db, ops).invitations[i] == db.invitations[i] && Sound(Run(db, ops))
    decreases |ops|
  {
    hide Sound, Do, EndedBy;
    if ops != [] {
      StepKeepsInvitation(db, ops[0], i);
      StepSound(db, ops[0]);
      RunKeepsInvitation(Do(db, ops[0]).0, ops[1..], i);
    }
  }

  /** A pending invitation can be accepted until it runs out, in every continuation that does not resend,
      revoke, accept or supersede it. */
  lemma {:induction false} OpenUntilItRunsOut(db: Db, i: Id, ops: seq<Op>, now: int)
    requires Reachable(db) && i in db.invitations && db.invitations[i].status == Pending && LeftAlone(db, ops, i)
    ensures Accept(Run(db, ops), db.invitations[i].token, now).1.Done? <==> now <= db.invitations[i].expiresAt
  {
    hide Reachable, Run, LeftAlone, Sound;
    ReachableSound(db);
    RunKeepsInvitation(db, ops, i);
    TokenIsIts(Run(db, ops), i, db.invitations[i].token, now);
  }

  lemma TokenIsIts(db: Db, i: Id, token: Id, now: int)
    requires Sound(db) && HasToken(db.invitations, i, token) && db.invitations[i].status == Pending
    ensures Accept(db, token, now).1.Done? <==> now <= db.invitations[i].expiresAt
  {
    AcceptedIff(db, token, now);
    assert forall j | j in db.invitations && db.invitations[j].token == token :: HasToken(db.invitations, j, token);
    hide Accept;
  }

  const SEVEN_DAYS_MS := 604_800_000

  /** The role that an invitation offers: the listed one, or the tenant's of the given key, by default light_user. */
  ghost predicate Offers(db: Db, tenant: Id, roleId: Option<Id>, roleKey: Option<string>, role: Id) {
    && RoleInTenant(db, tenant, role)
    && (roleId.Some? ==> role == roleId.value)
    && (roleId.None? ==> db.roles[role].key == if roleKey.Some? then roleKey.value else "light_user")
  }

  ghost predicate ActiveAlready(db: Db, tenant: Id, email: string) {
    exists m :: m in db.memberships && db.memberships[m].tenant == tenant && db.memberships[m].status == Active
                && db.memberships[m].user in db.users && db.users[db.memberships[m].user].email == email
  }

  lemma RoleOffered(db: Db, tenant: Id, roleId: Option<Id>, roleKey: Option<string>)
    requires KeysUnique(db.roles)
    ensures forall role: Id :: InvitedRole(db, tenant, roleId, roleKey) == Some(role) <==> Offers(db, tenant, roleId, roleKey, role)
  {
    forall role: Id ensures InvitedRole(db, tenant, roleId, roleKey) == Some(role) <==> Offers(db, tenant, roleId, roleKey, role) {
      if roleId.None? {
        var key := if roleKey.Some? then roleKey.value else "light_user";
        assert HasKey(db.roles, role, tenant, key) <==> Offers(db, tenant, roleId, roleKey, role);
      }
    }
  }

  lemma ActiveAlreadyIff(db: Db, tenant: Id, email: string)
    requires MembersUnique(db.memberships) && EmailsUnique(db.users)
    ensures AlreadyActive(db, tenant, email) <==> ActiveAlready(db, tenant, email)
  {
    if m :| m in db.memberships && db.memberships[m].tenant == tenant && db.memberships[m].status == Active
            && db.memberships[m].user in db.users && db.users[db.memberships[m].user].email == email {
      assert HasEmail(db.users, db.memberships[m].user, email);
      assert IsMember(db.memberships, m, tenant, db.memberships[m].user);
    }
  }

  /** An invitation goes out exactly when the role exists in the tenant and the address has no active
      membership in it; it then stands for seven days, and any earlier one of the address is revoked. */
  lemma InviteLeaves(db: Db, tenant: Id, email: string, roleId: Option<Id>, roleKey: Option<string>, now: int)
    requires Reachable(db)
    ensures var (db', r) := Invite(db, tenant, email, roleId, roleKey, now);
            var known := exists role: Id :: Offers(db, tenant, roleId, roleKey, role);
            && (r.Done? <==> known && !ActiveAlready(db, tenant, email))
            && (r == Fail(RoleNotFound) <==> !known)
            && (r == Fail(AlreadyMember) <==> known && ActiveAlready(db, tenant, email))
            && (r.Done? ==>
                  && r.id !in db.invitations && r.id in db'.invitations
                  && var inv := db'.invitations[r.id];
                     && inv.tenant == tenant && inv.email == email && inv.status == Pending && inv.expiresAt == now + SEVEN_DAYS_MS
                     && Offers(db, tenant, roleId, roleKey, inv.role)
                     && (forall j | j in db.invitations :: db.invitations[j].token != inv.token))
            && (r.Done? ==>
                  && db'.invitations.Keys == db.invitations.Keys + {r.id}
                  && forall j | j in db.invitations :: db'.invitations[j] ==
                       if db.invitations[j].tenant == tenant && db.invitations[j].email == email && db.invitations[j].status == Pending
                       then db.invitations[j].(status := Withdrawn) else db.invitations[j])
            && db' == db.(invitations := db'.invitations, next := db'.next)
  {
    hide Reachable;
    ReachableSound(db);
    RoleOffered(db, tenant, roleId, roleKey);
    ActiveAlreadyIff(db, tenant, email);
    hide InvitedRole, AlreadyActive, Offers, ActiveAlready, Unique, Owned, Refer, Invited;
    var role := InvitedRole(db, tenant, roleId, roleKey);
    if role.Some? {
      assert Offers(db, tenant, roleId, roleKey, role.value);
      InvitedLeaves(db, tenant, email, role.value, now);
    }
    hide Fresh;
  }

  lemma InvitedLeaves(db: Db, tenant: Id, email: string, role: Id, now: int)
    requires Fresh(db)
    ensures var db' := Invited(db, tenant, email, role, now);
            && db.next !in db.invitations && db.next in db'.invitations
            && (forall j | j in db.invitations :: db.invitations[j].token != db'.invitations[db.next].token)
            && db'.invitations[db.next].(token := 0) == Invitation(tenant, email, role, Pending, 0, now + SEVEN_DAYS_MS)
            && db'.invitations.Keys == db.invitations.Keys + {db.next}
            && (forall j | j in db.invitations :: db'.invitations[j] ==
                  if db.invitations[j].tenant == tenant && db.invitations[j].email == email && db.invitations[j].status == Pending
                  then db.invitations[j].(status := Withdrawn) else db.invitations[j])
            && db' == db.(invitations := db'.invitations, next := db'.next)
  {
  }

  /** A resend, or a revocation, needs a pending invitation of the tenant. A resent one stands for seven
      more days under a token that nothing carried before; every other one stays. */
  lemma ResendLeaves(db: Db, tenant: Id, i: Id, now: int)
    requires Fresh(db)
    ensures var (db', r) := Resend(db, tenant, i, now);
            var standing := i in db.invitations && db.invitations[i].tenant == tenant && db.invitations[i].status == Pending;
            && (r.Done? <==> standing) && (r == Fail(InvitationInvalid) <==> !standing)
            && (r.Done? ==>
                  && i in db'.invitations && db'.invitations[i].expiresAt == now + SEVEN_DAYS_MS
                  && (forall j | j in db.invitations :: db.invitations[j].token != db'.invitations[i].token)
                  && db'.invitations[i].(token := 0, expiresAt := 0) == db.invitations[i].(token := 0, expiresAt := 0)
                  && db' == db.(invitations := db.invitations[i := db'.invitations[i]], next := db'.next))
  {
  }

  lemma RevocationLeaves(db: Db, tenant: Id, i: Id)
    ensures var (db', r) := WithdrawInvite(db, tenant, i);
            var standing := i in db.invitations && db.invitations[i].tenant == tenant && db.invitations[i].status == Pending;
            && (r.Done? <==> standing) && (r == Fail(InvitationInvalid) <==> !standing)
            && (r.Done? ==> i in db'.invitations && db'.invitations[i].status == Withdrawn
                            && db' == db.(invitations := db.invitations[i := db.invitations[i].(status := Withdrawn)]))
  {
  }

  /** The joining member's rows are the old ones, and a tenant-wide one of the offered role unless they
      held the role already; a new membership starts at version one, an old one keeps its version. */
  lemma AcceptanceAdds(db: Db, token: Id, now: int, i: Id)
    requires Reachable(db) && HasToken(db.invitations, i, token) && Accept(db, token, now).1.Done?
    ensures var (db', m, inv) := (Accept(db, token, now).0, Accept(db, token, now).1.id, db.invitations[i]);
            && m in db'.memberships && db'.memberships == db.memberships[m := db'.memberships[m]]
            && db'.memberships[m].version == (if m in db.memberships then db.memberships[m].version else 1)
            && (Holds(db.assignments, inv.tenant, m, inv.role) ==> db'.assignments == db.assignments)
            && (!Holds(db.assignments, inv.tenant, m, inv.role) ==>
                  exists a: Id :: a !in db.assignments
                    && db'.assignments == db.assignments[a := Assignment(inv.tenant, m, inv.role, TenantScope, None)])
            && db' == db.(users := db'.users, memberships := db'.memberships, assignments := db'.assignments, next := db'.next,
                          invitations := db.invitations[i := inv.(status := Accepted)])
  {
    hide Reachable;
    ReachableSound(db);
    hide Refer, Owned, MembersUnique, EmailsUnique, SlugsUnique, KeysUnique;
    assert InviteByToken(db.invitations, token) == Some(i);
    assert db.next + 2 !in db.assignments;
    hide Invitee;
  }
}
