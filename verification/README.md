# Nexora backend: a Dafny model and its proofs

This project models three parts of the backend and proves what they promise, for every input and every run.

**Authorisation** (`Tables`, `Provisioning`, `Handlers`, `Integrity`, `Coherence`, `Access`, `Stale`, `Isolation`, `Sessions`,
`Issuing`, `Effects`, `Invites`, `Backend`, `Login`, `Otp`, `Slug`). An access token is a signed snapshot of a member's permissions, roles and stores. The
guard trusts the snapshot only while two version counters match the database, so this is a cache-coherence protocol. One value,
`Db`, holds the tables; every handler that writes access data is one atomic step on it, except that `resolve` (the call
that collects the snapshot) reads the tenant, the membership, the assignments and each role in separate steps, in any
interleaving with other writers. `Run` chains steps; `Reachable` states are those that a run leads to from a seeded database. `Handlers`
gives each handler as a function; the class `Backend.Database` carries the handlers out table by table and is proved to do the same.
`Login` and `Otp` are the password lock and the signup code, each as a class over the row it updates, with theorems over whole
runs of calls. `Slug` is the tenant slug with its search loop.

**Order-history analytics** (`Sorting`, `Sums`, `Reals`, `Forecast`, `Segments`, `Similarity`, `CoPurchase`, `Reorder`, `Retention`,
`Cadence`, `Rollup`). The loops are methods, proved against sums and counts that are defined independently; what those mean is proved as lemmas.

**Connector sync** (`Sync`, `SyncTrace`, `SyncLaws`, `SyncWebhook`, `SyncContent`, `SyncService`). `SyncService.CommerceStore` keeps the rows by id, finds
them by key and creates what is missing; it refines the keyed tables of `Sync`. `SyncTrace` reduces a whole sync to the list of writes each
table receives, and the laws follow from that. Where a query by external id alone could return several rows, the database's choice is a parameter,
`pick`, and may differ between runs.

Proofs are kept small. Induction is always written out: `{:induction false}` turns off the one that the verifier would add by itself.
A `hide` statement in a body takes a definition out of that proof's context; it only ever gives the verifier less to use.

## What the proofs found

- As long as every writer is one atomic step, only the membership's own version counter is needed for safety: a token that the guard admits
  never exceeds the live permissions, whatever the tenant's counter says (`Access.AdmittedWithinLive`). Between overlapping transactions the
  tenant's counter does matter: it alone would catch an assignment that commits between `set_role_permissions`' update of the role's holders
  and its commit.
- Accepting an invitation on a membership that is already active adds a role without moving a counter, so an admitted token may lack a
  live permission. `Access.AcceptKeepsExactIff` gives the exact condition, `Stale.AdmittedButBehind` a run that gets there. On runs
  whose acceptances all meet that condition an admitted token carries exactly the live permissions and scope (`Access.AdmittedExactlyLive`).
- A store-scoped assignment without a store id opens every store (`Access.ScopeOpenIff`), and the endpoint that creates assignments accepts one
  (`Access.UnnamedStoreOpensAll`); `Stale.EveryStoreOpened` is a run to a member whose only row is store-scoped and who sees all stores.
- A slug base is cut to 32 characters after its hyphens are stripped, so it may end with a hyphen, and a numbered candidate may then
  double one (`Slug.EndsWithHyphenIff`, `Slug.DoubledIff`; `Slug.CutName` is such a name).
- The failure counter survives the lock, so after eight wrong passwords one more locks the account again (`Login.BoundIsTight`).
- A product on two lines of an order is listed as bought together with itself, and counts as a repeat purchase
  (`CoPurchase.SelfPairIff` and `Reorder.RepeatWithoutReorderIff`, with one order in `CoPurchase.BoughtWithItself` and `Reorder.RepeatsWithinOneOrder`).
- New customers of adjacent windows add up, active customers need not: whoever buys in both counts in each
  (`Retention.AdjacentWindowsAdd`).
- The count of customers churned as of the previous window uses each customer's last order of all, so it misses those who have come back
  since; it is right exactly when nobody has (`Retention.PrevChurnedIff`, `Retention.CameBack`).
- With a negative number of days, more customers may count as churned before than now (`Retention.PrevChurnedBeyond`).
- The rollup's range begins at a moment, not at midnight, and it moves with the clock. A rerun whose range begins later leaves every row as it
  is if and only if no order of a store and day that it still covers was left behind (`Rollup.RerunIff`); for all orders that holds exactly
  when the range begins at the same moment or at midnight (`Rollup.RerunsKeepIff`). Otherwise a whole day's row is overwritten with part of
  the day, as in `Rollup.RerunShrinks`. The comment at `src/modules/analytics/analytics.module.ts:56-60` calls the rollup idempotent without
  that condition.
- A row of the rollup has the currency of its first order. It is that of all its orders if and only if they share one
  (`Rollup.CurrencyIff`); otherwise amounts of different currencies are added up unconverted (`Rollup.CurrenciesMix`).
- A rerun of the sync is idempotent if and only if no order refers to an external id that two sources share (`SyncLaws.RerunIff`;
  `SyncLaws.RerunMayChange` has a store and a listing where it is not). The connector interface allows several sources, but in this
  repository only the Shopify connector lists rows, and the others list nothing. Where one connector alone has written the tables the
  condition always holds, so its reruns change nothing (`SyncLaws.OneSourceReruns`).
- A webhook leaves no trace under a later sync that lists its order if and only if each of its columns is listed again or was the row's
  own before (`SyncWebhook.WebhookThenSyncIff`). The service meets this always: `src/modules/integrations/sync.service.ts:154-164` fills
  the same columns for every order, with defaults for what an order lacks (`SyncWebhook.ServiceWebhookThenSync`).

## Model

| member | source | states |
|---|---|---|
| Access.AdmittedWithinLive | src/shared/rbac/membership-context.service.ts:26-80 | In every reachable state, if the guard admits an issued token after reading the membership row there, whatever session and tenant rows it saw earlier, then the holder is an active member of that tenant and the token's permissions, roles and stores lie within the live ones |
| Access.AdmittedExactlyLive | src/common/guards/auth.guard.ts:45-75 | On runs whose acceptances are all harmless (onto a new or non-active membership, onto a role already held, or adding no permission under a tenant-wide scope), an admitted token carries exactly the live permissions and scope; on runs without the last kind, exactly the live roles too |
| Access.ChangeEvicts | src/modules/iam/iam.service.ts:132-202 | A step that changes what a member may do, or where, or leaves it not active, makes the guard refuse every token issued to it before, in every continuation; only an acceptance that is not harmless is excepted |
| Access.ChangeEvictsResolves | src/shared/rbac/membership-context.service.ts:26-80 | A `resolve` that had read the membership row before such a step, and signs its token at any time after it, yields one that the guard refuses in every continuation |
| Access.AcceptKeepsExactIff | src/modules/invitations/invitations.service.ts:150-180 | An acceptance that gives an active member a further role moves no counter; an exact token stays exact if and only if the acceptance is harmless: the role adds no permission key and the scope was the whole tenant |
| Access.RolesReplaced | src/modules/team/team.service.ts:84-104 | After `updateRoles` the member's role keys are those of the listed roles and the scope is the whole tenant |
| Access.FilterWithinLive | src/common/store-scope.ts:8-19 | The store filter of an admitted token selects a store exactly when the token sees it and the caller asked for it or for none, and then the live scope includes it |
| Access.ScopeOpenIff | src/shared/rbac/membership-context.service.ts:66-69 | A scope opens every store if and only if some row is tenant-wide or no row names a store |
| Access.UnnamedStoreOpensAll | src/modules/iam/iam.service.ts:161-188 | A store-scoped assignment that names no store, created for a member without rows, makes every store visible to it |
| Access.RunCoherent | src/shared/rbac/membership-context.service.ts:23-83 | The coherence of running `resolve` calls and issued tokens is kept over every run: from below on all runs, in permissions and scope on runs with harmless acceptances, in roles too on clean ones |
| Stale.AdmittedButBehind | src/modules/invitations/invitations.service.ts:122-189 | A reachable state in which the guard admits a token that lacks a live permission of its holder |
| Stale.EveryStoreOpened | src/modules/iam/iam.schemas.ts:24-29 | A reachable state with an active member whose rows are all store-scoped and who sees every store |
| Coherence.StepCoherent | src/shared/rbac/membership-context.service.ts:26-80 | Every step of the system keeps the coherence of all running calls and issued tokens |
| Coherence.SteadyCoherent | src/shared/rbac/membership-context.service.ts:26-46 | A step that moves a version, or else only adds rows and keeps assigned roles, keeps everything coherent that was collected before it |
| Coherence.SetRolePermissionsSteady | prisma/sql/setup.sql:49-83 | Rewriting a role's permissions moves the version of every member who holds it and leaves everyone else's rows and roles alone |
| Coherence.DeleteRoleSteady | src/modules/iam/iam.service.ts:114-130 | Deleting an unassigned role takes nothing from anyone |
| Coherence.CreateAssignmentSteady | src/modules/iam/iam.service.ts:161-188 | A new assignment moves the version of its member and touches nobody else's rows |
| Coherence.DeleteAssignmentSteady | src/modules/iam/iam.service.ts:190-202 | So does the removal of one |
| Coherence.UpdateRolesSteady | src/modules/team/team.service.ts:84-104 | So does the replacement of a member's roles |
| Coherence.AcceptSteady | src/modules/invitations/invitations.service.ts:150-180 | An acceptance without a version change only adds a tenant-wide row; a clean one leaves the rows of an active member as they are |
| Coherence.ReadMembershipCoherent | src/shared/rbac/membership-context.service.ts:26-34 | The version is remembered together with an active status, before any data is read |
| Coherence.ReadAssignmentsCoherent | src/shared/rbac/membership-context.service.ts:37-46 | Rows read later still fit the version, or the version is no longer current |
| Coherence.SignedCoherent | src/modules/auth/auth.service.ts:396-416 | Signing what a coherent `resolve` collected gives coherent claims |
| Isolation.OtherTenantsUntouched | src/modules/iam/iam.service.ts:73-202 | A role or team operation of one tenant leaves the membership row, permissions, scope, sessions and tenant row of another tenant's member as they were |
| Isolation.NoForeignPermission | src/modules/iam/iam.service.ts:132-159 | In every reachable state a role holds only permissions that are global or its own tenant's |
| Effects.HeldIff | src/shared/rbac/membership-context.service.ts:59-62 | A member holds a permission key if and only if one of their rows names a role that carries it |
| Effects.SeenIff | src/shared/rbac/membership-context.service.ts:66-69 | A member sees a store if and only if a row is for the whole tenant, no row names a store, or one names this store |
| Effects.AssignmentTable | src/modules/iam/iam.service.ts:161-181 | When an assignment is created, and which refusal comes otherwise |
| Effects.AssignmentAdds | src/modules/iam/iam.service.ts:170-181 | In every reachable state the member ends with the old rows and one of the given role, scope type and store, and holds what they held and what the role carries |
| Effects.AssignmentScope | src/modules/iam/iam.service.ts:170-181 | A member with rows for named stores alone sees after one more such row exactly the old stores and the new one; a tenant-wide row opens all |
| Effects.RemovalTable | src/modules/iam/iam.service.ts:190-194 | When an assignment is deleted |
| Effects.RemovalTakes | src/modules/iam/iam.service.ts:190-202 | In every reachable state the member keeps every other row and holds exactly what those carry |
| Effects.CreatedRole | src/modules/iam/iam.service.ts:73-103 | A role is created if and only if the tenant has none of the key; it is no system role and holds exactly the permissions of the listed keys that are open to the tenant |
| Effects.DeletedRole | src/modules/iam/iam.service.ts:114-130 | A role is deleted if and only if it is the tenant's own, no system role, and named by no assignment and no invitation |
| Effects.RewrittenRole | src/modules/iam/iam.service.ts:132-159 | The role ends with exactly the permissions asked for, by ids or else by keys, that are open to the tenant |
| Effects.RewriteReaches | prisma/sql/setup.sql:49-83 | Each member then holds what their other roles carry, and what was asked for if they hold the role |
| Effects.RewriteMoves | prisma/sql/setup.sql:49-83 | The version moves of exactly those members who have a row of the role |
| Effects.StatusTable | src/modules/team/team.service.ts:60-67 | Strangers are refused, and any status but the active one for the owner |
| Effects.StatusLeaves | src/modules/team/team.service.ts:68-80 | The member has the status; exactly their open sessions in the tenant are closed when it is not the active one |
| Effects.RolesTable | src/modules/team/team.service.ts:84-92 | Roles are replaced if and only if the member and all listed roles are the tenant's and no role is listed twice |
| Effects.RolesLeave | src/modules/team/team.service.ts:92-104 | The version of that member alone moves, other members' rows stay, and no other table changes |
| Effects.SignupTable | src/modules/auth/auth.service.ts:225-252 | A signup goes through if and only if the address and the slug are free |
| Effects.SignupFounds | src/modules/auth/auth.service.ts:225-252 | A new tenant in business, whose owner is its active member and holds, for all stores, exactly the catalogue's permissions that were seeded; the other rows stay |
| Effects.LightUserProvisioned | src/shared/rbac/rbac-provisioning.ts:25-58 | The new tenant has a light user's role too, a system role like the owner's; it carries no permission that the owner's lacks, and neither managing roles nor inviting |
| Effects.RefusalsChangeNothing | src/modules/iam/iam.service.ts:73-202 | A refused call of any handler leaves the database as it was, except a replayed refresh token |
| Integrity.ReachableSound | src/modules/auth/auth.service.ts:225-252 | In every reachable state ids are fresh, foreign keys hold, the unique columns are unique and every tenant's owner is an active member |
| Integrity.StepKeeps | src/modules/iam/iam.service.ts:73-202 | Every step keeps ids fresh, references valid and unique columns unique |
| Integrity.StepStays | src/modules/team/team.service.ts:60-82 | No step changes a tenant's owner or a membership's identity, lets a version fall or deactivates an owner's membership |
| Integrity.AllFound | src/modules/team/team.service.ts:89-92 | Counting as many roles as were listed means that every listed role is the tenant's |
| Provisioning.ProvisionImplements | src/shared/rbac/rbac-provisioning.ts:17-58 | Afterwards every definition has a role of the tenant holding exactly the seeded permissions it asks for |
| Provisioning.ProvisionIdempotent | src/shared/rbac/rbac-provisioning.ts:12-16 | Provisioning twice is provisioning once |
| Provisioning.ProvisionFrame | src/shared/rbac/rbac-provisioning.ts:17-58 | Other tenants' roles are untouched, existing roles are reused, keys stay unique |
| Provisioning.ProvisionTenantRbac | src/shared/rbac/rbac-provisioning.ts:25-64 | The loop computes the same table and returns, for every definition, the id of its role |
| Sessions.FamilyIsOneChain | src/modules/auth/auth.service.ts:421-485 | In every reachable state the tokens of a refresh family form one chain of one session, each replaced by the next, and an unrevoked one can only be the last |
| Sessions.RefreshOnce | src/modules/auth/auth.service.ts:460-468 | A token that was rotated is refused as reused in every continuation |
| Sessions.ReuseKillsForever | src/modules/auth/auth.service.ts:431-442 | After a replay, in every continuation, every token of the family is refused and the guard rejects every access token of the session |
| Sessions.SuspensionIsFinal | src/modules/team/team.service.ts:68-80 | A session open when its member was suspended or removed never passes the guard or a refresh again, reactivation included |
| Sessions.SuspendedTokensDie | src/modules/team/team.service.ts:68-80 | Every access token issued to that member in that tenant before is refused for good |
| Sessions.LogoutIsFinal | src/modules/auth/auth.service.ts:490-499 | After a logout the session is refused for good by the guard and by refresh |
| Sessions.OwnerAlwaysActive | src/modules/team/team.service.ts:63-67 | The owner of a tenant is an active member of it in every reachable state |
| Sessions.StepAges | src/modules/auth/auth.service.ts:421-525 | No step revives a revoked or rotated token, and a new token starts a family or joins one with an unrevoked token |
| Issuing.VerdictIsFirstObjection | src/common/guards/auth.guard.ts:45-84 | The guard admits if and only if the session is open and not past its end, the tenant is running or on trial, the member is active, both versions are current and each header is absent, empty or fitting; otherwise it names the first objection |
| Issuing.ExpiredSessionStaysOut | src/common/guards/auth.guard.ts:45-49 | No step moves the end of a session; once it has passed, guard and refresh refuse its tokens in every continuation |
| Issuing.RefreshTable | src/modules/auth/auth.service.ts:421-459 | A refresh token is rotated if and only if it is known, unspent and in time, its session is open and in time and the session's tenant exists; otherwise the refusal names the first failure |
| Issuing.ExpiredTokenStaysOut | src/modules/auth/auth.service.ts:443-445 | No step moves the end of a refresh token; once it has passed, the token is never rotated in any continuation |
| Issuing.RotationLeaves | src/modules/auth/auth.service.ts:460-475 | The old token is spent and names its successor, which is unspent, of the same family and session and has the new end; a `resolve` for the session's user and tenant starts; nothing else moves |
| Issuing.LoggedOutTokens | src/modules/auth/auth.service.ts:490-499 | Every refresh token of a session logged out is refused as reused in every continuation |
| Issuing.LogoutLeaves | src/modules/auth/auth.service.ts:490-499 | A logout touches no other session and none of their refresh tokens |
| Issuing.ReplayLeaves | src/modules/auth/auth.service.ts:431-442 | A replay revokes the tokens of its own family and closes its own session, and nothing else |
| Issuing.RevokedIfOwn | src/modules/auth/auth.service.ts:516-525 | A session is closed by its own user alone, its refresh tokens are spent either way |
| Issuing.RevocationIsFinal | src/modules/auth/auth.service.ts:516-525 | In every continuation the tokens of a revoked session stay refused |
| Issuing.LoginAdmits | src/modules/auth/auth.service.ts:345-416 | A login that nothing interrupts opens one session, mints one refresh token, and issues a token that says exactly what the active member may do; the guard admits it until the session ends |
| Invites.AtMostOnePending | src/modules/invitations/invitations.service.ts:53-69 | At most one invitation per tenant and address is pending in every reachable state |
| Invites.TokenDiesForGood | src/modules/invitations/invitations.service.ts:122-226 | A token that was accepted, resent, revoked or superseded by a new invitation is never accepted in any continuation |
| Invites.AcceptanceJoins | src/modules/invitations/invitations.service.ts:122-187 | Acceptance leaves exactly one user with the address and one membership of that user in the tenant, active and holding the role, and the invitation accepted |
| Invites.AcceptedIff | src/modules/invitations/invitations.service.ts:122-132 | A token is accepted if and only if a pending invitation carries it and has not run out |
| Invites.OpenUntilItRunsOut | src/modules/invitations/invitations.service.ts:122-132 | A pending invitation can be accepted until it runs out, in every continuation that does not resend, revoke, accept or supersede it |
| Invites.InviteLeaves | src/modules/invitations/invitations.service.ts:31-69 | When an invitation goes out and which refusal comes otherwise; it offers the role asked for, by default the light user's, for seven days under a new token, and exactly the pending ones of the address are revoked |
| Invites.ResendLeaves | src/modules/invitations/invitations.service.ts:191-201 | A pending invitation stands for seven more days under a token that nothing carried before |
| Invites.RevocationLeaves | src/modules/invitations/invitations.service.ts:216-222 | A pending invitation of the tenant is revoked, and nothing else changes |
| Invites.AcceptanceAdds | src/modules/invitations/invitations.service.ts:150-180 | A new membership starts at version one and an old one keeps its version; one tenant-wide row comes unless the role was held |
| Backend.Database.Handle | src/modules/auth/auth.service.ts:345-525 | Any one handler, run query by query on the tables, does what its function says and keeps the database sound |
| Backend.Database.SetRolePermissions | prisma/sql/setup.sql:49-83 | The procedure's deletes, inserts and updates in sequence have the effect of one rewrite |
| Backend.Database.CreateRole | src/modules/iam/iam.service.ts:73-103 | The role is created and then linked; an existing key is refused |
| Backend.Database.DeleteRole | src/modules/iam/iam.service.ts:114-130 | Refused for system roles, assigned roles and roles that an invitation names |
| Backend.Database.UpdateStatus | src/modules/team/team.service.ts:60-82 | The owner's guard, the new status and version, and the closing of the member's sessions |
| Backend.Database.UpdateRoles | src/modules/team/team.service.ts:84-104 | Old rows deleted, one tenant-wide row for each listed role, the version moved |
| Backend.Database.Invite | src/modules/invitations/invitations.service.ts:31-69 | The role look-up, the refusal of active members, the withdrawal of pending invitations and the new one |
| Backend.Database.Accept | src/modules/invitations/invitations.service.ts:122-187 | The user, the membership, the assignment and the invitation, each found or created in turn |
| Backend.Database.Refresh | src/modules/auth/auth.service.ts:421-475 | Reuse detection, the checks in order, and the rotation |
| Backend.Database.SignUp | src/modules/auth/auth.service.ts:225-252 | The signup transaction on a fresh tenant, with the provisioned roles |
| Backend.Database.CanActivate | src/common/guards/auth.guard.ts:45-84 | The guard's checks in order give its verdict |
| Login.CredentialRow.Login | src/modules/auth/auth.service.ts:74-117 | One call updates the counter and the lock as `Try` says |
| Login.GuessesAreBounded | src/modules/auth/auth.service.ts:92-108 | From a fresh counter, with no success, at most 8 wrong passwords are checked, and one more for every full 15 minutes |
| Login.BoundIsTight | src/modules/auth/auth.service.ts:97-105 | For every number of locks a run reaches the bound: the counter is not reset when a lock lapses |
| Login.GuessesBetweenSuccesses | src/modules/auth/auth.service.ts:92-117 | On any run, between two successes with none in between, at most 8 wrong passwords are checked, and one more for every full 15 minutes |
| Login.AnswerTable | src/modules/auth/auth.service.ts:74-117 | After any run, what a call is answered: the account exists, is not suspended and is not within fifteen minutes of a wrong password with eight or more since the last success; then the password decides |
| Otp.SignupDesk.StartSignup | src/modules/auth/auth.service.ts:131-174 | Starting stores a fresh code with its counters at zero, unless the address is taken |
| Otp.SignupDesk.ResendSignupOtp | src/modules/auth/auth.service.ts:177-192 | Resending is refused past five times or within thirty seconds, and replaces the code |
| Otp.SignupDesk.VerifySignup | src/modules/auth/auth.service.ts:197-221 | The checks of a verification in order |
| Otp.CreatedIff | src/modules/auth/auth.service.ts:197-225 | On any run, a verification creates the account if and only if the signup is open, the code is the last one mailed, at most ten minutes old, fewer than five wrong codes came since, and the address is free |
| Otp.OtpBudget | src/modules/auth/auth.service.ts:131-214 | From one start to the next at most six codes are mailed, each at least 30 seconds after the one before, and at most five wrong codes counted for each, thirty in all |
| Otp.AtMostOneAccount | src/modules/auth/auth.service.ts:216-221 | A run of calls for one address creates at most one account |
| Otp.StartTable | src/modules/auth/auth.service.ts:131-174 | On any run a start sends a code if and only if the address has no account |
| Otp.ResendTable | src/modules/auth/auth.service.ts:177-192 | On any run a resend sends a code if and only if the signup is open, fewer than five went out since its start and half a minute has passed since the last mail |
| Otp.VerifyTable | src/modules/auth/auth.service.ts:197-221 | On any run a verification is answered by the first objection in the order of the checks, read off the history |
| Slug.StrippedIsJoin | src/modules/auth/auth.service.ts:301-307 | The slug form of a name is its words in lower case joined by single hyphens |
| Slug.BaseShape | src/modules/auth/auth.service.ts:301-308 | A base has 1 to 32 characters from a-z, 0-9 and the hyphen, begins with none and doubles none |
| Slug.EndsWithHyphenIff | src/modules/auth/auth.service.ts:306-308 | A base ends with a hyphen if and only if the slug form is longer than 32 and has one in place 32 |
| Slug.DoubledIff | src/modules/auth/auth.service.ts:309-315 | A candidate doubles a hyphen if and only if it is numbered and its base ends with one |
| Slug.CutBehindHyphen | src/modules/auth/auth.service.ts:305-315 | A name of a plain word of 31 characters and another word has a base that ends with a hyphen, and its first numbered candidate doubles it |
| Slug.CutName | src/modules/auth/auth.service.ts:305-315 | Such a name |
| Slug.UniqueTenantSlug | src/modules/auth/auth.service.ts:300-316 | The search ends within one try more than there are slugs, with the first free one of base, base-2, base-3 and so on |
| Slug.DecimalRoundTrip | src/modules/auth/auth.service.ts:314-314 | The number's decimal digits read back as the number, so numbered candidates differ |
| Slug.CaseDoesNotMatter | src/modules/auth/auth.service.ts:301-303 | Names that differ in the case of ASCII letters alone have the same base |
| Slug.BaseMeaning | src/modules/auth/auth.service.ts:301-308 | The base is the first 32 characters of the slug form, or "tenant" for a name without a letter or a digit |
| Forecast.DenominatorClosed | src/modules/predictions/predictions.module.ts:155-156 | The denominator is n^2 (n^2 - 1) / 12, so from two points on it is positive and the zero branch is dead |
| Forecast.NormalEquations | src/modules/predictions/predictions.module.ts:147-160 | The residuals of the fitted line sum to zero, and so do their products with x |
| Forecast.LeastSquares | src/modules/predictions/predictions.module.ts:147-160 | No line has a smaller squared error, and from two points on no other line has one as small |
| Forecast.AffineRecovered | src/modules/predictions/predictions.module.ts:147-160 | A history that lies on a line is fitted by that line |
| Forecast.ThroughTheMean | src/modules/predictions/predictions.module.ts:158-158 | The fitted line passes through the mean of the history |
| Forecast.Run | src/modules/predictions/predictions.module.ts:59-94 | The loop pushes one point for each day of the horizon, rounded to cents; the insight is an opportunity exactly when the slope is not negative; the projected revenue is the sum of the points, and its own rounding loses nothing |
| Forecast.PointsAre | src/modules/predictions/predictions.module.ts:61-74 | The points are one for each day of the horizon, in order |
| Forecast.ForecastMeaning | src/modules/predictions/predictions.module.ts:61-74 | A point is, to within half a cent, the average moved along sixty percent of the slope and cut at zero; its bounds lie twenty percent below and above, to within half a cent, and enclose it |
| Forecast.TrendDirection | src/modules/predictions/predictions.module.ts:84-85 | The rounded points of an opportunity never fall and those of a warning never rise |
| Forecast.ProjectedIsArea | src/modules/predictions/predictions.module.ts:78-78 | The projected revenue is at least h (average + 0.3 slope (h + n)) for a horizon of h days and a history of n, up to half a cent a day, and equal to it when the line stays above zero |
| Segments.PercentilesOrdered | src/modules/recommendations/recommendations.module.ts:78-80 | The thresholds rise with the percentile, whatever the spends |
| Segments.ThresholdSplits | src/modules/recommendations/recommendations.module.ts:78-80 | A threshold is one of the spends; at most p hundredths of them lie below it and more than that do not lie above it |
| Segments.MonetaryMonotone | src/modules/recommendations/recommendations.module.ts:60-64 | The monetary score rises with the spend and exceeds k exactly when the spend exceeds the k-th threshold |
| Segments.TopScoresAreFew | src/modules/recommendations/recommendations.module.ts:60-64 | Of at least one customer, fewer than (5 - k) fifths exceed the k-th threshold; so fewer than a fifth score m = 5 |
| Segments.SegmentTable | src/modules/recommendations/recommendations.module.ts:68-76 | Which scores each of the seven segments holds, with the order of the tests resolved |
| Segments.RecencyAndFrequency | src/modules/recommendations/recommendations.module.ts:46-58 | The recency score rises as the days since the last order fall, the frequency score rises with the number of orders, both lie between 1 and 5, and neither depends on the spend |
| Segments.TopSegments | src/modules/recommendations/recommendations.module.ts:46-76 | A champion is exactly a customer who ordered within 30 days, has at least seven orders and spent more than the 60th percentile; champion or loyal is 60 days, four orders and the 40th percentile |
| Segments.SegmentMeaning | src/modules/recommendations/recommendations.module.ts:46-76 | All seven segments, read off the customer's last order, orders and spend, the thresholds and the average |
| Segments.GlobalAovIsMean | src/modules/recommendations/recommendations.module.ts:191-192 | The global order value times the number of customers is what all of them spent |
| Segments.FillBuckets | src/modules/recommendations/recommendations.module.ts:203-211 | The loop leaves in each bucket the count and the spend of its segment |
| Segments.BucketsPartition | src/modules/recommendations/recommendations.module.ts:195-213 | The seven buckets hold every customer once and all that was spent |
| Segments.TopSegmentsAreFew | src/modules/recommendations/recommendations.module.ts:188-213 | In every shop with a customer the champions are fewer than two fifths of the customers, and champions and loyal customers together fewer than three fifths |
| Similarity.CauchySchwarz | src/modules/recommendations/recommendations.module.ts:29-33 | For every pair of vectors and every prefix the square of the dot product is at most the product of the magnitudes |
| Similarity.CosineBounded | src/modules/recommendations/recommendations.module.ts:26-36 | Every score lies between -1 and 1 |
| Similarity.CosineSymmetric | src/modules/recommendations/recommendations.module.ts:26-36 | The score does not depend on the order of the vectors |
| Similarity.CosineOfItself | src/modules/recommendations/recommendations.module.ts:26-36 | A vector that is not all zeros scores one with itself |
| Similarity.CosineMeaning | src/modules/recommendations/recommendations.module.ts:26-36 | The squared score times the squared magnitudes is the squared dot product, with its sign; without a magnitude it is zero |
| Similarity.ComputeCosine | src/modules/recommendations/recommendations.module.ts:26-36 | The loop keeps the inequality after every coordinate and returns the score |
| Similarity.CandidatesFit | src/modules/recommendations/recommendations.module.ts:433-435 | The candidates are exactly the products not purchased, each with its score |
| Similarity.TopKDominates | src/modules/recommendations/recommendations.module.ts:433-437 | The slice has no purchased product and, with what it omits, is the candidates, in falling order |
| CoPurchase.EntriesAreProducts | src/modules/recommendations/recommendations.module.ts:236-247 | The matrix is symmetric; an entry off the diagonal is the sum over orders of the product of the multiplicities, and on it of m (m - 1) |
| CoPurchase.BuildMatrix | src/modules/recommendations/recommendations.module.ts:236-247 | The nested loops count every hit and store no zero |
| CoPurchase.ListPairs | src/modules/recommendations/recommendations.module.ts:249-265 | In whatever order the entries are walked, a pair seen from its other side is skipped and none is lost |
| CoPurchase.GroupItems | src/modules/recommendations/recommendations.module.ts:229-234 | Exactly the orders of the items are listed, each once and in the order of its first item, with its lines in the order of the items |
| CoPurchase.FrequentPairs | src/modules/recommendations/recommendations.module.ts:236-265 | Every pair of known products bought together appears exactly once, with its count, and nothing else appears |
| CoPurchase.FrequentlyBoughtTogether | src/modules/recommendations/recommendations.module.ts:229-266 | From the items to the shown pairs: grouped, counted, listed once each, and the first six by falling count |
| CoPurchase.ShownDominate | src/modules/recommendations/recommendations.module.ts:266-266 | At most six are shown, by falling count, and none left out has a higher count |
| CoPurchase.SelfPairIff | src/modules/recommendations/recommendations.module.ts:238-246 | A product is paired with itself if and only if some order has it on two lines |
| CoPurchase.BoughtWithItself | src/modules/recommendations/recommendations.module.ts:238-246 | One order with two lines of one product pairs it with itself, counted twice |
| Reorder.CountLines | src/modules/recommendations/recommendations.module.ts:268-278 | The count of a customer and product is the number of such lines on the customer's orders |
| Reorder.ReorderStats | src/modules/recommendations/recommendations.module.ts:280-288 | A product's totals are the customers with one line or more, and with two lines or more |
| Reorder.LinesAgainstOrders | src/modules/recommendations/recommendations.module.ts:270-277 | Lines are at least as many as orders, and as many if and only if no order lists the product twice |
| Reorder.RepeatWithoutReorderIff | src/modules/recommendations/recommendations.module.ts:280-288 | A repeat customer has no second order of the product if and only if there is one order and it lists the product twice |
| Reorder.RepeatsAreBuyers | src/modules/recommendations/recommendations.module.ts:280-288 | Repeat customers are at most the customers |
| Reorder.RepeatsWithinOneOrder | src/modules/recommendations/recommendations.module.ts:270-288 | A customer with a single order that has a product on two lines counts as a repeat customer of it |
| Reorder.RateIsShare | src/modules/recommendations/recommendations.module.ts:298-298 | The rate lies between 0 and 100, is 100 when every customer came back, and is the share of repeat customers to the nearest percent |
| Reorder.ReorderCandidates | src/modules/recommendations/recommendations.module.ts:291-303 | The candidates are the known products with a repeat customer, each once with its totals and rate, and the first six by falling rate and then by repeat customers are shown |
| Reorder.ShownReorderDominate | src/modules/recommendations/recommendations.module.ts:302-303 | At most six are shown, by falling rate and then falling repeat customers, and none left out stands higher |
| Retention.Enrich | src/modules/subscriptions/subscriptions.module.ts:74-89 | The loop numbers each order by its rank with its customer and keeps every customer's count and last date |
| Retention.FirstIff | src/modules/subscriptions/subscriptions.module.ts:81-83 | Rank one is exactly the customer's first order in the list, and the earliest |
| Retention.RanksRise | src/modules/subscriptions/subscriptions.module.ts:81-83 | The ranks of one customer rise along the history |
| Retention.AggWindow | src/modules/subscriptions/subscriptions.module.ts:91-104 | The window's figures are the direct sums and counts; new and recurring sales add up to the total |
| Retention.WindowMeaning | src/modules/subscriptions/subscriptions.module.ts:91-104 | The figures of a window, read off the orders: what was paid after discounts and refunds, by first orders and by others, the numbers of both, and who ordered |
| Retention.NewOrdersAreCustomers | src/modules/subscriptions/subscriptions.module.ts:94-99 | In every window there are as many new orders as new customers |
| Retention.AdjacentWindowsAdd | src/modules/subscriptions/subscriptions.module.ts:106-107 | Sales, order counts and new customers of two adjacent windows add up to those of the window that spans them; its active customers are those of either |
| Retention.Daily | src/modules/subscriptions/subscriptions.module.ts:124-133 | The daily map has the days with sales, each with its direct sums |
| Retention.DailySums | src/modules/subscriptions/subscriptions.module.ts:124-133 | The daily series sums to the window's totals |
| Retention.DayMeaning | src/modules/subscriptions/subscriptions.module.ts:124-133 | The figures of a day are what was paid on that UTC day, by first orders and by others |
| Retention.CountChurn | src/modules/subscriptions/subscriptions.module.ts:109-121 | The loop counts repeat customers, churned customers and those churned a window ago |
| Retention.ChurnMeaning | src/modules/subscriptions/subscriptions.module.ts:109-117 | Repeat customers have two orders; churned ones have ordered, but not within the churn days |
| Retention.LapsedBeforeIff | src/modules/subscriptions/subscriptions.module.ts:117-119 | A customer counts as formerly churned if and only if they were churned when the previous window ended and have not ordered since |
| Retention.PrevChurnedIff | src/modules/subscriptions/subscriptions.module.ts:117-119 | The formerly churned are those churned when the previous window ended if and only if none of these has ordered since |
| Retention.CameBack | src/modules/subscriptions/subscriptions.module.ts:117-119 | A customer with an order on either side who was churned then and is not counted |
| Retention.PrevChurnedWithin | src/modules/subscriptions/subscriptions.module.ts:114-120 | Whoever was churned a window ago is churned now, for every history, when the days are not negative or at least the churn days |
| Retention.PrevChurnedBeyond | src/modules/subscriptions/subscriptions.module.ts:114-120 | Otherwise one order breaks it, so that condition is exact |
| Cadence.SignupSeries | src/modules/email-marketing/email-marketing.module.ts:92-102 | The loop counts signups and subscribers by day |
| Cadence.SeriesSums | src/modules/email-marketing/email-marketing.module.ts:107-109 | The series adds up to the signups of the period and its subscribers |
| Cadence.SeriesMeaning | src/modules/email-marketing/email-marketing.module.ts:92-102 | The counts of a day are the signups of that UTC day in the period, all of them and the accepting ones |
| Cadence.ComputeGap | src/modules/email-marketing/email-marketing.module.ts:130-140 | The gap loop telescopes: the average is the rounded span over the number of gaps, at least one, or 45 for a single order |
| Cadence.EndsAreExtremes | src/modules/email-marketing/email-marketing.module.ts:130-131 | The span runs from the earliest order to the latest |
| Cadence.GapNearMean | src/modules/email-marketing/email-marketing.module.ts:134-140 | The gap is within half a day of the mean, or one when the mean is below half a day |
| Cadence.StatusMeaning | src/modules/email-marketing/email-marketing.module.ts:141-143 | Overdue is more than half a day past, upcoming seven and a half days or more ahead, and the expected time lies a day or more after every order |
| Cadence.Insights | src/modules/email-marketing/email-marketing.module.ts:119-157 | One prediction for every customer with an order, soonest first; the next order is expected after the customer's mean gap in whole days, at least one, or 45 for one order; the three statuses add up to the customers |
| Cadence.PredictFits | src/modules/email-marketing/email-marketing.module.ts:128-148 | What a prediction says, read off the orders: the latest order, their number, the rounded mean gap, the expected time, the days until then to the nearest, and the status |
| Rollup.FillBuckets | src/modules/analytics/analytics.module.ts:70-85 | Each bucket is the direct sum over its store and UTC day, with the currency of its first order |
| Rollup.BucketsConserve | src/modules/analytics/analytics.module.ts:70-85 | The buckets together hold every amount and the count of every selected order once |
| Rollup.Upsert | src/modules/analytics/analytics.module.ts:87-95 | The rows of the buckets are written and all others kept |
| Rollup.RowMeaning | src/modules/analytics/analytics.module.ts:70-95 | A row exists for every store and UTC day with a live order since the range began, and says how many they are, the sums of their amounts, the sales net of refunds and the average order |
| Rollup.RerunIff | src/modules/analytics/analytics.module.ts:56-95 | For every table and orders, a rerun whose range begins later changes no row if and only if no order of a still covered store and day was left behind; covered rows differ exactly where one was |
| Rollup.RerunsKeepIff | src/modules/analytics/analytics.module.ts:8-12 | Such a rerun changes no row, whatever the orders, if and only if its range begins at the same moment or at midnight |
| Rollup.RerunShrinks | src/modules/analytics/analytics.module.ts:56-60 | Otherwise two orders exist whose day is written whole by the first run and with one of them by the second |
| Rollup.NewOrdersStayLocal | src/modules/analytics/analytics.module.ts:70-95 | Orders added between two runs of one range change only rows of their own stores and days |
| Rollup.FiguresIgnoreOrder | src/modules/analytics/analytics.module.ts:63-85 | The figures of a bucket do not depend on the order in which the query lists the orders |
| Rollup.CurrencyIff | src/modules/analytics/analytics.module.ts:70-78 | A row's currency is that of every order it adds up if and only if those orders share one |
| Rollup.CurrenciesMix | src/modules/analytics/analytics.module.ts:70-78 | On any day two orders in different currencies are added up under the first one's |
| Rollup.WholeDayIff | src/modules/analytics/analytics.module.ts:63-66 | A written row holds its whole day's sums if and only if no order of that store and day lies before the range |
| Rollup.AllWholeIffMidnight | src/modules/analytics/analytics.module.ts:8-12 | Every written row is a whole day's, for all orders, if and only if the range begins at midnight |
| Rollup.KpiConserves | src/modules/analytics/analytics.module.ts:98-103 | A thirty-day figure is the direct sum over the selected orders of the days that begin within the thirty days |
| Rollup.Kpi | src/modules/analytics/analytics.module.ts:98-110 | The three sums over the recent buckets, the average order and the refund rate |
| Rollup.KpiMeaning | src/modules/analytics/analytics.module.ts:98-103 | The thirty-day figures are sums over the live orders since the range began whose UTC day begins within the thirty days |
| SyncLaws.RerunIff | src/modules/integrations/sync.service.ts:54-65 | A rerun on the same listing leaves every table as it is, ids included, whatever rows the database returns for a shared external id, if and only if no order refers to an external id that two sources share |
| SyncLaws.RerunChangesNothing | src/modules/integrations/sync.service.ts:54-65 | Under that condition a rerun changes nothing at all |
| SyncLaws.RerunMayChange | src/modules/integrations/sync.service.ts:150-153 | After a sync of one source, a listing of another that shares an external id with it: two choices of the database exist under which its rerun changes a table |
| SyncLaws.OneSourceSettles | src/modules/integrations/sync.service.ts:54-65 | A store and a listing of one source never share an external id between sources |
| SyncLaws.OneSourceReruns | src/modules/integrations/sync.service.ts:54-65 | After any number of syncs of one source into an empty store, the last listing synced again changes nothing, whatever the database chooses |
| SyncLaws.ResolveIff | src/modules/integrations/sync.service.ts:150-153 | A reference resolves the same way whatever the database returns if and only if one row at most has the external id |
| SyncLaws.OrdersAreResolved | src/modules/integrations/sync.service.ts:146-188 | After a sync every listed order refers to a row of its customer's external id as soon as there is one, and each line, in order, to a product |
| SyncLaws.SyncDraws | src/modules/integrations/sync.service.ts:112-122 | Every id drawn is the id of one new row, and a sync creates at most as many counted rows as it reads |
| SyncWebhook.WebhookThenSyncIff | src/modules/integrations/sync.service.ts:82-102 | A webhook for any version of an order that the next sync lists leaves, after that sync, what the sync alone leaves, up to ids, if and only if each of its columns is listed again or was set to the same before |
| SyncWebhook.WebhookThenSync | src/modules/integrations/sync.service.ts:82-102 | So it does for every payload of a listed order whose columns that order lists again, whatever the values, customer and lines |
| SyncWebhook.ServiceWebhookThenSync | src/modules/integrations/sync.service.ts:154-164 | As every order writes the same columns, a webhook for an order that the next sync lists leaves, after that sync, what the sync alone leaves, up to ids |
| SyncWebhook.TwinsAlike | src/modules/integrations/sync.service.ts:111-197 | The store and the listing determine the result up to ids |
| SyncTrace.FullSyncTrace | src/modules/integrations/sync.service.ts:54-65 | A sync keeps ids distinct, references live and every mapping on a row with its external id, and its effect on each table is that of the listing's writes |
| SyncTrace.UpsertOrderGood | src/modules/integrations/sync.service.ts:146-188 | An order's upsert, its line items and its mapping keep all that |
| SyncContent.OrderStored | src/modules/integrations/sync.service.ts:146-165 | After a sync an order row shows every column of its last listing, and the status: cancelled, delivered, shipped or processing exactly as cancellation, payment and fulfilment say |
| SyncContent.ProductStored | src/modules/integrations/sync.service.ts:111-122 | A product row shows every column of its last listing |
| SyncContent.CustomerStored | src/modules/integrations/sync.service.ts:132-142 | So does a customer row |
| SyncContent.VariantStored | src/modules/integrations/sync.service.ts:123-128 | A variant row shows every column of its last listing, and belongs to the product it was listed with |
| SyncContent.LineTyped | src/modules/integrations/sync.service.ts:166-186 | The type of a line is the one that its product's row shows |
| SyncContent.MappingStored | src/modules/integrations/sync.service.ts:190-197 | Everything listed has a mapping to a row of its own table with its external id |
| SyncContent.UnlistedStay | src/modules/integrations/sync.service.ts:54-65 | Rows that the listing does not name stay as they were |
| Sync.AppliedTwice | src/modules/integrations/sync.service.ts:112-122 | Writing a list of rows again changes nothing, even when it names a key twice |
| Sync.Absorbed | src/modules/integrations/sync.service.ts:154-164 | A row whose columns a list writes again, or that had them before, leaves no trace under it |
| SyncService.Upsert | src/modules/integrations/sync.service.ts:113-122 | Looking up by key before every create keeps keys unique and is a write to the keyed table |
| SyncService.FindByExternalId | src/modules/integrations/sync.service.ts:150-153 | The query by external id alone returns one of the rows that have it, or none |
| SyncService.BuildLines | src/modules/integrations/sync.service.ts:166-186 | Each line item with its product and the product's type |
| SyncService.CommerceStore.UpsertProduct | src/modules/integrations/sync.service.ts:111-130 | The product, its variants and its mapping, and one of two counters |
| SyncService.CommerceStore.UpsertCustomer | src/modules/integrations/sync.service.ts:132-144 | The customer and its mapping, and one of two counters |
| SyncService.CommerceStore.UpsertOrder | src/modules/integrations/sync.service.ts:146-188 | The order with its customer, its line items written anew, its mapping, and one of two counters |
| SyncService.CommerceStore.RunSync | src/modules/integrations/sync.service.ts:54-65 | The three loops; created and updated add up to read, and created is the growth of the tables |
| SyncService.CommerceStore.RunSyncAgain | src/modules/integrations/sync.service.ts:54-65 | A rerun of a settled listing creates nothing, updates what it reads and leaves the tables of the first run |
| SyncService.CommerceStore.ProcessOrderWebhook | src/modules/integrations/sync.service.ts:82-102 | One order through the same upsert, with counters of its own |

## Left out

- Backend.Database.Handle: does not cover the reads of `resolve`, which change no table; they are functions in `Handlers`.
- Coherence.ReadAssignmentsCoherent: the assignments are read in one step and each role with its permission links in another; a role row and its links are not read apart, because nothing changes a role's key.
- Sessions.FamilyIsOneChain: two refreshes of the same token at the same time are not modelled; the rotation is one step, as the service mints and revokes in separate statements.
- Invites.AcceptanceJoins: does not say who may present the token, or what happens to the password.
- Slug.StrippedIsJoin: lower-casing and trimming cover ASCII only, not Unicode case folding.
- Login.GuessesAreBounded: the counter is read and written outside a transaction (`src/modules/auth/auth.service.ts:92-106`), so the bound holds for calls that do not overlap; `Login.GuessesBetweenSuccesses` likewise.
- Forecast.Run: the calendar date of a point is its number of days after the base date; the insight's texts are not modelled.
- Rollup.RerunIff: both runs list the orders alike, and the later range does not begin before the earlier one; only the currency depends on the order of the list (`Rollup.FiguresIgnoreOrder`).
- CoPurchase.ListPairs: titles and images are not modelled; `known` is the set of products that the catalogue query returned.
- SyncLaws.RerunIff: `pick` is one function for a whole run, while the database may answer two equal queries of one run differently.
- Segments.BucketsPartition: the percentages that are rounded for display are not modelled.
- SyncWebhook.WebhookThenSync: line-item ids are not modelled, and encrypted columns are abstract values, so a fresh encryption nonce does not count as a change.
- SyncService.CommerceStore.RunSync: listing errors, the missing store and the run record are not modelled; the listings are given.
- Password hashing, token signing and hashing, and encryption: tokens, hashes and ids are fresh values, passwords are right or wrong.
- The expiry inside a signed token, and the user's own status, which the guard does not read.
- Row-level security policies: each handler is one atomic transaction that sees all rows its queries name.
- `primaryRole`, audit logs, mails and the HTTP layer; `updateRole` and the permission catalogue's own endpoints, which change no access.
- `prisma/seed/reprovision-rbac.ts`, an operator script that rewrites roles without moving a version.
- `profit` and the plain sums of the other reports; the signup mail; ordering of the daily lists.
- Floating-point rounding, daylight saving in `setDate`, and currency conversion: amounts are exact and days have a fixed length.
- SyncTrace.UpsertOrderGood: mappings are keyed by object type and external id, without the integration, so two integrations of one store share a mapping here.
- Other tenants and stores in the sync: every query names one tenant and store, and so does the model.
