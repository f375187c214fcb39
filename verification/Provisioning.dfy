/** `provisionTenantRbac`: the per-tenant copies of the system roles. */
module Provisioning {
  import opened Tables

  datatype Grant = Everything | Only(keys: set<string>)
  datatype RoleDef = RoleDef(key: string, isSystem: bool, grant: Grant)

  const OWNER := "owner"
  const LIGHT_USER := "light_user"

  const ALL_PERMISSION_KEYS: set<string> := {
    "dashboard.read", "analytics.read", "analytics.export", "products.read", "products.write", "products.delete",
    "customers.read", "customers.export", "customers.manage_segments", "orders.read", "orders.refund",
    "orders.export", "inventory.read", "inventory.manage", "marketing.read", "marketing.manage", "email.read",
    "email.manage", "predictions.read", "predictions.run", "predictions.configure", "ai_copilot.use",
    "ai_copilot.admin", "integrations.read", "integrations.manage", "fraud.read", "fraud.manage", "reports.read",
    "reports.export", "billing.read", "billing.manage", "users.read", "users.invite", "users.manage", "roles.read",
    "roles.manage", "audit.read", "files.read", "files.write", "files.delete", "profile.read", "profile.write"}

  const LIGHT_USER_PERMISSIONS: set<string> := {
    "dashboard.read", "products.read", "customers.read", "orders.read", "analytics.read", "predictions.read",
    "reports.read", "files.read", "profile.read", "profile.write", "users.read"}

  const SYSTEM_ROLES: seq<RoleDef> := [
    RoleDef(OWNER, true, Everything),
    RoleDef(LIGHT_USER, true, Only(LIGHT_USER_PERMISSIONS))]

  function GrantedKeys(grant: Grant): set<string> {
    match grant
    case Everything => ALL_PERMISSION_KEYS
    case Only(keys) => keys
  }

  /** The seeded global permissions a definition asks for. */
  function GrantedIds(permissions: map<Id, Permission>, grant: Grant): set<Id> {
    set p | p in permissions && permissions[p].tenant.None? && permissions[p].key in GrantedKeys(grant)
  }

  /** One definition: reuse the tenant's role of that key or create it, then rewrite its links. */
  ghost function ProvisionRole(roles: map<Id, Role>, permissions: map<Id, Permission>, tenant: Id, def: RoleDef, next: Id)
    : map<Id, Role>
  {
    var ids := GrantedIds(permissions, def.grant);
    match RoleByKey(roles, tenant, def.key)
    case Some(r) => roles[r := roles[r].(permissions := ids)]
    case None => roles[next := Role(tenant, def.key, def.isSystem, ids)]
  }

  ghost function Provision(roles: map<Id, Role>, permissions: map<Id, Permission>, tenant: Id, defs: seq<RoleDef>, next: Id)
    : map<Id, Role>
    decreases |defs|
  {
    if defs == [] then roles
    else Provision(ProvisionRole(roles, permissions, tenant, defs[0], next), permissions, tenant, defs[1..], next + 1)
  }

  ghost predicate KeysUnique(roles: map<Id, Role>) {
    forall r, s, t, k | HasKey(roles, r, t, k) && HasKey(roles, s, t, k) :: r == s
  }

  /** Role `r` is the tenant's copy of `def`, with exactly its permissions. */
  ghost predicate Implements(roles: map<Id, Role>, permissions: map<Id, Permission>, tenant: Id, def: RoleDef) {
    exists r :: HasKey(roles, r, tenant, def.key) && roles[r].permissions == GrantedIds(permissions, def.grant)
  }

  ghost predicate DistinctKeys(defs: seq<RoleDef>) {
    forall i, j | 0 <= i < j < |defs| :: defs[i].key != defs[j].key
  }

  /** What one definition leaves alone: other tenants, and everything but the links of its own role. */
  lemma RoleStep(roles: map<Id, Role>, permissions: map<Id, Permission>, tenant: Id, def: RoleDef, next: Id)
    requires KeysUnique(roles)
    requires forall r | r in roles :: r < next
    ensures var out := ProvisionRole(roles, permissions, tenant, def, next);
            && KeysUnique(out)
            && (forall r | r in out :: r < next + 1)
            && (forall r | r in roles :: r in out && out[r].(permissions := {}) == roles[r].(permissions := {}))
            && (forall r | r in roles && (roles[r].tenant != tenant || roles[r].key != def.key) :: out[r] == roles[r])
            && (forall r | r in out && r !in roles :: next <= r && out[r].tenant == tenant)
            && (forall r, k | HasKey(roles, r, tenant, k) :: HasKey(out, r, tenant, k))
  {
    var out := ProvisionRole(roles, permissions, tenant, def, next);
    assert forall r, t, k | HasKey(out, r, t, k) && r in roles :: HasKey(roles, r, t, k);
  }

  lemma {:induction false} ProvisionFrame(roles: map<Id, Role>, permissions: map<Id, Permission>, tenant: Id, defs: seq<RoleDef>, next: Id)
    requires KeysUnique(roles)
    requires forall r | r in roles :: r < next
    ensures var out := Provision(roles, permissions, tenant, defs, next);
            && KeysUnique(out)
            && (forall r | r in out :: r < next + |defs|)
            && (forall r | r in roles :: r in out && out[r].(permissions := {}) == roles[r].(permissions := {}))
            && (forall r | r in roles && roles[r].tenant != tenant :: out[r] == roles[r])
            && (forall r | r in out && r !in roles :: next <= r && out[r].tenant == tenant)
    decreases |defs|
  {
    if defs != [] {
      RoleStep(roles, permissions, tenant, defs[0], next);
      ProvisionFrame(ProvisionRole(roles, permissions, tenant, defs[0], next), permissions, tenant, defs[1..], next + 1);
    }
  }

  /** Later definitions leave the role of an earlier key alone. */
  lemma {:induction false} ProvisionKeeps(roles: map<Id, Role>, permissions: map<Id, Permission>, tenant: Id, defs: seq<RoleDef>, next: Id, r: Id)
    requires KeysUnique(roles) && (forall x | x in roles :: x < next)
    requires r in roles && roles[r].tenant == tenant && forall i | 0 <= i < |defs| :: defs[i].key != roles[r].key
    ensures r in Provision(roles, permissions, tenant, defs, next)
    ensures Provision(roles, permissions, tenant, defs, next)[r] == roles[r]
    decreases |defs|
  {
    if defs != [] {
      assert defs[0].key != roles[r].key;
      RoleStep(roles, permissions, tenant, defs[0], next);
      ProvisionKeeps(ProvisionRole(roles, permissions, tenant, defs[0], next), permissions, tenant, defs[1..], next + 1, r);
    }
  }

  /** Afterwards every definition has exactly one role in the tenant, holding exactly its permissions. */
  /** All roles of the tenant are system roles. */
  ghost predicate Marked(roles: map<Id, Role>, tenant: Id) {
    forall r | r in roles && roles[r].tenant == tenant :: roles[r].isSystem
  }

  lemma {:induction false} ProvisionMarks(roles: map<Id, Role>, permissions: map<Id, Permission>, tenant: Id, defs: seq<RoleDef>, next: Id)
    requires Marked(roles, tenant) && forall d | d in defs :: d.isSystem
    ensures Marked(Provision(roles, permissions, tenant, defs, next), tenant)
    decreases |defs|
  {
    hide Marked, ProvisionRole;
    if defs != [] {
      assert defs[0] in defs;
      RoleMarked(roles, permissions, tenant, defs[0], next);
      ProvisionMarks(ProvisionRole(roles, permissions, tenant, defs[0], next), permissions, tenant, defs[1..], next + 1);
    }
  }

  lemma RoleMarked(roles: map<Id, Role>, permissions: map<Id, Permission>, tenant: Id, def: RoleDef, next: Id)
    requires def.isSystem && Marked(roles, tenant)
    ensures Marked(ProvisionRole(roles, permissions, tenant, def, next), tenant)
  {
    hide GrantedIds;
    var found := RoleByKey(roles, tenant, def.key);
    assert found.Some? ==> HasKey(roles, found.value, tenant, def.key);
  }

  lemma {:induction false} ProvisionImplements(roles: map<Id, Role>, permissions: map<Id, Permission>, tenant: Id, defs: seq<RoleDef>, next: Id)
    requires KeysUnique(roles) && DistinctKeys(defs)
    requires forall r | r in roles :: r < next
    ensures forall d | d in defs :: Implements(Provision(roles, permissions, tenant, defs, next), permissions, tenant, d)
    decreases |defs|
  {
    if defs != [] {
      var mid := ProvisionRole(roles, permissions, tenant, defs[0], next);
      var r := if RoleByKey(roles, tenant, defs[0].key).Some? then RoleByKey(roles, tenant, defs[0].key).value else next;
      RoleStep(roles, permissions, tenant, defs[0], next);
      ProvisionKeeps(mid, permissions, tenant, defs[1..], next + 1, r);
      ProvisionImplements(mid, permissions, tenant, defs[1..], next + 1);
    }
  }

  /** Running it again on the provisioned tables changes nothing at all. */
  lemma {:induction false} ProvisionFixed(roles: map<Id, Role>, permissions: map<Id, Permission>, tenant: Id, defs: seq<RoleDef>, next: Id)
    requires KeysUnique(roles)
    requires forall d | d in defs :: Implements(roles, permissions, tenant, d)
    ensures Provision(roles, permissions, tenant, defs, next) == roles
  {
    if defs != [] {
      assert Implements(roles, permissions, tenant, defs[0]);
      assert ProvisionRole(roles, permissions, tenant, defs[0], next) == roles;
      ProvisionFixed(roles, permissions, tenant, defs[1..], next + 1);
    }
  }

  lemma {:induction false} ProvisionIdempotent(roles: map<Id, Role>, permissions: map<Id, Permission>, tenant: Id, defs: seq<RoleDef>, next: Id, later: Id)
    requires KeysUnique(roles) && DistinctKeys(defs)
    requires forall r | r in roles :: r < next
    ensures var once := Provision(roles, permissions, tenant, defs, next);
            Provision(once, permissions, tenant, defs, later) == once
  {
    ProvisionFrame(roles, permissions, tenant, defs, next);
    ProvisionImplements(roles, permissions, tenant, defs, next);
    ProvisionFixed(Provision(roles, permissions, tenant, defs, next), permissions, tenant, defs, later);
  }

  lemma {:induction false} ProvisionFrom(roles: map<Id, Role>, permissions: map<Id, Permission>, tenant: Id, defs: seq<RoleDef>, i: nat, next: Id)
    requires i < |defs|
    ensures Provision(roles, permissions, tenant, defs[i..], next)
         == Provision(ProvisionRole(roles, permissions, tenant, defs[i], next), permissions, tenant, defs[i + 1..], next + 1)
  {
    assert defs[i..][1..] == defs[i + 1..];
  }

  /** One turn of the loop: the search, the create, and the delete-then-link of its permissions. */
  method ProvisionOne(roles: map<Id, Role>, permissions: map<Id, Permission>, tenant: Id, def: RoleDef, next: Id)
    returns (out: map<Id, Role>, id: Id)
    requires KeysUnique(roles)
    requires forall r | r in roles :: r < next
    ensures out == ProvisionRole(roles, permissions, tenant, def, next)
    ensures HasKey(out, id, tenant, def.key)
  {
    out, id := roles, next;
    if r :| r in out && HasKey(out, r, tenant, def.key) {
      id := r;
    } else {
      out := out[id := Role(tenant, def.key, def.isSystem, {})];
    }
    out := out[id := out[id].(permissions := {})];
    var ids := GrantedIds(permissions, def.grant);
    if ids != {} {
      out := out[id := out[id].(permissions := ids)];
    }
  }

  method ProvisionTenantRbac(roles: map<Id, Role>, permissions: map<Id, Permission>, tenant: Id, defs: seq<RoleDef>, next: Id)
    returns (out: map<Id, Role>, roleIdsByKey: map<string, Id>)
    requires KeysUnique(roles)
    requires forall r | r in roles :: r < next
    ensures out == Provision(roles, permissions, tenant, defs, next)
    ensures forall d | d in defs :: d.key in roleIdsByKey
    ensures forall k | k in roleIdsByKey :: HasKey(out, roleIdsByKey[k], tenant, k)
  {
    hide KeysUnique, HasKey, ProvisionRole, Provision;
    out, roleIdsByKey := roles, map[];
    for i := 0 to |defs|
      invariant KeysUnique(out)
      invariant forall r | r in out :: r < next + i
      invariant Provision(out, permissions, tenant, defs[i..], next + i) == Provision(roles, permissions, tenant, defs, next)
      invariant forall j | 0 <= j < i :: defs[j].key in roleIdsByKey
      invariant forall k | k in roleIdsByKey :: HasKey(out, roleIdsByKey[k], tenant, k)
    {
      ProvisionFrom(out, permissions, tenant, defs, i, next + i);
      RoleStep(out, permissions, tenant, defs[i], next + i);
      var id;
      out, id := ProvisionOne(out, permissions, tenant, defs[i], next + i);
      roleIdsByKey := roleIdsByKey[defs[i].key := id];
    }
    ProvisionNone(out, permissions, tenant, defs[|defs|..], next + |defs|);
  }

  lemma {:induction false} ProvisionNone(roles: map<Id, Role>, permissions: map<Id, Permission>, tenant: Id, defs: seq<RoleDef>, next: Id)
    requires defs == []
    ensures Provision(roles, permissions, tenant, defs, next) == roles
  {
  }
}
