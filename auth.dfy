/** The authentication context's decision logic: the signed-in user with the flattened
    `resource:action` permission list, `hasPermission`, the role flags, the feature matrix
    of `getFeatureAccess`, and what sign-up writes. Supabase queries are inputs. */
module Auth {
  import opened Base
  import opened Text

  /** The active `user_roles` row of a user, as far as the client reads it. */
  datatype RoleData = RoleData(id: string, role: string, organizationId: Option<string>)

  /** The signed-in user; `role` is absent when the role lookup failed. */
  datatype AuthUser = AuthUser(id: string, email: string, role: Option<RoleData>, permissions: seq<string>)

  /** One `user_permissions` row: a resource and the actions granted on it. */
  datatype PermissionRow = PermissionRow(resource: string, actions: seq<string>)

  /** The permission string for one action on one resource. */
  function Permission(resource: string, action: string): string
  {
    resource + ":" + action
  }

  /** Row `k` grants action `j`, spelled `p`. */
  predicate Grants(rows: seq<PermissionRow>, k: int, j: int, p: string)
  {
    0 <= k < |rows| && 0 <= j < |rows[k].actions| && p == Permission(rows[k].resource, rows[k].actions[j])
  }

  /** The number of actions over all rows. */
  function ActionCount(rows: seq<PermissionRow>): nat
  {
    if rows == [] then 0 else |rows[0].actions| + ActionCount(rows[1..])
  }

  /** The permission strings of one row, in the order of its actions. */
  function RowPermissions(row: PermissionRow): (ps: seq<string>)
    ensures |ps| == |row.actions|
    ensures forall j :: 0 <= j < |ps| ==> ps[j] == Permission(row.resource, row.actions[j])
  {
    seq(|row.actions|, j requires 0 <= j < |row.actions| => Permission(row.resource, row.actions[j]))
  }

  /** `flatMap(p => p.actions.map(a => `${p.resource}:${a}`))`: the rows' permission
      strings, row after row. */
  function Flatten(rows: seq<PermissionRow>): (ps: seq<string>)
    ensures |ps| == ActionCount(rows)
  {
    if rows == [] then [] else RowPermissions(rows[0]) + Flatten(rows[1..])
  }

  /** A string is in the flattened list exactly when some row grants it. */
  lemma {:induction false} FlattenMember(rows: seq<PermissionRow>, p: string)
    ensures p in Flatten(rows) <==> exists k, j :: Grants(rows, k, j, p)
  {
    if rows != [] {
      FlattenMember(rows[1..], p);
      var head := RowPermissions(rows[0]);
      if p in head {
        var j :| 0 <= j < |head| && head[j] == p;
        assert Grants(rows, 0, j, p);
      }
      if p in Flatten(rows[1..]) {
        var k, j :| Grants(rows[1..], k, j, p);
        assert Grants(rows, k + 1, j, p);
      }
      if exists k, j :: Grants(rows, k, j, p) {
        var k, j :| Grants(rows, k, j, p);
        if k == 0 {
          assert head[j] == p;
        } else {
          assert Grants(rows[1..], k - 1, j, p);
        }
      }
    }
  }

  /** The permission list of a loaded user: `permissions?.flatMap(...) || []`, where a
      missing result gives the empty list. */
  function PermissionList(rows: Option<seq<PermissionRow>>): (ps: seq<string>)
    ensures rows.None? ==> ps == []
    ensures rows.Some? ==> |ps| == ActionCount(rows.value)
  {
    match rows
    case None => []
    case Some(r) => Flatten(r)
  }

  /** `loadUserRole`: a failed role lookup (Err) leaves the user without a role and with
      no permissions; otherwise the role row and the flattened permissions are kept. */
  function LoadUser(userId: string, email: string, role: Result<RoleData, string>,
                    rows: Option<seq<PermissionRow>>): (u: AuthUser)
    ensures u.id == userId && u.email == email
    ensures role.Err? ==> u.role.None? && u.permissions == []
    ensures role.Ok? ==> u.role == Some(role.value) && u.permissions == PermissionList(rows)
  {
    match role
    case Err(_) => AuthUser(userId, email, None, [])
    case Ok(r) => AuthUser(userId, email, Some(r), PermissionList(rows))
  }

  /** `user?.role?.role === role`. */
  predicate IsRole(user: Option<AuthUser>, role: string)
  {
    user.Some? && user.value.role.Some? && user.value.role.value.role == role
  }

  predicate IsSuperAdmin(user: Option<AuthUser>)
  {
    IsRole(user, "super_admin")
  }

  /** Admins and super admins. */
  predicate IsAdmin(user: Option<AuthUser>)
  {
    IsRole(user, "admin") || IsSuperAdmin(user)
  }

  predicate IsClientUser(user: Option<AuthUser>)
  {
    IsRole(user, "client_user")
  }

  /** The role flags: a user is at most one of super admin, admin-only and client user;
      the admin flag covers the super admin. */
  lemma RoleFlags(user: Option<AuthUser>)
    ensures IsAdmin(user) <==> IsRole(user, "admin") || IsRole(user, "super_admin")
    ensures IsClientUser(user) ==> !IsAdmin(user)
    ensures IsSuperAdmin(user) ==> IsAdmin(user)
  {
  }

  /** `hasPermission(resource, action = 'read')`: nobody signed in has none, a super admin
      has all, anyone else has what the flattened list names. */
  function HasPermission(user: Option<AuthUser>, resource: string, action: Option<string>): (ok: bool)
    ensures user.None? ==> !ok
    ensures IsSuperAdmin(user) ==> ok
    ensures user.Some? && !IsSuperAdmin(user) ==>
      (ok <==> Permission(resource, action.GetOr("read")) in user.value.permissions)
  {
    if user.None? then false
    else if IsSuperAdmin(user) then true
    else Permission(resource, action.GetOr("read")) in user.value.permissions
  }

  /** For a loaded, non-super-admin user, a permission holds exactly when one of the
      user's permission rows grants that action on that resource. */
  lemma HasPermissionFromRows(userId: string, email: string, role: RoleData, rows: seq<PermissionRow>,
                              resource: string, action: string)
    requires role.role != "super_admin"
    ensures var u := Some(LoadUser(userId, email, Ok(role), Some(rows)));
      HasPermission(u, resource, Some(action)) <==> exists k, j :: Grants(rows, k, j, Permission(resource, action))
  {
    FlattenMember(rows, Permission(resource, action));
  }

  /** The capabilities `getFeatureAccess` hands out. */
  datatype FeatureAccess = FeatureAccess(
    canViewDashboard: bool,
    canManageModels: bool,
    canManageDatasets: bool,
    canRunWorkflows: bool,
    canViewWorkflowHistory: bool,
    canManageUsers: bool,
    canManageOrganization: bool,
    canViewBilling: bool,
    canManageApiKeys: bool,
    canViewSystemHealth: bool,
    canViewAuditLogs: bool,
    canAccessTraining: bool,
    canAccessCompliance: bool,
    canManageProviders: bool,
    canConfigureRouting: bool)

  /** Every capability of `a` is also one of `b`. */
  predicate Within(a: FeatureAccess, b: FeatureAccess)
  {
    && (a.canViewDashboard ==> b.canViewDashboard)
    && (a.canManageModels ==> b.canManageModels)
    && (a.canManageDatasets ==> b.canManageDatasets)
    && (a.canRunWorkflows ==> b.canRunWorkflows)
    && (a.canViewWorkflowHistory ==> b.canViewWorkflowHistory)
    && (a.canManageUsers ==> b.canManageUsers)
    && (a.canManageOrganization ==> b.canManageOrganization)
    && (a.canViewBilling ==> b.canViewBilling)
    && (a.canManageApiKeys ==> b.canManageApiKeys)
    && (a.canViewSystemHealth ==> b.canViewSystemHealth)
    && (a.canViewAuditLogs ==> b.canViewAuditLogs)
    && (a.canAccessTraining ==> b.canAccessTraining)
    && (a.canAccessCompliance ==> b.canAccessCompliance)
    && (a.canManageProviders ==> b.canManageProviders)
    && (a.canConfigureRouting ==> b.canConfigureRouting)
  }

  /** `getFeatureAccess`: five capabilities for everyone, provider management and routing
      for super admins only, everything else for admins. */
  function GetFeatureAccess(user: Option<AuthUser>): (f: FeatureAccess)
    ensures f.canViewDashboard && f.canRunWorkflows && f.canViewWorkflowHistory
    ensures f.canViewBilling && f.canManageApiKeys
    ensures f.canManageProviders == IsSuperAdmin(user) && f.canConfigureRouting == IsSuperAdmin(user)
    ensures f.canManageModels == IsAdmin(user) && f.canManageDatasets == IsAdmin(user)
    ensures f.canManageUsers == IsAdmin(user) && f.canManageOrganization == IsAdmin(user)
    ensures f.canViewSystemHealth == IsAdmin(user) && f.canViewAuditLogs == IsAdmin(user)
    ensures f.canAccessTraining == IsAdmin(user) && f.canAccessCompliance == IsAdmin(user)
  {
    var admin := IsAdmin(user);
    var superAdmin := IsSuperAdmin(user);
    FeatureAccess(true, admin, admin, true, true, admin, admin, true, true, admin, admin, admin,
                  admin, superAdmin, superAdmin)
  }

  /** Access only grows with the role: anyone's capabilities are within an admin's, and an
      admin's within a super admin's, who has every capability. */
  lemma FeatureAccessOrdered(anyone: Option<AuthUser>, admin: Option<AuthUser>, superAdmin: Option<AuthUser>)
    requires IsRole(admin, "admin") && IsSuperAdmin(superAdmin)
    ensures Within(GetFeatureAccess(anyone), GetFeatureAccess(superAdmin))
    ensures !IsSuperAdmin(anyone) ==> Within(GetFeatureAccess(anyone), GetFeatureAccess(admin))
    ensures Within(GetFeatureAccess(admin), GetFeatureAccess(superAdmin))
  {
  }

  /** The `organizations` row sign-up inserts. */
  datatype OrganizationInsert = OrganizationInsert(name: string, slug: string, plan: string,
                                                   quotaMinutes: nat, status: string)

  /** The `user_roles` row sign-up inserts. */
  datatype RoleInsert = RoleInsert(userId: string, organizationId: Option<string>, role: string, isActive: bool)

  /** The organization sign-up creates for a given (truthy) name: a trial plan with 100
      minutes, slugged by lower-casing and turning white-space runs into '-'. */
  function NewOrganization(name: string): (org: OrganizationInsert)
    ensures org.name == name && org.slug == Kebab(name) && NoSpace(org.slug)
    ensures org.plan == "trial" && org.quotaMinutes == 100 && org.status == "trial"
  {
    OrganizationInsert(name, Kebab(name), "trial", 100, "trial")
  }

  /** What `signUp` writes for a new auth user: an organization when a name is given, and
      a role row, admin exactly when a name is given, pointing at the organization only
      when creating it succeeded (`createdOrgId`). */
  function SignUpWrites(userId: string, organizationName: Option<string>, createdOrgId: Option<string>)
    : (w: (Option<OrganizationInsert>, RoleInsert))
    ensures w.0.Some? <==> TruthyStr(organizationName)
    ensures w.0.Some? ==> w.0.value == NewOrganization(organizationName.value)
    ensures w.1.role == (if TruthyStr(organizationName) then "admin" else "client_user")
    ensures w.1.organizationId == (if TruthyStr(organizationName) then createdOrgId else None)
    ensures w.1.userId == userId && w.1.isActive
  {
    if TruthyStr(organizationName) then
      (Some(NewOrganization(organizationName.value)), RoleInsert(userId, createdOrgId, "admin", true))
    else
      (None, RoleInsert(userId, None, "client_user", true))
  }
}
