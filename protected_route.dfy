/** The route guard: spinner while the session loads, the login page without a user,
    then the role requirement, then the permission requirement, and only then the page. */
module ProtectedRoute {
  import opened Base
  import opened Text
  import opened Auth

  /** `requireRole`: one role or a list of roles. */
  datatype RoleRequirement = Single(role: string) | AnyOf(roles: seq<string>)

  datatype Outcome = Spinner | Redirect(to: string) | Render

  /** A role requirement is checked when it is truthy: a non-empty role, or any array
      (an empty array is truthy, and then no role can match). */
  predicate RoleRequired(req: Option<RoleRequirement>)
  {
    match req
    case None => false
    case Some(Single(r)) => r != ""
    case Some(AnyOf(_)) => true
  }

  /** The listed roles, one role becoming a one-element list. */
  function Roles(req: RoleRequirement): seq<string>
  {
    match req
    case Single(r) => [r]
    case AnyOf(rs) => rs
  }

  /** `roles.some(role => isRole(role))`. */
  predicate HasSomeRole(user: Option<AuthUser>, req: RoleRequirement)
  {
    exists i :: 0 <= i < |Roles(req)| && IsRole(user, Roles(req)[i])
  }

  /** `const [resource, action] = permission.split(':')`: the action is absent when the
      string has no ':' (and `hasPermission` then checks 'read'). */
  function ParsePermission(permission: string): (ra: (string, Option<string>))
    ensures ':' !in permission ==> ra == (permission, None)
    ensures ':' in permission ==> ra.1.Some? && ':' !in ra.0 && ':' !in ra.1.value
    ensures ':' in permission ==>
      var n := |ra.0| + 1 + |ra.1.value|;
      && StartsWith(permission, ra.0 + [':'] + ra.1.value)
      && (n == |permission| || permission[n] == ':')
  {
    var parts := Split(permission, ':');
    if |parts| >= 2 then
      JoinFirstTwo(parts, ':');
      (parts[0], Some(parts[1]))
    else
      SplitNoSepIff(permission);
      (parts[0], None)
  }

  /** The first two pieces, with the separator between them, begin the joined string, and
      the separator follows them unless they are all of it. */
  lemma JoinFirstTwo(parts: seq<string>, sep: char)
    requires |parts| >= 2
    ensures var j := Join(parts, sep);
      && StartsWith(j, parts[0] + [sep] + parts[1])
      && (|parts[0]| + 1 + |parts[1]| == |j| || j[|parts[0]| + 1 + |parts[1]|] == sep)
  {
    var head := parts[0] + [sep] + parts[1];
    if |parts| == 2 {
      assert Join(parts, sep) == head;
    } else {
      assert Join(parts, sep) == head + ([sep] + Join(parts[2..], sep));
    }
  }

  /** A string splits into one piece exactly when it holds no separator. */
  lemma {:induction false} SplitNoSepIff(s: string)
    ensures |Split(s, ':')| == 1 <==> ':' !in s
    ensures |Split(s, ':')| == 1 ==> Split(s, ':') == [s]
  {
    if s != [] {
      SplitNoSepIff(s[1..]);
      if s[0] != ':' && ':' !in s[1..] {
        SplitNoSep(s, ':');
      }
    }
  }

  /** `ProtectedRoute`. */
  function Guard(loading: bool, user: Option<AuthUser>, requireRole: Option<RoleRequirement>,
                 requirePermission: Option<string>): (o: Outcome)
    ensures loading ==> o == Spinner
    ensures !loading && user.None? ==> o == Redirect("/login")
    ensures o == Render <==>
      && !loading && user.Some?
      && (RoleRequired(requireRole) ==> HasSomeRole(user, requireRole.value))
      && (TruthyStr(requirePermission) ==>
            var ra := ParsePermission(requirePermission.value); HasPermission(user, ra.0, ra.1))
    ensures o.Redirect? && o.to != "/login" ==> o.to == "/client" && user.Some?
  {
    if loading then Spinner
    else if user.None? then Redirect("/login")
    else if RoleRequired(requireRole) && !HasSomeRole(user, requireRole.value) then Redirect("/client")
    else if TruthyStr(requirePermission)
         && (var ra := ParsePermission(requirePermission.value); !HasPermission(user, ra.0, ra.1))
    then Redirect("/client")
    else Render
  }

  /** A super admin passes every permission requirement, so only the role check can turn
      them away; a plain permission string is checked as its 'read' action. */
  lemma GuardPermissions(user: AuthUser, permission: string)
    ensures IsSuperAdmin(Some(user)) ==> Guard(false, Some(user), None, Some(permission)) == Render
    ensures ':' !in permission && permission != "" && !IsSuperAdmin(Some(user)) ==>
      (Guard(false, Some(user), None, Some(permission)) == Render <==>
         Permission(permission, "read") in user.permissions)
  {
  }

  /** An empty list of roles turns every signed-in user away. */
  lemma EmptyRoleListRedirects(user: AuthUser, requirePermission: Option<string>)
    ensures Guard(false, Some(user), Some(AnyOf([])), requirePermission) == Redirect("/client")
  {
  }
}
