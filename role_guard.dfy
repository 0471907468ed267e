/** `RoleGuard`: a component that renders its children only for users whose
    role claim is among the allowed roles, and otherwise notifies and navigates
    to the landing route. */
module RoleGuard {
  import opened Common
  import opened Identity
  import opened Roles

  const DeniedText: string := "No tienes permiso para acceder a esta página"

  datatype GuardResult = GuardResult(notice: Option<Notice>, navigate: Option<string>, renderChildren: bool)

  /** `!user || !allowedRoles.includes(user.user_metadata?.role)`, negated. */
  predicate Allows(user: Option<AuthUser>, allowedRoles: seq<string>) {
    user.Some? && RoleClaim(user.value).Some? && RoleClaim(user.value).value in allowedRoles
  }

  /** The effect (notice and navigation) and the render decision, each from its own
      evaluation of the predicate. */
  function Guard(user: Option<AuthUser>, allowedRoles: seq<string>): (g: GuardResult)
    ensures g.renderChildren <==>
      user.Some? && RoleClaim(user.value).Some? && RoleClaim(user.value).value in allowedRoles
    ensures g.renderChildren <==> g.navigate.None?
    ensures !g.renderChildren ==> g.navigate == Some("/") && g.notice == Some(ErrorNotice(DeniedText))
    ensures g.renderChildren ==> g.notice.None?
    ensures allowedRoles == [] || user.None? ==> !g.renderChildren
  {
    var denied := !Allows(user, allowedRoles);
    GuardResult(
      if denied then Some(ErrorNotice(DeniedText)) else None,
      if denied then Some("/") else None,
      Allows(user, allowedRoles))
  }

  /** The names of a set of roles, as a caller writes `allowedRoles`. */
  function Names(roles: seq<UserRole>): (names: seq<string>)
    ensures |names| == |roles|
    ensures forall k :: 0 <= k < |roles| ==> names[k] == RoleName(roles[k])
  {
    if roles == [] then [] else [RoleName(roles[0])] + Names(roles[1..])
  }

  /** Over the closed enumeration: authorised iff the user's role is allowed; a user
      with no role claim is never authorised. */
  lemma {:induction false} AuthorizedIffMember(user: AuthUser, role: UserRole, allowed: seq<UserRole>)
    requires RoleClaim(user) == Some(RoleName(role))
    ensures Guard(Some(user), Names(allowed)).renderChildren <==> role in allowed
  {
    var names := Names(allowed);
    if role in allowed {
      var k :| 0 <= k < |allowed| && allowed[k] == role;
      assert names[k] == RoleName(role);
    }
    if RoleName(role) in names {
      var k :| 0 <= k < |names| && names[k] == RoleName(role);
      RoleNameRoundTrip(role, names[k]);
      RoleNameRoundTrip(allowed[k], names[k]);
      assert allowed[k] == role;
    }
  }

  /** A user without a role claim is denied whatever the allowed list. */
  lemma NoClaimDenied(user: AuthUser, allowedRoles: seq<string>)
    requires RoleClaim(user).None?
    ensures !Guard(Some(user), allowedRoles).renderChildren
    ensures Guard(Some(user), allowedRoles).navigate == Some("/")
  {
  }
}
