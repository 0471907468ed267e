/** The `usePermissions` hook: the current user's role claim, defaulted, cast
    without a check, and looked up in the role table. */
module Permissions {
  import opened Common
  import opened Identity
  import opened Roles

  /** What the hook returns. `permissions` is `None` where the table lookup
      yields `undefined`. */
  datatype PermissionsView = PermissionsView(
    role: string,
    permissions: Option<RolePermissions>,
    isAdmin: bool,
    isCoach: bool,
    isAthlete: bool)

  /** The property names every object literal inherits from `Object.prototype`. */
  const ObjectPrototypeNames: set<string> := {
    "constructor", "hasOwnProperty", "isPrototypeOf", "propertyIsEnumerable",
    "toLocaleString", "toString", "valueOf", "__proto__",
    "__defineGetter__", "__defineSetter__", "__lookupGetter__", "__lookupSetter__"}

  /** `ROLE_PERMISSIONS[role as UserRole]` for an arbitrary string. The table is a plain
      object, so an inherited name finds a function or `Object.prototype`: defined, but
      holding none of the capability keys, which reads as an entry with no flags. */
  function TableLookup(role: string): (r: Option<RolePermissions>)
    ensures r.Some? <==> ParseRole(role).Some? || role in ObjectPrototypeNames
    ensures ParseRole(role).Some? ==> r == Some(RolePermissionTable[ParseRole(role).value])
    ensures role in ObjectPrototypeNames ==> r == Some(map[])
  {
    match ParseRole(role)
    case Some(known) => Some(RolePermissionTable[known])
    case None => if role in ObjectPrototypeNames then Some(map[]) else None
  }

  /** `usePermissions()` for the user held by the auth context. */
  function UsePermissions(user: Option<AuthUser>): (v: PermissionsView)
    ensures !Truthy(UserRoleClaim(user)) ==> v.role == "athlete"
    ensures Truthy(UserRoleClaim(user)) ==> v.role == UserRoleClaim(user).value
    ensures v.permissions == TableLookup(v.role)
    ensures v.isAdmin <==> v.role == "admin"
    ensures v.isCoach <==> v.role == "coach"
    ensures v.isAthlete <==> v.role == "athlete"
  {
    var role := OrElse(UserRoleClaim(user), "athlete");
    PermissionsView(role, TableLookup(role), role == "admin", role == "coach", role == "athlete")
  }

  /** `hasPermission(p)`: `!!permissions[p]`. Indexing an `undefined`
      permissions object throws a TypeError, modelled as `None`. */
  function HasPermission(v: PermissionsView, p: Permission): (r: Option<bool>)
    ensures r.None? <==> v.permissions.None?
    ensures r == Some(true) <==> v.permissions.Some? && p in v.permissions.value && v.permissions.value[p]
  {
    match v.permissions
    case None => None
    case Some(m) => Some(p in m && m[p])
  }

  /** No user, no claim or an empty claim all read as an athlete, with the athlete's entry. */
  lemma MissingClaimDefaultsToAthlete(user: Option<AuthUser>)
    requires user.None? || RoleClaim(user.value).None? || RoleClaim(user.value) == Some("")
    ensures UsePermissions(user).role == "athlete"
    ensures UsePermissions(user).permissions == Some(RolePermissionTable[Athlete])
    ensures UsePermissions(user).isAthlete && !UsePermissions(user).isAdmin && !UsePermissions(user).isCoach
  {
  }

  /** For an enumerated role, `hasPermission` agrees with the table. */
  lemma HasPermissionMatchesTable(user: AuthUser, role: UserRole, p: Permission)
    requires RoleClaim(user) == Some(RoleName(role))
    ensures HasPermission(UsePermissions(Some(user)), p) == Some(Granted(role, p))
  {
  }

  /** For an enumerated role exactly one of the three flags holds; for any
      other claim none does, and the lookup is undefined unless the claim names
      an inherited property. */
  lemma ExactlyOneFlag(user: Option<AuthUser>)
    ensures var v := UsePermissions(user);
      (ParseRole(v.role).Some? ==>
        (v.isAdmin && !v.isCoach && !v.isAthlete) ||
        (!v.isAdmin && v.isCoach && !v.isAthlete) ||
        (!v.isAdmin && !v.isCoach && v.isAthlete))
      && (ParseRole(v.role).None? ==> !v.isAdmin && !v.isCoach && !v.isAthlete)
      && (ParseRole(v.role).None? ==> (v.permissions.None? <==> v.role !in ObjectPrototypeNames))
  {
  }

  /** An unrecognised claim that is not an inherited property name makes
      `hasPermission` throw rather than deny. */
  lemma UnknownClaimThrows(user: AuthUser, p: Permission)
    requires Truthy(RoleClaim(user)) && ParseRole(RoleClaim(user).value).None?
    requires RoleClaim(user).value !in ObjectPrototypeNames
    ensures HasPermission(UsePermissions(Some(user)), p).None?
  {
  }

  /** A claim naming an inherited property, such as "constructor" or "toString",
      finds a defined entry: `hasPermission` denies every capability without
      throwing, and no role flag holds. */
  lemma InheritedNameDenies(user: AuthUser, p: Permission)
    requires RoleClaim(user).Some? && RoleClaim(user).value in ObjectPrototypeNames
    ensures HasPermission(UsePermissions(Some(user)), p) == Some(false)
    ensures var v := UsePermissions(Some(user)); !v.isAdmin && !v.isCoach && !v.isAthlete
  {
  }
}
