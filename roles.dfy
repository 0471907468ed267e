/** The closed role enumeration and the static role -> capability table. */
module Roles {
  import opened Common

  datatype UserRole = Athlete | Coach | Admin

  /** The string a role has in metadata and in route checks. */
  function RoleName(role: UserRole): string {
    match role
    case Athlete => "athlete"
    case Coach => "coach"
    case Admin => "admin"
  }

  /** Reads a role claim; only the three enumerated names are roles. */
  function ParseRole(s: string): (r: Option<UserRole>)
    ensures r.Some? ==> RoleName(r.value) == s
    ensures r.None? <==> s != "athlete" && s != "coach" && s != "admin"
  {
    if s == "athlete" then Some(Athlete)
    else if s == "coach" then Some(Coach)
    else if s == "admin" then Some(Admin)
    else None
  }

  /** The enumeration is closed: exactly three names parse, and each names its own role. */
  lemma RoleNameRoundTrip(role: UserRole, s: string)
    ensures ParseRole(RoleName(role)) == Some(role)
    ensures ParseRole(s).Some? <==> s in {"athlete", "coach", "admin"}
    ensures RoleName(role) == s <==> ParseRole(s) == Some(role)
  {
  }

  /** The optional capability flags of `RolePermissions`; an absent key is `undefined`. */
  datatype Permission =
    | CanManageUsers
    | CanManageRoles
    | CanViewAthletes
    | CanEditAthletes
    | CanViewCoaches
    | CanEditCoaches

  type RolePermissions = map<Permission, bool>

  /** `ROLE_PERMISSIONS`, entry by entry as declared. */
  const RolePermissionTable: map<UserRole, RolePermissions> :=
    map[
      Admin := map[
        CanManageUsers := true,
        CanManageRoles := true,
        CanViewAthletes := true,
        CanEditAthletes := true,
        CanViewCoaches := true,
        CanEditCoaches := true],
      Coach := map[
        CanViewAthletes := true,
        CanEditAthletes := true,
        CanViewCoaches := false,
        CanEditCoaches := false],
      Athlete := map[
        CanViewAthletes := false,
        CanEditAthletes := false,
        CanViewCoaches := true,
        CanEditCoaches := false]
    ]

  /** `!!ROLE_PERMISSIONS[role][p]`: a missing flag reads as false. */
  predicate Granted(role: UserRole, p: Permission) {
    role in RolePermissionTable && p in RolePermissionTable[role] && RolePermissionTable[role][p]
  }

  /** The table is total over the enumeration. */
  lemma TableIsTotal(role: UserRole)
    ensures role in RolePermissionTable
  {
  }

  /** Admin holds every capability. */
  lemma AdminHasEverything(p: Permission)
    ensures Granted(Admin, p)
  {
  }

  /** Coach: views and edits athletes, does not view or edit coaches, and has no user/role management entry. */
  lemma CoachEntry()
    ensures Granted(Coach, CanViewAthletes) && Granted(Coach, CanEditAthletes)
    ensures !Granted(Coach, CanViewCoaches) && !Granted(Coach, CanEditCoaches)
    ensures CanManageUsers !in RolePermissionTable[Coach] && CanManageRoles !in RolePermissionTable[Coach]
  {
  }

  /** Athlete: only `canViewCoaches` is granted. */
  lemma AthleteEntry(p: Permission)
    ensures Granted(Athlete, p) <==> p == CanViewCoaches
  {
  }

  /** Capabilities only grow toward admin. */
  lemma MonotoneTowardAdmin(role: UserRole, p: Permission)
    ensures Granted(role, p) ==> Granted(Admin, p)
  {
  }

  /** Editing coaches is the admin's alone. */
  lemma OnlyAdminEditsCoaches(role: UserRole)
    ensures Granted(role, CanEditCoaches) <==> role == Admin
  {
  }
}
