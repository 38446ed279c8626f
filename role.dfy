/** The `Role` enum: five roles, each bound to the authority table of the same name. */
module Roles {
  import opened Authority

  datatype Role = RoleUser | RoleHr | RoleManager | RoleAdmin | RoleSuperAdmin
  {
    /** `getAuthorities()`: the table the role was constructed with. */
    function GetAuthorities(): (r: seq<string>)
      ensures |r| > 0 && r[0] == "user:read"
    {
      match this
      case RoleUser => USER_AUTHORITIES
      case RoleHr => HR_AUTHORITIES
      case RoleManager => MANAGER_AUTHORITIES
      case RoleAdmin => ADMIN_AUTHORITIES
      case RoleSuperAdmin => SUPER_ADMIN_AUTHORITIES
    }

    /** `name()`: the constant's identifier. */
    function Name(): string
    {
      match this
      case RoleUser => "ROLE_USER"
      case RoleHr => "ROLE_HR"
      case RoleManager => "ROLE_MANAGER"
      case RoleAdmin => "ROLE_ADMIN"
      case RoleSuperAdmin => "ROLE_SUPER_ADMIN"
    }
  }

  /** `Role.values()`, in declaration order. */
  const VALUES: seq<Role> := [RoleUser, RoleHr, RoleManager, RoleAdmin, RoleSuperAdmin]

  /** There are exactly five roles, each listed once, with distinct names. */
  lemma ExactlyFiveRoles(r: Role, s: Role)
    ensures |VALUES| == 5 && r in VALUES
    ensures forall i, j :: 0 <= i < j < |VALUES| ==> VALUES[i] != VALUES[j]
    ensures r.Name() == s.Name() ==> r == s
  {
  }

  /** Only the super-admin role grants "user:delete". */
  lemma OnlySuperAdminDeletes(r: Role)
    ensures "user:delete" in r.GetAuthorities() <==> r == RoleSuperAdmin
  {
  }

  /** Whatever a plain user may do, every role may do. */
  lemma UserAuthoritiesEverywhere(r: Role)
    ensures Within(RoleUser.GetAuthorities(), r.GetAuthorities())
  {
  }

  /** HR and manager grant the same authorities. */
  lemma HrSameAsManager()
    ensures RoleHr.GetAuthorities() == RoleManager.GetAuthorities()
  {
  }
}
