/**
 * The user record and `UserPrincipal`, the read-only view of it that Spring Security
 * authenticates against. Dates are integer milliseconds, `None` where Java holds null.
 */
module Users {
  import opened Wrappers
  import opened Security

  datatype User = User(
    id: Option<int>,
    userId: string,
    firstName: string,
    lastName: string,
    username: string,
    password: string,
    email: string,
    profileImageUrl: string,
    lastLoginDate: Option<int>,
    lastLoginDateDisplay: Option<int>,
    joinDate: Option<int>,
    role: string,
    authorities: seq<string>,
    isActive: bool,
    isNotLocked: bool)

  /** Wraps one user, fixed at construction. */
  datatype UserPrincipal = UserPrincipal(user: User)
  {
    /** One `SimpleGrantedAuthority` per string of the user's authorities, in the same order. */
    function GetAuthorities(): (r: seq<GrantedAuthority>)
      ensures AuthorityStrings(r) == user.authorities
    {
      AuthorityStringsRoundTrip(user.authorities);
      ToGrantedAuthorities(user.authorities)
    }

    function GetPassword(): string { user.password }
    function GetUsername(): string { user.username }
    function IsAccountNonExpired(): bool { true }
    function IsAccountNonLocked(): bool { user.isNotLocked }
    function IsCredentialsNonExpired(): bool { true }
    function IsEnabled(): bool { user.isActive }
  }

  /**
   * The principal exposes the user's own username and password; accounts and credentials never
   * expire; it is locked exactly when the user is, and enabled exactly when the user is active.
   */
  lemma PrincipalReflectsUser(u: User)
    ensures UserPrincipal(u).GetUsername() == u.username
    ensures UserPrincipal(u).GetPassword() == u.password
    ensures UserPrincipal(u).IsAccountNonExpired() && UserPrincipal(u).IsCredentialsNonExpired()
    ensures UserPrincipal(u).IsAccountNonLocked() <==> u.isNotLocked
    ensures UserPrincipal(u).IsEnabled() <==> u.isActive
  {
  }
}
