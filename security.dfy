/**
 * The Spring Security values the core builds and reads: granted authorities, the
 * username/password authentication token, and the security context the authorization
 * filter fills in (an explicit object here, where Spring keeps it in a thread-local).
 */
module Security {
  import opened Wrappers

  /** `SimpleGrantedAuthority`: a wrapped authority string such as "user:read". */
  datatype GrantedAuthority = SimpleGrantedAuthority(authority: string)

  /** `stream().map(SimpleGrantedAuthority::new)`: one authority per string, in order. */
  function ToGrantedAuthorities(names: seq<string>): (r: seq<GrantedAuthority>)
    ensures |r| == |names|
    ensures forall i :: 0 <= i < |names| ==> r[i] == SimpleGrantedAuthority(names[i])
  {
    if names == [] then [] else [SimpleGrantedAuthority(names[0])] + ToGrantedAuthorities(names[1..])
  }

  /** `stream().map(GrantedAuthority::getAuthority)`: the string of each authority, in order. */
  function AuthorityStrings(authorities: seq<GrantedAuthority>): (r: seq<string>)
    ensures |r| == |authorities|
    ensures forall i :: 0 <= i < |authorities| ==> r[i] == authorities[i].authority
  {
    if authorities == [] then [] else [authorities[0].authority] + AuthorityStrings(authorities[1..])
  }

  /** Wrapping strings as authorities and reading them back gives the strings unchanged. */
  lemma {:induction false} AuthorityStringsRoundTrip(names: seq<string>)
    ensures AuthorityStrings(ToGrantedAuthorities(names)) == names
  {
    if names != [] {
      AuthorityStringsRoundTrip(names[1..]);
      assert ToGrantedAuthorities(names) == [SimpleGrantedAuthority(names[0])] + ToGrantedAuthorities(names[1..]);
    }
  }

  /** `WebAuthenticationDetails`: what `WebAuthenticationDetailsSource.buildDetails` keeps of a request. */
  datatype WebAuthenticationDetails = WebAuthenticationDetails(remoteAddress: string, sessionId: Option<string>)

  /**
   * `UsernamePasswordAuthenticationToken` built with the three-argument constructor, which
   * marks it authenticated; `details` is what `setDetails` stored.
   */
  datatype Authentication = UsernamePasswordAuthenticationToken(
    principal: string,
    credentials: Option<string>,
    authorities: seq<GrantedAuthority>,
    authenticated: bool,
    details: WebAuthenticationDetails)

  /** The security context of the request being handled. */
  class SecurityContext {
    var authentication: Option<Authentication>

    constructor ()
      ensures authentication == None
    {
      authentication := None;
    }

    method SetAuthentication(a: Authentication)
      modifies this
      ensures authentication == Some(a)
    {
      authentication := Some(a);
    }

    /** `SecurityContextHolder.clearContext()`: the next read sees an empty context. */
    method Clear()
      modifies this
      ensures authentication == None
    {
      authentication := None;
    }
  }
}
