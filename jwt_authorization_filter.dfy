/**
 * `JwtAuthorizationFilter.doFilterInternal`: per request, the CORS preflight short-cut, the
 * bearer-header check (section 2.1 of RFC 6750), and installing or clearing the authentication
 * in the request's security context. `Decide` states what one call does; the filter's method
 * performs it step by step on the response, the chain and the context.
 */
module AuthorizationFilter {
  import opened Wrappers
  import opened Text
  import opened Security
  import opened Servlet
  import opened Jwt

  /** What one pass of the filter does. */
  datatype FilterOutcome =
    /** OPTIONS request: status 200, context untouched, chain called. */
    | Preflight
    /** No bearer header: context untouched, chain called, token never read. */
    | Anonymous
    /** Valid token, empty context: this authentication is installed, chain called. */
    | Authenticated(authentication: Authentication)
    /** Invalid token, or an authentication already present: context cleared, chain called. */
    | Cleared
    /** An error escaped from the token provider: nothing changed, chain not called. */
    | Aborted(error: JwtError)

  /** The token examined: the header with exactly the prefix's length removed. */
  function BearerToken(prefix: string, header: string): (token: string)
    requires StartsWith(header, prefix)
    ensures prefix + token == header
  {
    header[|prefix|..]
  }

  /** The `Authorization` header if it is present and starts with the token prefix. */
  predicate HasBearer(provider: JwtTokenProvider, request: Request)
  {
    request.authorization.Some? && StartsWith(request.authorization.value, provider.constants.tokenPrefix)
  }

  /**
   * The outcome of one pass, given the request, whether the context already holds an
   * authentication, and the clock reading used for the expiry check.
   */
  function Decide(provider: JwtTokenProvider, request: Request, hasAuthentication: bool, now: int): FilterOutcome
  {
    if EqualsIgnoreCase(request.httpMethod, provider.constants.optionsHttpMethod) then
      Preflight
    else if !HasBearer(provider, request) then
      Anonymous
    else
      var token := BearerToken(provider.constants.tokenPrefix, request.authorization.value);
      match provider.GetSubject(token)
      case Failure(e) => Aborted(e)
      case Success(username) =>
        match provider.IsTokenValid(username, token, now)
        case Failure(e) => Aborted(e)
        case Success(valid) =>
          if valid && !hasAuthentication then
            match provider.GetAuthorities(token)
            case Failure(e) => Aborted(e)
            case Success(authorities) =>
              Authenticated(provider.GetAuthentication(username.value, authorities, request))
          else
            Cleared
  }

  class JwtAuthorizationFilter {
    const provider: JwtTokenProvider

    constructor (provider: JwtTokenProvider)
      ensures this.provider == provider
    {
      this.provider := provider;
    }

    /**
     * One pass over `request`. The response status changes only on a preflight; the context
     * changes only as the outcome says; the chain is called once unless an error escapes,
     * which is returned in `error`.
     */
    method DoFilterInternal(request: Request, response: ServletResponse, chain: FilterChain, context: SecurityContext, now: int)
      returns (error: Option<JwtError>)
      modifies response, chain, context
      ensures var outcome := Decide(provider, request, old(context.authentication).Some?, now);
        && response.status == (if outcome.Preflight? then 200 else old(response.status))
        && response.contentType == old(response.contentType) && response.written == old(response.written)
        && context.authentication == (match outcome
             case Authenticated(a) => Some(a)
             case Cleared => None
             case _ => old(context.authentication))
        && chain.passed == (if outcome.Aborted? then old(chain.passed) else old(chain.passed) + [request])
        && error == (if outcome.Aborted? then Some(outcome.error) else None)
    {
      if EqualsIgnoreCase(request.httpMethod, provider.constants.optionsHttpMethod) {
        response.SetStatus(200);
      } else {
        var header := request.authorization;
        if header.None? || !StartsWith(header.value, provider.constants.tokenPrefix) {
          chain.DoFilter(request);
          return None;
        }
        var token := header.value[|provider.constants.tokenPrefix|..];
        var subject := provider.GetSubject(token);
        if subject.Failure? {
          return Some(subject.error);
        }
        var username := subject.value;
        var valid := provider.IsTokenValid(username, token, now);
        if valid.Failure? {
          return Some(valid.error);
        }
        if valid.value && context.authentication.None? {
          var authorities := provider.GetAuthorities(token);
          if authorities.Failure? {
            return Some(authorities.error);
          }
          var authentication := provider.GetAuthentication(username.value, authorities.value, request);
          context.SetAuthentication(authentication);
        } else {
          context.Clear();
        }
      }
      chain.DoFilter(request);
      error := None;
    }
  }

  /** An OPTIONS request, in any letter case, is a preflight whatever its headers. */
  lemma OptionsIsPreflight(provider: JwtTokenProvider, request: Request, hasAuthentication: bool, now: int)
    requires ToUpperCase(request.httpMethod) == ToUpperCase(provider.constants.optionsHttpMethod)
    ensures Decide(provider, request, hasAuthentication, now) == Preflight
  {
  }

  /** Without a header that starts with the prefix, a non-OPTIONS request passes through anonymously. */
  lemma MissingBearerIsAnonymous(provider: JwtTokenProvider, request: Request, hasAuthentication: bool, now: int)
    requires !EqualsIgnoreCase(request.httpMethod, provider.constants.optionsHttpMethod)
    requires request.authorization.None? || !StartsWith(request.authorization.value, provider.constants.tokenPrefix)
    ensures Decide(provider, request, hasAuthentication, now) == Anonymous
  {
  }

  /** A bearer token that fails verification aborts the request before the context or the chain is touched. */
  lemma UnverifiableTokenAborts(provider: JwtTokenProvider, request: Request, hasAuthentication: bool, now: int)
    requires !EqualsIgnoreCase(request.httpMethod, provider.constants.optionsHttpMethod)
    requires HasBearer(provider, request)
    requires Verify(provider.codec, provider.GetJWTVerifier(),
      BearerToken(provider.constants.tokenPrefix, request.authorization.value)).Failure?
    ensures Decide(provider, request, hasAuthentication, now) == Aborted(VerificationFailed)
  {
  }

  /** A verified token with an empty or missing subject, or an expired one, clears the context. */
  lemma InvalidTokenClears(provider: JwtTokenProvider, request: Request, hasAuthentication: bool, now: int)
    requires !EqualsIgnoreCase(request.httpMethod, provider.constants.optionsHttpMethod)
    requires HasBearer(provider, request)
    requires var token := BearerToken(provider.constants.tokenPrefix, request.authorization.value);
      var v := Verify(provider.codec, provider.GetJWTVerifier(), token);
      v.Success? && (!IsNotEmpty(v.value.sub) || (v.value.exp.Some? && v.value.exp.value < now))
    ensures Decide(provider, request, hasAuthentication, now) == Cleared
  {
  }

  /** A valid token arriving when the context already holds an authentication clears the context. */
  lemma ValidTokenWithExistingAuthenticationClears(provider: JwtTokenProvider, request: Request, now: int)
    requires !EqualsIgnoreCase(request.httpMethod, provider.constants.optionsHttpMethod)
    requires HasBearer(provider, request)
    requires var token := BearerToken(provider.constants.tokenPrefix, request.authorization.value);
      provider.GetSubject(token).Success?
      && provider.IsTokenValid(provider.GetSubject(token).value, token, now) == Success(true)
    ensures Decide(provider, request, true, now) == Cleared
  {
  }

  /**
   * A valid token with an empty context installs an authentication whose principal is the
   * token's subject and whose authorities are the token's authority claims, in order.
   */
  lemma ValidTokenInstalls(provider: JwtTokenProvider, request: Request, now: int)
    requires !EqualsIgnoreCase(request.httpMethod, provider.constants.optionsHttpMethod)
    requires HasBearer(provider, request)
    requires var token := BearerToken(provider.constants.tokenPrefix, request.authorization.value);
      var v := Verify(provider.codec, provider.GetJWTVerifier(), token);
      v.Success? && IsNotEmpty(v.value.sub) && v.value.exp.Some? && now <= v.value.exp.value
      && v.value.authorities.Some?
    ensures var token := BearerToken(provider.constants.tokenPrefix, request.authorization.value);
      var claims := Verify(provider.codec, provider.GetJWTVerifier(), token).value;
      var outcome := Decide(provider, request, false, now);
      && outcome.Authenticated?
      && outcome.authentication.principal == claims.sub.value
      && AuthorityStrings(outcome.authentication.authorities) == claims.authorities.value
      && outcome.authentication.credentials == None
  {
  }

  /**
   * End to end: a token issued to a principal with a non-empty username, presented as
   * prefix + token on a non-OPTIONS request no later than its expiry, authenticates that
   * principal with its own authorities.
   */
  lemma IssuedTokenAuthenticates(provider: JwtTokenProvider, principal: Users.UserPrincipal, issuedAt: int, request: Request, now: int)
    requires RoundTrips(provider.codec)
    requires principal.GetUsername() != ""
    requires !EqualsIgnoreCase(request.httpMethod, provider.constants.optionsHttpMethod)
    requires request.authorization == Some(provider.constants.tokenPrefix + provider.GenerateJwtToken(principal, issuedAt))
    requires now <= issuedAt + provider.constants.expirationTime
    ensures var outcome := Decide(provider, request, false, now);
      && outcome.Authenticated?
      && outcome.authentication.principal == principal.GetUsername()
      && AuthorityStrings(outcome.authentication.authorities) == principal.user.authorities
  {
    var prefix := provider.constants.tokenPrefix;
    var token := provider.GenerateJwtToken(principal, issuedAt);
    assert StartsWith(request.authorization.value, prefix) by {
      assert (prefix + token)[..|prefix|] == prefix;
    }
    assert BearerToken(prefix, request.authorization.value) == token by {
      assert (prefix + token)[|prefix|..] == token;
    }
    ValidTokenInstalls(provider, request, now);
  }
}
