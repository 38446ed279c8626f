/**
 * `JWTTokenProvider`: the claim set of an issued JSON Web Token (RFC 7519: `iss` section 4.1.1,
 * `sub` 4.1.2, `aud` 4.1.3, `exp` 4.1.4, `iat` 4.1.6, plus an array claim of authorities),
 * the issuer-only verifier, and the expiry and validity predicates built on it.
 *
 * HMAC-SHA512 signing (section 3.2 of RFC 7518), base64url encoding and parsing belong to the
 * JWT library and are not modelled: a `Codec` stands for them, and lemmas that need a token to
 * decode to what was signed take `RoundTrips(codec)` as a hypothesis.
 */
module Jwt {
  import opened Wrappers
  import opened Text
  import opened Security
  import opened Users
  import opened SecurityConstant
  import opened Servlet

  /** The decoded payload; a claim absent from the token is `None` (the library returns null). */
  datatype Claims = Claims(
    iss: Option<string>,
    aud: seq<string>,
    iat: Option<int>,
    sub: Option<string>,
    authorities: Option<seq<string>>,
    exp: Option<int>)

  /**
   * The signing library: `sign(claims, secret)` yields the compact token; `decode(token, secret)`
   * yields its claims when the token is well formed and its signature matches `secret`.
   */
  datatype Codec = Codec(sign: (Claims, string) -> string, decode: (string, string) -> Option<Claims>)

  /** A token decodes, under the secret it was signed with, to exactly the claims that were signed. */
  ghost predicate RoundTrips(codec: Codec)
  {
    forall claims: Claims, secret: string :: codec.decode(codec.sign(claims, secret), secret) == Some(claims)
  }

  /** `JWTVerificationException` (bad encoding, bad signature, wrong issuer) or a `NullPointerException`. */
  datatype JwtError = VerificationFailed | NullPointer

  /** `JWT.require(HMAC512(secret)).withIssuer(issuer).build()`. */
  datatype JWTVerifier = JWTVerifier(secret: string, issuer: string)

  /** `JWTVerifier.verify`: the signature must match and `iss` must equal the required issuer; `aud` is not checked. */
  function Verify(codec: Codec, verifier: JWTVerifier, token: string): Result<Claims, JwtError>
  {
    match codec.decode(token, verifier.secret)
    case None => Failure(VerificationFailed)
    case Some(claims) =>
      if claims.iss == Some(verifier.issuer) then Success(claims) else Failure(VerificationFailed)
  }

  datatype JwtTokenProvider = JwtTokenProvider(secret: string, codec: Codec, constants: SecurityConstants)
  {
    /** `getClaimsFromUser`: the principal's authority strings, same values, same order. */
    function GetClaimsFromUser(principal: UserPrincipal): (r: seq<string>)
      ensures r == principal.user.authorities
    {
      AuthorityStrings(principal.GetAuthorities())
    }

    /** The claim set `generateJwtToken` signs when the clock reads `now`. */
    function IssuedClaims(principal: UserPrincipal, now: int): (c: Claims)
      ensures c.iss == Some(constants.issuer) && c.aud == [constants.audience]
      ensures c.sub == Some(principal.GetUsername())
      ensures c.iat == Some(now) && c.exp == Some(now + constants.expirationTime)
      ensures c.authorities == Some(principal.user.authorities)
    {
      Claims(
        Some(constants.issuer),
        [constants.audience],
        Some(now),
        Some(principal.GetUsername()),
        Some(GetClaimsFromUser(principal)),
        Some(now + constants.expirationTime))
    }

    /**
     * `generateJwtToken`: the issued claim set, signed with the provider's secret. Under a codec
     * that round-trips, the provider's own verifier reads back exactly those claims.
     */
    function GenerateJwtToken(principal: UserPrincipal, now: int): (token: string)
      ensures RoundTrips(codec) ==> Verify(codec, GetJWTVerifier(), token) == Success(IssuedClaims(principal, now))
    {
      var claims := IssuedClaims(principal, now);
      assert RoundTrips(codec) ==> codec.decode(codec.sign(claims, secret), secret) == Some(claims);
      codec.sign(claims, secret)
    }

    /** `getJWTVerifier`: requires the configured issuer, under the configured secret. */
    function GetJWTVerifier(): (v: JWTVerifier)
      ensures v.issuer == constants.issuer && v.secret == secret
    {
      JWTVerifier(secret, constants.issuer)
    }

    /** `getSubject`: the `sub` claim of a verified token (null when absent); a failed verification throws. */
    function GetSubject(token: string): (r: Result<Option<string>, JwtError>)
      ensures r.Failure? <==> Verify(codec, GetJWTVerifier(), token).Failure?
      ensures r.Success? ==> r.value == Verify(codec, GetJWTVerifier(), token).value.sub
    {
      match Verify(codec, GetJWTVerifier(), token)
      case Failure(e) => Failure(e)
      case Success(claims) => Success(claims.sub)
    }

    /** `isTokenExpired`: `exp` strictly before `now`; a missing `exp` throws a null-pointer error. */
    function IsTokenExpired(verifier: JWTVerifier, token: string, now: int): (r: Result<bool, JwtError>)
      ensures r == Success(true) <==>
        Verify(codec, verifier, token).Success? && Verify(codec, verifier, token).value.exp.Some?
        && Verify(codec, verifier, token).value.exp.value < now
      ensures r == Success(false) <==>
        Verify(codec, verifier, token).Success? && Verify(codec, verifier, token).value.exp.Some?
        && now <= Verify(codec, verifier, token).value.exp.value
    {
      match Verify(codec, verifier, token)
      case Failure(e) => Failure(e)
      case Success(claims) =>
        match claims.exp
        case None => Failure(NullPointer)
        case Some(exp) => Success(exp < now)
    }

    /**
     * `isTokenValid`: a non-empty username and an unexpired token. An empty or null username
     * gives false without looking at the token at all.
     */
    function IsTokenValid(username: Option<string>, token: string, now: int): (r: Result<bool, JwtError>)
      ensures !IsNotEmpty(username) ==> r == Success(false)
      ensures IsNotEmpty(username) && Verify(codec, GetJWTVerifier(), token).Failure? ==>
        r == Failure(VerificationFailed)
      ensures IsNotEmpty(username) && Verify(codec, GetJWTVerifier(), token).Success?
          && Verify(codec, GetJWTVerifier(), token).value.exp.None?
        ==> r == Failure(NullPointer)
      ensures IsNotEmpty(username) && Verify(codec, GetJWTVerifier(), token).Success?
          && Verify(codec, GetJWTVerifier(), token).value.exp.Some?
        ==> r == Success(now <= Verify(codec, GetJWTVerifier(), token).value.exp.value)
      ensures r == Success(true) <==>
        IsNotEmpty(username) && Verify(codec, GetJWTVerifier(), token).Success?
        && Verify(codec, GetJWTVerifier(), token).value.exp.Some?
        && now <= Verify(codec, GetJWTVerifier(), token).value.exp.value
    {
      if !IsNotEmpty(username) then
        Success(false)
      else
        match IsTokenExpired(GetJWTVerifier(), token, now)
        case Failure(e) => Failure(e)
        case Success(expired) => Success(!expired)
    }

    /** `getClaimsFromToken`: the authorities array claim of a verified token, null when absent. */
    function GetClaimsFromToken(token: string): (r: Result<Option<seq<string>>, JwtError>)
      ensures r.Failure? <==> Verify(codec, GetJWTVerifier(), token).Failure?
      ensures r.Success? ==> r.value == Verify(codec, GetJWTVerifier(), token).value.authorities
    {
      match Verify(codec, GetJWTVerifier(), token)
      case Failure(e) => Failure(e)
      case Success(claims) => Success(claims.authorities)
    }

    /** `getAuthorities`: one granted authority per claim string, in order; a missing claim is a null-pointer error. */
    function GetAuthorities(token: string): (r: Result<seq<GrantedAuthority>, JwtError>)
      ensures r.Success? <==> GetClaimsFromToken(token).Success? && GetClaimsFromToken(token).value.Some?
      ensures r.Success? ==> AuthorityStrings(r.value) == GetClaimsFromToken(token).value.value
    {
      match GetClaimsFromToken(token)
      case Failure(e) => Failure(e)
      case Success(None) => Failure(NullPointer)
      case Success(Some(names)) =>
        AuthorityStringsRoundTrip(names);
        Success(ToGrantedAuthorities(names))
    }

    /** `getAuthentication`: an authenticated token for `username` with no credentials and exactly `authorities`. */
    function GetAuthentication(username: string, authorities: seq<GrantedAuthority>, request: Request): (a: Authentication)
      ensures a.principal == username && a.credentials == None
      ensures a.authorities == authorities && a.authenticated
      ensures a.details == WebAuthenticationDetails(request.remoteAddress, request.sessionId)
    {
      UsernamePasswordAuthenticationToken(
        username, None, authorities, true,
        WebAuthenticationDetails(request.remoteAddress, request.sessionId))
    }
  }

  /**
   * An issued token for a principal with a non-empty username is valid at time `t` exactly when
   * `t` is not after `exp` = issue time + lifetime: a token whose `exp` equals `t` is still valid.
   */
  lemma IssuedTokenValidUntilExpiry(provider: JwtTokenProvider, principal: UserPrincipal, issuedAt: int, t: int)
    requires RoundTrips(provider.codec)
    requires principal.GetUsername() != ""
    ensures provider.IsTokenValid(Some(principal.GetUsername()), provider.GenerateJwtToken(principal, issuedAt), t)
      == Success(t <= issuedAt + provider.constants.expirationTime)
  {
  }

  /** Reading an issued token back yields its principal's username as subject and its authorities, in order. */
  lemma IssuedTokenClaimsRoundTrip(provider: JwtTokenProvider, principal: UserPrincipal, now: int)
    requires RoundTrips(provider.codec)
    ensures provider.GetSubject(provider.GenerateJwtToken(principal, now)) == Success(Some(principal.GetUsername()))
    ensures provider.GetAuthorities(provider.GenerateJwtToken(principal, now)).Success?
    ensures AuthorityStrings(provider.GetAuthorities(provider.GenerateJwtToken(principal, now)).value)
      == principal.user.authorities
  {
  }

  /** The verifier accepts any audience: only the issuer is checked. */
  lemma VerifyIgnoresAudience(codec: Codec, verifier: JWTVerifier, claims: Claims, audience: seq<string>)
    requires RoundTrips(codec)
    requires claims.iss == Some(verifier.issuer)
    ensures Verify(codec, verifier, codec.sign(claims.(aud := audience), verifier.secret)) == Success(claims.(aud := audience))
  {
    assert codec.decode(codec.sign(claims.(aud := audience), verifier.secret), verifier.secret) == Some(claims.(aud := audience));
  }

  /** A correctly signed token from another issuer, or with no issuer, is rejected. */
  lemma VerifyRejectsOtherIssuer(codec: Codec, verifier: JWTVerifier, claims: Claims)
    requires RoundTrips(codec)
    requires claims.iss != Some(verifier.issuer)
    ensures Verify(codec, verifier, codec.sign(claims, verifier.secret)) == Failure(VerificationFailed)
  {
    assert codec.decode(codec.sign(claims, verifier.secret), verifier.secret) == Some(claims);
  }
}
