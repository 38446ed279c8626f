/**
 * The two authentication event listeners that feed the login-attempt service: a bad-credentials
 * failure counts one attempt for the username, a success evicts the principal's username.
 */
module Listeners {
  import opened Users
  import opened LoginAttempts

  /** The `getPrincipal()` object of an event's authentication. */
  datatype Principal =
    | StringPrincipal(name: string)
    | UserPrincipalObject(userPrincipal: UserPrincipal)
    /** Any other object, or null. */
    | OtherPrincipal

  /** The subclasses of `AbstractAuthenticationFailureEvent` Spring publishes. */
  datatype FailureKind =
    | BadCredentials | Locked | Disabled | Expired | CredentialsExpired
    | ProviderNotFound | ServiceException | ProxyUntrusted

  datatype AuthenticationFailureEvent = AuthenticationFailureEvent(kind: FailureKind, principal: Principal)

  datatype AuthenticationSuccessEvent = AuthenticationSuccessEvent(principal: Principal)

  class AuthenticationFailureListener {
    const loginAttemptService: LoginAttemptService

    constructor (loginAttemptService: LoginAttemptService)
      ensures this.loginAttemptService == loginAttemptService
    {
      this.loginAttemptService := loginAttemptService;
    }

    /**
     * Only bad-credentials events reach `onAuthenticationFailure`; of those, only a String
     * principal is counted. Every other event leaves the cache exactly as it was.
     */
    method OnAuthenticationFailure(event: AuthenticationFailureEvent, now: int)
      requires loginAttemptService.Valid()
      modifies loginAttemptService.loginAttemptCache
      ensures loginAttemptService.Valid()
      ensures event.kind == BadCredentials && event.principal.StringPrincipal? ==>
        AddedAttempt(old(loginAttemptService.loginAttemptCache.entries),
          loginAttemptService.loginAttemptCache.entries, event.principal.name, now)
      ensures !(event.kind == BadCredentials && event.principal.StringPrincipal?) ==>
        loginAttemptService.loginAttemptCache.entries == old(loginAttemptService.loginAttemptCache.entries)
    {
      if event.kind == BadCredentials {
        var principal := event.principal;
        if principal.StringPrincipal? {
          var username := principal.name;
          loginAttemptService.AddUserToLoginAttemptCache(username, now);
        }
      }
    }
  }

  class AuthenticationSuccessListener {
    const loginAttemptService: LoginAttemptService

    constructor (loginAttemptService: LoginAttemptService)
      ensures this.loginAttemptService == loginAttemptService
    {
      this.loginAttemptService := loginAttemptService;
    }

    /** A `UserPrincipal` principal has its username evicted; any other principal changes nothing. */
    method OnAuthenticationSuccess(event: AuthenticationSuccessEvent)
      requires loginAttemptService.Valid()
      modifies loginAttemptService.loginAttemptCache
      ensures loginAttemptService.Valid()
      ensures loginAttemptService.loginAttemptCache.entries ==
        if event.principal.UserPrincipalObject?
        then old(loginAttemptService.loginAttemptCache.entries) - {event.principal.userPrincipal.GetUsername()}
        else old(loginAttemptService.loginAttemptCache.entries)
    {
      var principal := event.principal;
      if principal.UserPrincipalObject? {
        var userPrincipal := principal.userPrincipal;
        loginAttemptService.EvictUserFromLoginAttemptCache(userPrincipal.GetUsername());
      }
    }
  }

  /**
   * Five bad-credentials failures for one username, each less than 15 minutes after the one
   * before and with no other event in between, put that username over the limit; a success
   * event for it then brings it back under, whatever its count was.
   */
  method FailuresThenSuccess(
    service: LoginAttemptService,
    onFailure: AuthenticationFailureListener,
    onSuccess: AuthenticationSuccessListener,
    principal: UserPrincipal,
    times: seq<int>)
    returns (lockedBefore: bool, lockedAfter: bool)
    requires service.Valid()
    requires onFailure.loginAttemptService == service && onSuccess.loginAttemptService == service
    requires |times| == 5
    requires forall i :: 0 < i < |times| ==> times[i - 1] <= times[i] < times[i - 1] + EXPIRE_AFTER_WRITE
    modifies service.loginAttemptCache
    ensures lockedBefore && !lockedAfter
  {
    var username := principal.GetUsername();
    var event := AuthenticationFailureEvent(BadCredentials, StringPrincipal(username));
    ghost var s0 := service.loginAttemptCache.entries;
    onFailure.OnAuthenticationFailure(event, times[0]);
    ghost var s1 := service.loginAttemptCache.entries;
    onFailure.OnAuthenticationFailure(event, times[1]);
    ghost var s2 := service.loginAttemptCache.entries;
    onFailure.OnAuthenticationFailure(event, times[2]);
    ghost var s3 := service.loginAttemptCache.entries;
    onFailure.OnAuthenticationFailure(event, times[3]);
    ghost var s4 := service.loginAttemptCache.entries;
    onFailure.OnAuthenticationFailure(event, times[4]);
    ghost var s5 := service.loginAttemptCache.entries;
    FiveFailuresExceedLimit([s0, s1, s2, s3, s4, s5], times, username);
    lockedBefore := service.HasExceededMaxAttempts(username, times[4]);
    onSuccess.OnAuthenticationSuccess(AuthenticationSuccessEvent(UserPrincipalObject(principal)));
    lockedAfter := service.HasExceededMaxAttempts(username, times[4]);
  }
}
