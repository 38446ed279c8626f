# Spring Security JWT backend — a Dafny model of its security core

This project models the security core of a Spring Boot back end that authenticates users and then authorises their requests with JSON Web Tokens. It models six parts:

* **Login-attempt tracker.** `LoginAttemptService` counts failed logins per username in a loading cache. An entry expires 15 minutes after its last write. The cache holds at most 100 entries. A missing key loads as 0. A user is over the limit at 5 or more failures. The two authentication listeners feed it: a bad-credentials failure with a String principal adds one attempt, and a success with a `UserPrincipal` evicts that username.
* **Token provider.** `JWTTokenProvider` builds the issued claim set: `iss`, `aud`, `iat`, `sub`, an authorities array claim, and `exp` = issue time + lifetime (RFC 7519, sections 4.1.1–4.1.6). Its verifier checks the signature and the issuer, but not the audience. A token is valid when the username is non-empty and `exp` is not strictly before now. Granted authorities are rebuilt from the claim.
* **Authorization filter.** `JwtAuthorizationFilter` runs once per request:
  * an OPTIONS request gets status 200;
  * a request without a bearer header (section 2.1 of RFC 6750) passes through untouched;
  * a verified token installs or clears the authentication in the security context;
  * a token that fails verification aborts the request before the chain is called.
* **Error responses.** These come from the `ExceptionHandling` controller advice, the authentication entry point (403) and the access-denied handler (401). All of them use the `HttpResponse` record, whose body code, status and upper-cased reason phrase agree (status codes as in section 15 of RFC 9110).
* **Permission tables.** The `Role`/`Authority` tables and the `UserPrincipal` projection of a user record.
* **User service.** `UserServiceImpl` covers:
  * the uniqueness checks for creating and updating a user;
  * the last-login update in `loadUserByUsername`;
  * the defaults that `register` sets.

How the model is built:

* Time is an integer millisecond parameter `now`.
* The values of `SecurityConstant` (token prefix, lifetime, issuer, audience, the OPTIONS method name, the two messages) are an opaque `SecurityConstants` record.
* The JWT library's signing and parsing are an abstract `Codec`. Lemmas that need decode-after-sign use the hypothesis `RoundTrips(codec)`.
* Java `null` is `Option`. A thrown exception is the `Failure` arm of a `Result`.
* The thread-local security context, the servlet response and the filter chain are explicit objects that the methods modify.

Modules, one per source file or concept:

* `Wrappers`, `Text`, `Http`, `Servlet`, `Security`: library types and helpers.
* `HttpResponses`, `Authority`, `Roles`, `Users`, `SecurityConstant`: the records and tables.
* `Jwt`, `AuthorizationFilter`: the token provider and the filter.
* `LoginAttempts`, `Listeners`: the tracker and its listeners.
* `ErrorHandlers`, `ExceptionHandling`: the error responders.
* `UserService`: the user service.

Where the code and its description differ, the model follows the code:

* `User.java` declares a `roles` array, but `register` calls `setRole(Role.ROLE_USER.name())`. The model's user record therefore has a single `role` string.
* `AccessDeniedException` is answered with 403 by the controller advice and with 401 by the access-denied handler. Both are modelled as written.
* A valid token that arrives while an authentication is already present clears the context rather than keeping it.

## Model

| member | source | states |
|---|---|---|
| Text.ToUpperCase | src/main/java/com/magadiflo/app/exception/ExceptionHandling.java:168 | same length, and every character is the upper-case form of the input character at that position |
| Text.EqualsIgnoreCase | src/main/java/com/magadiflo/app/filter/JwtAuthorizationFilter.java:44 | true exactly when the upper-cased forms of both strings are equal |
| Security.ToGrantedAuthorities | src/main/java/com/magadiflo/app/domain/UserPrincipal.java:41 | one `SimpleGrantedAuthority` per name, same length and same order |
| Security.AuthorityStrings | src/main/java/com/magadiflo/app/utility/JWTTokenProvider.java:92 | one authority string per granted authority, same length and same order |
| Security.AuthorityStringsRoundTrip | src/main/java/com/magadiflo/app/utility/JWTTokenProvider.java:89-93 | turning names into authorities and back gives the original names |
| Security.SecurityContext.SetAuthentication | src/main/java/com/magadiflo/app/filter/JwtAuthorizationFilter.java:63 | the context holds exactly the given authentication |
| Security.SecurityContext.Clear | src/main/java/com/magadiflo/app/filter/JwtAuthorizationFilter.java:65 | the context holds no authentication |
| Servlet.ServletResponse.SetStatus | src/main/java/com/magadiflo/app/filter/JwtAuthorizationFilter.java:45 | the status is set; the content type and the body written so far are unchanged |
| Servlet.ServletResponse.SetContentType | src/main/java/com/magadiflo/app/filter/JwtAuthenticationEntryPoint.java:34 | the content type is set; the status and the body are unchanged |
| Servlet.ServletResponse.Write | src/main/java/com/magadiflo/app/filter/JwtAuthenticationEntryPoint.java:37-40 | the body is appended to what was written; the status and the content type are unchanged |
| Servlet.FilterChain.DoFilter | src/main/java/com/magadiflo/app/filter/JwtAuthorizationFilter.java:68 | the request is passed down the chain exactly once more |
| HttpResponses.HttpResponse.Empty | src/main/java/com/magadiflo/app/domain/HttpResponse.java:29-30 | the no-argument constructor leaves every field at its default (0 or null) |
| HttpResponses.HttpResponse.constructor | src/main/java/com/magadiflo/app/domain/HttpResponse.java:32-38 | stores exactly the given code, status, reason and message, and the creation time as time stamp |
| HttpResponses.HttpResponse.Body | src/main/java/com/magadiflo/app/domain/HttpResponse.java:40-74 | the serialised body carries exactly what the five getters return |
| HttpResponses.HttpResponse.SetHttpStatusCode | src/main/java/com/magadiflo/app/domain/HttpResponse.java:44-46 | the getter returns the new code; the other four fields are unchanged |
| HttpResponses.HttpResponse.SetHttpStatus | src/main/java/com/magadiflo/app/domain/HttpResponse.java:52-54 | the getter returns the new status; the other four fields are unchanged |
| HttpResponses.HttpResponse.SetReason | src/main/java/com/magadiflo/app/domain/HttpResponse.java:60-62 | the getter returns the new reason; the other four fields are unchanged |
| HttpResponses.HttpResponse.SetMessage | src/main/java/com/magadiflo/app/domain/HttpResponse.java:68-70 | the getter returns the new message; the other four fields are unchanged |
| HttpResponses.HttpResponse.SetTimeStamp | src/main/java/com/magadiflo/app/domain/HttpResponse.java:76-78 | the getter returns the new time stamp; the other four fields are unchanged |
| Authority.TableValues | src/main/java/com/magadiflo/app/constant/Authority.java:6-8 | `USER_AUTHORITIES` is exactly `["user:read"]`, and the HR table equals the manager table |
| Authority.TablesNested | src/main/java/com/magadiflo/app/constant/Authority.java:6-10 | user ⊆ HR ⊆ admin ⊆ super-admin |
| Authority.DeleteOnlyForSuperAdmin | src/main/java/com/magadiflo/app/constant/Authority.java:10 | "user:delete" is in the super-admin table and in no other |
| Authority.TablesWellFormed | src/main/java/com/magadiflo/app/constant/Authority.java:6-10 | every table starts with "user:read" and has no duplicates |
| Roles.Role.GetAuthorities | src/main/java/com/magadiflo/app/enumeration/Role.java:15-21 | every role's table is non-empty and starts with "user:read" |
| Roles.ExactlyFiveRoles | src/main/java/com/magadiflo/app/enumeration/Role.java:7-11 | `values()` lists five distinct roles, every role is among them, and roles with the same name are the same role |
| Roles.OnlySuperAdminDeletes | src/main/java/com/magadiflo/app/enumeration/Role.java:7-11 | a role's authorities include "user:delete" exactly when it is `ROLE_SUPER_ADMIN` |
| Roles.UserAuthoritiesEverywhere | src/main/java/com/magadiflo/app/enumeration/Role.java:7-11 | `ROLE_USER`'s authorities are contained in every role's |
| Roles.HrSameAsManager | src/main/java/com/magadiflo/app/enumeration/Role.java:8-9 | `ROLE_HR` and `ROLE_MANAGER` grant identical authorities |
| Users.UserPrincipal.GetAuthorities | src/main/java/com/magadiflo/app/domain/UserPrincipal.java:40-42 | the authority strings of the result are exactly the user's authorities, in order |
| Users.PrincipalReflectsUser | src/main/java/com/magadiflo/app/domain/UserPrincipal.java:44-72 | username and password are the user's; the account and credentials never expire; non-locked is `isNotLocked`; enabled is `isActive` |
| Jwt.JwtTokenProvider.GetClaimsFromUser | src/main/java/com/magadiflo/app/utility/JWTTokenProvider.java:89-93 | the claim is exactly the user's authorities, same values and same order |
| Jwt.JwtTokenProvider.IssuedClaims | src/main/java/com/magadiflo/app/utility/JWTTokenProvider.java:30-38 | issuer and audience are the configured ones, subject is the principal's username, `iat` = now, `exp` = now + lifetime, and the authorities claim is the user's authorities |
| Jwt.JwtTokenProvider.GetJWTVerifier | src/main/java/com/magadiflo/app/utility/JWTTokenProvider.java:76-87 | the verifier requires the configured issuer under the provider's secret |
| Jwt.JwtTokenProvider.GetSubject | src/main/java/com/magadiflo/app/utility/JWTTokenProvider.java:61-64 | fails exactly when verification fails; otherwise it is the verified `sub` claim (null when absent) |
| Jwt.JwtTokenProvider.IsTokenExpired | src/main/java/com/magadiflo/app/utility/JWTTokenProvider.java:66-69 | true exactly when the token verifies and `exp` < now; false exactly when it verifies and now ≤ `exp`; an error otherwise |
| Jwt.JwtTokenProvider.IsTokenValid | src/main/java/com/magadiflo/app/utility/JWTTokenProvider.java:56-59 | an empty or null username gives false without reading the token; with a non-empty username, a token that fails verification is a verification error, a verified token without `exp` is a null-pointer error, and a verified token with `exp` gives true when now ≤ `exp` and false when `exp` is before now; true exactly when the username is non-empty, the token verifies and now ≤ `exp` |
| Jwt.JwtTokenProvider.GetClaimsFromToken | src/main/java/com/magadiflo/app/utility/JWTTokenProvider.java:71-74 | fails exactly when verification fails; otherwise it is the verified authorities claim |
| Jwt.JwtTokenProvider.GetAuthorities | src/main/java/com/magadiflo/app/utility/JWTTokenProvider.java:42-45 | succeeds exactly when the claim is present, and then has one authority per claim string, in order |
| Jwt.JwtTokenProvider.GetAuthentication | src/main/java/com/magadiflo/app/utility/JWTTokenProvider.java:47-54 | an authenticated token with the given username as principal, null credentials, exactly the given authorities, and the request's details |
| Jwt.JwtTokenProvider.GenerateJwtToken | src/main/java/com/magadiflo/app/utility/JWTTokenProvider.java:30-39 | signs `IssuedClaims(principal, now)` with the provider's secret; under a codec that round-trips, the provider's own verifier reads back exactly those claims (its further properties are `IssuedTokenValidUntilExpiry` and `IssuedTokenClaimsRoundTrip`) |
| Jwt.IssuedTokenValidUntilExpiry | src/main/java/com/magadiflo/app/utility/JWTTokenProvider.java:56-69 | an issued token with a non-empty subject is valid at time t exactly when t ≤ issue time + lifetime |
| Jwt.IssuedTokenClaimsRoundTrip | src/main/java/com/magadiflo/app/utility/JWTTokenProvider.java:42-64 | reading an issued token back gives the principal's username and its authorities, in order |
| Jwt.VerifyIgnoresAudience | src/main/java/com/magadiflo/app/utility/JWTTokenProvider.java:79-82 | a signed token with the right issuer verifies whatever its audience |
| Jwt.VerifyRejectsOtherIssuer | src/main/java/com/magadiflo/app/utility/JWTTokenProvider.java:79-82 | a correctly signed token with another issuer, or none, fails verification |
| AuthorizationFilter.BearerToken | src/main/java/com/magadiflo/app/filter/JwtAuthorizationFilter.java:52 | prefix + token is the header: exactly the prefix's length is removed |
| AuthorizationFilter.JwtAuthorizationFilter.DoFilterInternal | src/main/java/com/magadiflo/app/filter/JwtAuthorizationFilter.java:40-69 | the status, the context, the requests passed down the chain and the escaping error are what `Decide` gives; the status changes only on OPTIONS; the chain is called once unless an error escapes |
| AuthorizationFilter.OptionsIsPreflight | src/main/java/com/magadiflo/app/filter/JwtAuthorizationFilter.java:44-45 | an OPTIONS request in any letter case is a preflight, whatever its headers |
| AuthorizationFilter.MissingBearerIsAnonymous | src/main/java/com/magadiflo/app/filter/JwtAuthorizationFilter.java:47-50 | a missing header, or one without the prefix, passes through with no context change and no token check |
| AuthorizationFilter.UnverifiableTokenAborts | src/main/java/com/magadiflo/app/filter/JwtAuthorizationFilter.java:53 | a token that fails verification aborts before the context or the chain is touched |
| AuthorizationFilter.InvalidTokenClears | src/main/java/com/magadiflo/app/filter/JwtAuthorizationFilter.java:58-65 | a verified token with an empty or missing subject (with or without `exp`), or with an `exp` before now, clears the context |
| AuthorizationFilter.ValidTokenWithExistingAuthenticationClears | src/main/java/com/magadiflo/app/filter/JwtAuthorizationFilter.java:58-65 | a valid token arriving when an authentication is present clears the context |
| AuthorizationFilter.ValidTokenInstalls | src/main/java/com/magadiflo/app/filter/JwtAuthorizationFilter.java:58-63 | a valid token with an empty context installs its subject as principal, with its authority claims in order and no credentials |
| AuthorizationFilter.IssuedTokenAuthenticates | src/main/java/com/magadiflo/app/filter/JwtAuthorizationFilter.java:52-63 | end to end: an issued token presented as prefix + token before expiry authenticates its principal with the principal's own authorities |
| LoginAttempts.AttemptCache.constructor | src/main/java/com/magadiflo/app/service/LoginAttemptService.java:39-45 | the cache starts empty, within its size bound |
| LoginAttempts.AttemptCache.EvictIfOverCapacity | src/main/java/com/magadiflo/app/service/LoginAttemptService.java:40 | after a write at most 100 entries remain; the written entry stays; other entries are kept or dropped, never altered; which ones are dropped, and whether any are dropped below 100, is left open |
| LoginAttempts.AttemptCache.Put | src/main/java/com/magadiflo/app/service/LoginAttemptService.java:61 | the key holds the value written at now; size ≤ 100; other entries are kept or evicted, never altered |
| LoginAttempts.AttemptCache.Get | src/main/java/com/magadiflo/app/service/LoginAttemptService.java:39-45 | returns the live count, or 0 for an absent or expired key; a live entry is left as it was, and otherwise a 0 is loaded and written at now |
| LoginAttempts.AttemptCache.Invalidate | src/main/java/com/magadiflo/app/service/LoginAttemptService.java:51 | removes exactly that key |
| LoginAttempts.LoginAttemptService.constructor | src/main/java/com/magadiflo/app/service/LoginAttemptService.java:37-46 | a fresh, empty cache |
| LoginAttempts.LoginAttemptService.EvictUserFromLoginAttemptCache | src/main/java/com/magadiflo/app/service/LoginAttemptService.java:50-52 | removes that username and nothing else |
| LoginAttempts.LoginAttemptService.AddUserToLoginAttemptCache | src/main/java/com/magadiflo/app/service/LoginAttemptService.java:54-62 | the user's entry becomes (count read at now) + 1, written at now; size ≤ 100; other entries are never altered |
| LoginAttempts.LoginAttemptService.HasExceededMaxAttempts | src/main/java/com/magadiflo/app/service/LoginAttemptService.java:64-71 | true exactly when the count read at now is ≥ 5; an existing live count is never changed, and an absent or expired one is loaded as 0 |
| LoginAttempts.FirstFailureStoresOne | src/main/java/com/magadiflo/app/service/LoginAttemptService.java:54-61 | a failure for an absent or expired user stores 1 |
| LoginAttempts.FailureIncrementsLiveCount | src/main/java/com/magadiflo/app/service/LoginAttemptService.java:57-61 | a failure for a live user stores its count + 1 and refreshes its write time |
| LoginAttempts.ExpiredEntryReadsAsZero | src/main/java/com/magadiflo/app/service/LoginAttemptService.java:39 | an entry written 15 minutes or more ago reads as 0, whatever its count |
| LoginAttempts.EvictedUserUnderLimit | src/main/java/com/magadiflo/app/service/LoginAttemptService.java:50-52 | after an eviction the user reads as under the limit |
| LoginAttempts.ConsecutiveFailuresCount | src/main/java/com/magadiflo/app/service/LoginAttemptService.java:54-61 | n failures, each less than 15 minutes after the previous one, add exactly n to the count the first one saw |
| LoginAttempts.FiveFailuresExceedLimit | src/main/java/com/magadiflo/app/service/LoginAttemptService.java:54-66 | five or more failures, each less than 15 minutes after the previous one, reach the limit |
| Listeners.AuthenticationFailureListener.OnAuthenticationFailure | src/main/java/com/magadiflo/app/listener/AuthenticationFailureListener.java:28-36 | a bad-credentials event with a String principal adds one attempt for that name; any other event or principal leaves the cache unchanged |
| Listeners.AuthenticationSuccessListener.OnAuthenticationSuccess | src/main/java/com/magadiflo/app/listener/AuthenticationSuccessListener.java:23-31 | a `UserPrincipal` principal has exactly its username evicted; any other principal leaves the cache unchanged |
| Listeners.FailuresThenSuccess | src/main/java/com/magadiflo/app/listener/AuthenticationSuccessListener.java:26-30 | five close-together bad-credentials failures put a user over the limit, and one success event brings it back under |
| ErrorHandlers.ForbiddenBody | src/main/java/com/magadiflo/app/filter/JwtAuthenticationEntryPoint.java:32-33 | code 403, status FORBIDDEN, reason "FORBIDDEN", the forbidden message, stamped now |
| ErrorHandlers.UnauthorizedBody | src/main/java/com/magadiflo/app/filter/JwtAccessDeniedHandler.java:32-33 | code 401, status UNAUTHORIZED, reason "UNAUTHORIZED", the access-denied message, stamped now |
| ErrorHandlers.JwtAuthenticationEntryPoint.Commence | src/main/java/com/magadiflo/app/filter/JwtAuthenticationEntryPoint.java:30-41 | JSON content type, status 403, and the forbidden body written once, whatever the request and exception |
| ErrorHandlers.JwtAccessDeniedHandler.Handle | src/main/java/com/magadiflo/app/filter/JwtAccessDeniedHandler.java:30-41 | JSON content type, status 401, and the unauthorized body written once, whatever the request and exception |
| ErrorHandlers.BodyCodeMatchesStatus | src/main/java/com/magadiflo/app/filter/JwtAuthenticationEntryPoint.java:32-35 | in both bodies the code is the value of the status |
| ExceptionHandling.CreateHttpResponse | src/main/java/com/magadiflo/app/exception/ExceptionHandling.java:167-170 | the body's status, code and upper-cased reason agree with the response status; the message and time stamp are the given ones |
| ExceptionHandling.NotFound404 | src/main/java/com/magadiflo/app/exception/ExceptionHandling.java:73-76 | 404 with "There is no mapping for this URL" |
| ExceptionHandling.Handle | src/main/java/com/magadiflo/app/exception/ExceptionHandling.java:94-165 | every exception kind gets its status and message, as in the handler table; a method-not-supported exception with a null or empty method set throws, and otherwise names the first method of the set; every response is consistent |
| ExceptionHandling.MethodNotAllowedNamesFirstDeclared | src/main/java/com/magadiflo/app/exception/ExceptionHandling.java:139-143 | the 405 message names a supported method declared no later in `HttpMethod` than any other supported method, as the `EnumSet` iterator yields it first |
| ExceptionHandling.ServerErrorsHideMessage | src/main/java/com/magadiflo/app/exception/ExceptionHandling.java:151-165 | the 500 responses do not depend on the exception's message, and the two 500 handlers differ |
| ExceptionHandling.ServerErrorMessagesFixed | src/main/java/com/magadiflo/app/exception/ExceptionHandling.java:151-165 | every 500 response carries one of the two fixed messages |
| ExceptionHandling.AccessDeniedAnsweredTwoWays | src/main/java/com/magadiflo/app/exception/ExceptionHandling.java:104-107 | access denied is 403 in the advice but 401 in the access-denied handler |
| UserService.ValidateNewUsernameAndEmail | src/main/java/com/magadiflo/app/service/impl/UserServiceImpl.java:113-149 | creating (blank current username) succeeds exactly when the username and email are free, checks the username first, and returns null; updating fails with "user not found" when the current user is missing, and on success returns that user |
| UserService.CreateRejectsTakenEmail | src/main/java/com/magadiflo/app/service/impl/UserServiceImpl.java:136-147 | a free username with a taken email fails with "Email already exists" |
| UserService.UpdateAllowsOwnNames | src/main/java/com/magadiflo/app/service/impl/UserServiceImpl.java:116-135 | a username and email that are free, or owned by the current user's id, are accepted and yield the current user |
| UserService.UpdateRejectsForeignUsername | src/main/java/com/magadiflo/app/service/impl/UserServiceImpl.java:124-127 | a username owned by another id fails with "Username already exists", before the email is looked at |
| UserService.UpdateRejectsForeignEmail | src/main/java/com/magadiflo/app/service/impl/UserServiceImpl.java:130-133 | an acceptable username with an email owned by another id fails with "Email already exists" |
| UserService.StubLookup | src/main/java/com/magadiflo/app/service/impl/UserServiceImpl.java:104-111 | the service's own finders find no username and no email |
| UserService.StubValidation | src/main/java/com/magadiflo/app/service/impl/UserServiceImpl.java:104-149 | with those finders, creating always passes and updating always fails with "user not found" |
| UserService.AsHandledException | src/main/java/com/magadiflo/app/exception/ExceptionHandling.java:119-137 | the validation exceptions are handled as user-input errors carrying their own message |
| UserService.ValidationFailuresAreBadRequests | src/main/java/com/magadiflo/app/exception/ExceptionHandling.java:119-137 | every validation failure reaches the client as a 400 with the exception's message |
| UserService.UserRepository.FindUserByUsername | src/main/java/com/magadiflo/app/repository/IUserRepository.java:8 | null exactly when no user is stored under that username; otherwise a stored user, and in a repository keyed by username the user found has the username asked for |
| UserService.UserRepository.Save | src/main/java/com/magadiflo/app/repository/IUserRepository.java:6 | the user is stored under its username and appended to the save log, and it is returned; a repository keyed by username stays so, and finding that username afterwards yields the saved user |
| UserService.UserServiceImpl.constructor | src/main/java/com/magadiflo/app/service/impl/UserServiceImpl.java:40-44 | keeps the given repository and password encoder |
| UserService.UserServiceImpl.LoadUserByUsername | src/main/java/com/magadiflo/app/service/impl/UserServiceImpl.java:51-66 | an unknown username fails with "User not found by username: …" and saves nothing; a found user gets its previous last-login date as display date and now as last-login date, is saved once, and is returned wrapped in a principal |
| UserService.UserServiceImpl.Register | src/main/java/com/magadiflo/app/service/impl/UserServiceImpl.java:69-96 | fails exactly when create-mode validation fails, and then saves nothing; otherwise it saves once and returns an active, unlocked `ROLE_USER` with that role's authorities, the given names, username and email, the encoded generated password, the generated user id, join date now, the temporary profile image URL, and no id, last-login date or last-login display date |

## Left out

- HMAC-SHA512 signing, base64url encoding and JWT parsing (section 3.2 of RFC 7518) are library calls. They are the abstract `Codec`, and the decode-after-sign property is a hypothesis (`RoundTrips`), not a proof. That a token signed with another secret fails to verify is a property of HMAC and is not stated.
- Jwt.JwtTokenProvider.IsTokenExpired: the JWT library stores `iat` and `exp` as whole seconds. The model keeps milliseconds, so expiry is not rounded down to the second.
- Jwt.JwtTokenProvider.IssuedClaims: `generateJwtToken` reads the clock twice, once for `iat` and once for `exp`. The model uses one reading for both.
- Any expiry or audience check done inside the library's own `verify` is not modelled. The verifier checks only the signature and the issuer.
- `getJWTVerifier` rethrows a verification exception with `TOKEN_CANNOT_BE_VERIFIED`. Building the verifier cannot fail in the model, so that path is absent.
- LoginAttempts.AttemptCache.EvictIfOverCapacity: Guava evicts approximately, per segment and in access order, and may evict before the total reaches 100. The model leaves open which entries other than the one just written are dropped and when, and promises only the bound of 100. It does not state the access-order policy.
- Guava's thread safety and concurrent access to the cache are not modelled. The model is sequential.
- An expired entry may stay in the model's map until it is overwritten or evicted. It reads as absent, which is what callers observe.
- The `ExecutionException` branches of `addUserToLoginAttemptCache` and `hasExceededMaxAttempts` are not modelled: the loader never throws, so they are unreachable.
- `ATTEMPT_INCREMENT + count` is Java `int` arithmetic, and the model uses unbounded naturals. Every failure rewrites the entry and restarts its 15 minutes, so the count keeps growing for as long as no two consecutive failures are 15 minutes or more apart. Nothing in this service locks the account. After 2^31 − 1 such failures the count is `Integer.MAX_VALUE` and still over the limit; the 2^31-th consecutive failure wraps the Java `int` to a negative value and `hasExceededMaxAttempts` returns false. The model keeps counting instead.
- `SecurityContextHolder` is thread-local. The model passes an explicit context object and does not model per-thread isolation.
- The servlet response's output stream, `ObjectMapper` JSON serialisation and flushing are reduced to appending the body record to the response's `written` list.
- Logging is left out everywhere.
- `Text.ToUpperCase` and `Text.EqualsIgnoreCase` map only ASCII letters. Java's locale-aware Unicode case mapping is not modelled. Every string they are applied to here (reason phrases, HTTP method names) is ASCII.
- `toUpperCase()` uses the default locale. Under a Turkish or Azerbaijani default locale, 'i' becomes 'İ', and the program answers "FORBİDDEN" and "UNAUTHORİZED". `ErrorHandlers.ForbiddenBody`, `ErrorHandlers.UnauthorizedBody` and `ExceptionHandling.Consistent` describe the program only under a non-Turkic default locale. `equalsIgnoreCase` does not depend on the locale.
- `Text.IsWhitespace` follows `Character.isWhitespace` as of current Unicode. Java 8 uses Unicode 6.2, which also counts U+180E as a space separator. The model does not.
- The signing key's bytes are not modelled. `generateJwtToken` signs with `HMAC512(secret.getBytes())`, which uses the platform's default charset. `getJWTVerifier` uses `HMAC512(secret)`, which the library encodes as UTF-8. The model uses one `secret` for both. So the round-trip clause of `Jwt.JwtTokenProvider.GenerateJwtToken` and the lemmas built on it describe the program only when both encodings give the same bytes: an ASCII secret, or UTF-8 as the default charset.
- Null fields of `User` are not modelled. `username`, `password`, `email` and `authorities` are always present in the model. In Java, a user whose `authorities` array is null makes `UserPrincipal.getAuthorities`, and therefore `generateJwtToken`, throw a `NullPointerException`. The model has no such failure.
- `new Date()`, `RandomStringUtils` (user id and password), `BCryptPasswordEncoder.encode` and `ServletUriComponentsBuilder.fromCurrentContextPath()` are parameters or fields of the model: `now`, the generated strings, the encoder function and the context path.
- The values in `SecurityConstant` are not part of this model. They are the opaque `SecurityConstants` record.
- `getUsers` in `UserServiceImpl` returns null and has no logic. It is not modelled.
- The email sending marked TODO in `register`, and `EmailService`, are I/O and are not modelled.
- `UserResource.response` builds its body without upper-casing the reason phrase. That controller is not part of this model.
- Java aliasing is not modelled: `setAuthorities(Role.ROLE_USER.getAuthorities())` shares the role's array with the user. The model copies the sequence.
- The database behind `IUserRepository` is an in-memory map keyed by username plus a log of saved users. Ids are not generated on save.
