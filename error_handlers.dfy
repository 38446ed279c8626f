/**
 * The two Spring Security error responders: the authentication entry point (no or invalid
 * credentials, answered with 403) and the access-denied handler (answered with 401).
 */
module ErrorHandlers {
  import opened Wrappers
  import opened Text
  import opened Http
  import opened HttpResponses
  import opened SecurityConstant
  import opened Servlet

  /** The body `commence` writes. */
  function ForbiddenBody(constants: SecurityConstants, now: int): (b: ResponseBody)
    ensures b.httpStatusCode == 403 && b.httpStatus == Forbidden && b.reason == "FORBIDDEN"
    ensures b.message == constants.forbiddenMessage && b.timeStamp == now
  {
    UpperReasonPhrases();
    ResponseBody(Forbidden.Value(), Forbidden, ToUpperCase(Forbidden.ReasonPhrase()), constants.forbiddenMessage, now)
  }

  /** The body `handle` writes. */
  function UnauthorizedBody(constants: SecurityConstants, now: int): (b: ResponseBody)
    ensures b.httpStatusCode == 401 && b.httpStatus == Unauthorized && b.reason == "UNAUTHORIZED"
    ensures b.message == constants.accessDeniedMessage && b.timeStamp == now
  {
    UpperReasonPhrases();
    ResponseBody(Unauthorized.Value(), Unauthorized, ToUpperCase(Unauthorized.ReasonPhrase()), constants.accessDeniedMessage, now)
  }

  /** Why authentication failed; the entry point's answer does not depend on it. */
  datatype AuthenticationException = InsufficientAuthentication | BadCredentials | CredentialsExpired | OtherAuthentication

  /** Why access was denied; the handler's answer does not depend on it. */
  datatype AccessDeniedException = AccessDenied(message: string)

  class JwtAuthenticationEntryPoint {
    const constants: SecurityConstants

    constructor (constants: SecurityConstants)
      ensures this.constants == constants
    {
      this.constants := constants;
    }

    /** JSON content type, status 403, and the forbidden body written once; the request and the exception are not consulted. */
    method Commence(request: Request, response: ServletResponse, exception: AuthenticationException, now: int)
      modifies response
      ensures response.contentType == Some(APPLICATION_JSON_VALUE)
      ensures response.status == 403 && response.written == old(response.written) + [ForbiddenBody(constants, now)]
    {
      var httpResponse := new HttpResponse(Forbidden.Value(), Forbidden,
        ToUpperCase(Forbidden.ReasonPhrase()), constants.forbiddenMessage, now);
      response.SetContentType(APPLICATION_JSON_VALUE);
      response.SetStatus(Forbidden.Value());
      response.Write(httpResponse.Body());
    }
  }

  class JwtAccessDeniedHandler {
    const constants: SecurityConstants

    constructor (constants: SecurityConstants)
      ensures this.constants == constants
    {
      this.constants := constants;
    }

    /** JSON content type, status 401, and the unauthorized body written once; the request and the exception are not consulted. */
    method Handle(request: Request, response: ServletResponse, exception: AccessDeniedException, now: int)
      modifies response
      ensures response.contentType == Some(APPLICATION_JSON_VALUE)
      ensures response.status == 401 && response.written == old(response.written) + [UnauthorizedBody(constants, now)]
    {
      var httpResponse := new HttpResponse(Unauthorized.Value(), Unauthorized,
        ToUpperCase(Unauthorized.ReasonPhrase()), constants.accessDeniedMessage, now);
      response.SetContentType(APPLICATION_JSON_VALUE);
      response.SetStatus(Unauthorized.Value());
      response.Write(httpResponse.Body());
    }
  }

  /** Both responders put in the body the same code they set as the response status. */
  lemma BodyCodeMatchesStatus(constants: SecurityConstants, now: int)
    ensures ForbiddenBody(constants, now).httpStatusCode == ForbiddenBody(constants, now).httpStatus.Value()
    ensures UnauthorizedBody(constants, now).httpStatusCode == UnauthorizedBody(constants, now).httpStatus.Value()
  {
  }
}
