/**
 * `ExceptionHandling`: the controller advice that turns each exception kind into an error
 * response, plus the `/error` mapping. Every response is built by `CreateHttpResponse`, so the
 * body's code, status and upper-cased reason always agree with the response status.
 */
module ExceptionHandling {
  import opened Wrappers
  import opened Text
  import opened Http
  import opened HttpResponses
  import opened SecurityConstant
  import ErrorHandlers

  const ACCOUNT_LOCKED: string := "Your account has been locked. Please contact administration"
  const INTERNAL_SERVER_ERROR_MSG: string := "An error occurred while processing the request"
  const INCORRECT_CREDENTIALS: string := "Username / password incorrect. Please try again"
  const ACCOUNT_DISABLED: string := "Your account has been disabled. If this is an error, please contact administration"
  const ERROR_PROCESSING_FILE: string := "Error occurred while processing file"
  const NOT_ENOUGH_PERMISSION: string := "You do not have enough permission"
  const NO_MAPPING: string := "There is no mapping for this URL"

  /** `String.format(METHOD_IS_NOT_ALLOWED, method)`: the template with its one `%s` replaced by the method name. */
  function MethodIsNotAllowed(supported: HttpMethod): string
  {
    "This request method is not allowed on this endpoint. Please send a '" + supported.Name() + "' request"
  }

  /** A `ResponseEntity<HttpResponse>`: the body and the HTTP status of the response. */
  datatype ResponseEntity = ResponseEntity(body: ResponseBody, status: HttpStatus)

  /** The body agrees with the response status: same status, its code, its upper-cased reason phrase. */
  predicate Consistent(r: ResponseEntity)
  {
    && r.body.httpStatus == r.status
    && r.body.httpStatusCode == r.status.Value()
    && r.body.reason == ToUpperCase(r.status.ReasonPhrase())
  }

  /** `createHttpResponse`; `now` is the clock reading of the body's time stamp. */
  function CreateHttpResponse(status: HttpStatus, message: string, now: int): (r: ResponseEntity)
    ensures Consistent(r) && r.status == status
    ensures r.body.message == message && r.body.timeStamp == now
  {
    ResponseEntity(ResponseBody(status.Value(), status, ToUpperCase(status.ReasonPhrase()), message, now), status)
  }

  /** `notFound404`, the handler of the error path `/error`. */
  function NotFound404(now: int): (r: ResponseEntity)
    ensures Consistent(r) && r.status == NotFound && r.body.httpStatusCode == 404
    ensures r.body.message == NO_MAPPING
  {
    CreateHttpResponse(NotFound, NO_MAPPING, now)
  }

  /** The exception kinds with a handler; `OtherException` is any exception no narrower handler takes. */
  datatype HandledException =
    | DisabledException
    | BadCredentialsException
    | AccessDeniedException
    | LockedException
    | TokenExpiredException(message: string)
    | EmailExistException(message: string)
    | UsernameExistException(message: string)
    | EmailNotFoundException(message: string)
    | UserNotFoundException(message: string)
    /**
     * The supported methods that resolve to an `HttpMethod`, as the `EnumSet` the exception
     * returns iterates them (by declaration order); `None` when it carries null.
     */
    | HttpRequestMethodNotSupportedException(supportedMethods: Option<HttpMethodSet>)
    | NoResultException(message: string)
    | IOException(message: string)
    | OtherException(message: string)

  /**
   * What the method-not-supported handler itself throws: `requireNonNull` on a null set, or the
   * `IllegalArgumentException` of `EnumSet.copyOf` when no supported method resolves.
   */
  datatype HandlerError = NullPointer | IllegalArgument

  /** The exceptions answered with 400 and their own message. */
  predicate IsUserInputError(e: HandledException)
  {
    e.EmailExistException? || e.UsernameExistException? || e.EmailNotFoundException? || e.UserNotFoundException?
  }

  /** The exception handler method that takes `e`, applied at time `now`. */
  function Handle(e: HandledException, now: int): (r: Result<ResponseEntity, HandlerError>)
    ensures r.Success? ==> Consistent(r.value) && r.value.body.timeStamp == now
    ensures r.Failure? <==> e.HttpRequestMethodNotSupportedException? && (e.supportedMethods.None? || e.supportedMethods.value == [])
    ensures e.DisabledException? ==> r.value.status == BadRequest && r.value.body.message == ACCOUNT_DISABLED
    ensures e.BadCredentialsException? ==> r.value.status == BadRequest && r.value.body.message == INCORRECT_CREDENTIALS
    ensures e.AccessDeniedException? ==> r.value.status == Forbidden && r.value.body.message == NOT_ENOUGH_PERMISSION
    ensures e.LockedException? ==> r.value.status == Unauthorized && r.value.body.message == ACCOUNT_LOCKED
    ensures e.TokenExpiredException? ==> r.value.status == Unauthorized && r.value.body.message == e.message
    ensures IsUserInputError(e) ==> r.value.status == BadRequest && r.value.body.message == e.message
    ensures r.Success? && e.HttpRequestMethodNotSupportedException? ==>
      r.value.status == MethodNotAllowed && r.value.body.message == MethodIsNotAllowed(e.supportedMethods.value[0])
    ensures e.NoResultException? ==> r.value.status == NotFound && r.value.body.message == e.message
    ensures e.IOException? ==> r.value.status == InternalServerError && r.value.body.message == ERROR_PROCESSING_FILE
    ensures e.OtherException? ==> r.value.status == InternalServerError && r.value.body.message == INTERNAL_SERVER_ERROR_MSG
  {
    match e
    case DisabledException => Success(CreateHttpResponse(BadRequest, ACCOUNT_DISABLED, now))
    case BadCredentialsException => Success(CreateHttpResponse(BadRequest, INCORRECT_CREDENTIALS, now))
    case AccessDeniedException => Success(CreateHttpResponse(Forbidden, NOT_ENOUGH_PERMISSION, now))
    case LockedException => Success(CreateHttpResponse(Unauthorized, ACCOUNT_LOCKED, now))
    case TokenExpiredException(m) => Success(CreateHttpResponse(Unauthorized, m, now))
    case EmailExistException(m) => Success(CreateHttpResponse(BadRequest, m, now))
    case UsernameExistException(m) => Success(CreateHttpResponse(BadRequest, m, now))
    case EmailNotFoundException(m) => Success(CreateHttpResponse(BadRequest, m, now))
    case UserNotFoundException(m) => Success(CreateHttpResponse(BadRequest, m, now))
    case HttpRequestMethodNotSupportedException(supported) =>
      if supported.None? then Failure(NullPointer)
      else if supported.value == [] then Failure(IllegalArgument)
      else Success(CreateHttpResponse(MethodNotAllowed, MethodIsNotAllowed(supported.value[0]), now))
    case NoResultException(m) => Success(CreateHttpResponse(NotFound, m, now))
    case IOException(m) => Success(CreateHttpResponse(InternalServerError, ERROR_PROCESSING_FILE, now))
    case OtherException(m) => Success(CreateHttpResponse(InternalServerError, INTERNAL_SERVER_ERROR_MSG, now))
  }

  /**
   * The method named in a 405 message is the supported method declared first in `HttpMethod`,
   * whatever other methods the set holds.
   */
  lemma MethodNotAllowedNamesFirstDeclared(supported: HttpMethodSet, now: int)
    requires supported != []
    ensures var r := Handle(HttpRequestMethodNotSupportedException(Some(supported)), now);
      exists m | m in supported :: r == Success(CreateHttpResponse(MethodNotAllowed, MethodIsNotAllowed(m), now))
        && forall m' | m' in supported :: m.Ordinal() <= m'.Ordinal()
  {
    var m := supported[0];
    assert m in supported;
    forall m' | m' in supported
      ensures m.Ordinal() <= m'.Ordinal()
    {
      var j :| 0 <= j < |supported| && supported[j] == m';
      assert j == 0 || supported[0].Ordinal() < supported[j].Ordinal();
    }
  }

  /** A 500 body never carries the exception's own message: two such exceptions get identical responses. */
  lemma ServerErrorsHideMessage(m1: string, m2: string, now: int)
    ensures Handle(IOException(m1), now) == Handle(IOException(m2), now)
    ensures Handle(OtherException(m1), now) == Handle(OtherException(m2), now)
    ensures Handle(OtherException(m1), now).value.body.message != Handle(IOException(m2), now).value.body.message
  {
  }

  /** Every response that reports a 500 is one of the two fixed 500 messages. */
  lemma ServerErrorMessagesFixed(e: HandledException, now: int)
    requires Handle(e, now).Success? && Handle(e, now).value.status == InternalServerError
    ensures Handle(e, now).value.body.message in {ERROR_PROCESSING_FILE, INTERNAL_SERVER_ERROR_MSG}
  {
  }

  /**
   * An access-denied exception that reaches this advice is answered 403 with NOT_ENOUGH_PERMISSION,
   * while Spring Security's access-denied handler answers the same condition 401.
   */
  lemma AccessDeniedAnsweredTwoWays(constants: SecurityConstants, now: int)
    ensures Handle(AccessDeniedException, now).value.body.httpStatusCode == 403
    ensures ErrorHandlers.UnauthorizedBody(constants, now).httpStatusCode == 401
  {
  }
}
