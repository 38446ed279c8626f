/**
 * The uniform JSON body every error path sends: the mutable `HttpResponse` record, and the
 * value (`ResponseBody`) its JSON serialisation carries once all five fields are set.
 * Java's `null` in a field is `None`; dates are integer milliseconds.
 */
module HttpResponses {
  import opened Wrappers
  import opened Http

  /** What a fully built `HttpResponse` serialises to. */
  datatype ResponseBody = ResponseBody(
    httpStatusCode: int,
    httpStatus: HttpStatus,
    reason: string,
    message: string,
    timeStamp: int)

  class HttpResponse {
    var httpStatusCode: int
    var httpStatus: Option<HttpStatus>
    var reason: Option<string>
    var message: Option<string>
    var timeStamp: Option<int>

    /** The no-argument constructor: every field keeps Java's default (0 or null). */
    constructor Empty()
      ensures httpStatusCode == 0 && httpStatus == None && reason == None
      ensures message == None && timeStamp == None
    {
      httpStatusCode, httpStatus, reason, message, timeStamp := 0, None, None, None, None;
    }

    /** The four-argument constructor; `now` is the clock reading behind `new Date()`. */
    constructor (httpStatusCode: int, httpStatus: HttpStatus, reason: string, message: string, now: int)
      ensures Complete()
      ensures Body() == ResponseBody(httpStatusCode, httpStatus, reason, message, now)
    {
      this.httpStatusCode := httpStatusCode;
      this.httpStatus := Some(httpStatus);
      this.reason := Some(reason);
      this.message := Some(message);
      this.timeStamp := Some(now);
    }

    /** Every reference-typed field is non-null. */
    predicate Complete()
      reads this
    {
      httpStatus.Some? && reason.Some? && message.Some? && timeStamp.Some?
    }

    /** The serialised body of a complete record. */
    function Body(): (b: ResponseBody)
      reads this
      requires Complete()
      ensures b.httpStatusCode == GetHttpStatusCode() && Some(b.httpStatus) == GetHttpStatus()
      ensures Some(b.reason) == GetReason() && Some(b.message) == GetMessage()
      ensures Some(b.timeStamp) == GetTimeStamp()
    {
      ResponseBody(httpStatusCode, httpStatus.value, reason.value, message.value, timeStamp.value)
    }

    function GetHttpStatusCode(): int reads this { httpStatusCode }
    function GetHttpStatus(): Option<HttpStatus> reads this { httpStatus }
    function GetReason(): Option<string> reads this { reason }
    function GetMessage(): Option<string> reads this { message }
    function GetTimeStamp(): Option<int> reads this { timeStamp }

    method SetHttpStatusCode(httpStatusCode: int)
      modifies this
      ensures GetHttpStatusCode() == httpStatusCode
      ensures httpStatus == old(httpStatus) && reason == old(reason)
      ensures message == old(message) && timeStamp == old(timeStamp)
    {
      this.httpStatusCode := httpStatusCode;
    }

    method SetHttpStatus(httpStatus: Option<HttpStatus>)
      modifies this
      ensures GetHttpStatus() == httpStatus
      ensures httpStatusCode == old(httpStatusCode) && reason == old(reason)
      ensures message == old(message) && timeStamp == old(timeStamp)
    {
      this.httpStatus := httpStatus;
    }

    method SetReason(reason: Option<string>)
      modifies this
      ensures GetReason() == reason
      ensures httpStatusCode == old(httpStatusCode) && httpStatus == old(httpStatus)
      ensures message == old(message) && timeStamp == old(timeStamp)
    {
      this.reason := reason;
    }

    method SetMessage(message: Option<string>)
      modifies this
      ensures GetMessage() == message
      ensures httpStatusCode == old(httpStatusCode) && httpStatus == old(httpStatus)
      ensures reason == old(reason) && timeStamp == old(timeStamp)
    {
      this.message := message;
    }

    method SetTimeStamp(timeStamp: Option<int>)
      modifies this
      ensures GetTimeStamp() == timeStamp
      ensures httpStatusCode == old(httpStatusCode) && httpStatus == old(httpStatus)
      ensures reason == old(reason) && message == old(message)
    {
      this.timeStamp := timeStamp;
    }
  }
}
