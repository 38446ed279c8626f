/** The servlet objects the filter and the error handlers read and write. */
module Servlet {
  import opened Wrappers
  import opened HttpResponses

  /** The parts of an `HttpServletRequest` the core reads; `authorization` is the `Authorization` header. */
  datatype Request = Request(
    httpMethod: string,
    authorization: Option<string>,
    remoteAddress: string,
    sessionId: Option<string>)

  const APPLICATION_JSON_VALUE: string := "application/json"

  /** An `HttpServletResponse`: its status, content type, and the bodies written to its output stream. */
  class ServletResponse {
    var status: int
    var contentType: Option<string>
    var written: seq<ResponseBody>

    /** A fresh response: status 200, no content type, nothing written. */
    constructor ()
      ensures status == 200 && contentType == None && written == []
    {
      status, contentType, written := 200, None, [];
    }

    method SetStatus(code: int)
      modifies this
      ensures status == code && contentType == old(contentType) && written == old(written)
    {
      status := code;
    }

    method SetContentType(t: string)
      modifies this
      ensures contentType == Some(t) && status == old(status) && written == old(written)
    {
      contentType := Some(t);
    }

    /** `ObjectMapper.writeValue` to the output stream, then `flush`. */
    method Write(body: ResponseBody)
      modifies this
      ensures written == old(written) + [body]
      ensures status == old(status) && contentType == old(contentType)
    {
      written := written + [body];
    }
  }

  /** The rest of the filter chain; it records every request passed on to it. */
  class FilterChain {
    var passed: seq<Request>

    constructor ()
      ensures passed == []
    {
      passed := [];
    }

    method DoFilter(request: Request)
      modifies this
      ensures passed == old(passed) + [request]
    {
      passed := passed + [request];
    }
  }
}
