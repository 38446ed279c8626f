/**
 * The parts of Spring's `HttpStatus` and `HttpMethod` enums the core uses: status codes of
 * section 15 of RFC 9110 with their reason phrases, and request method names.
 */
module Http {
  import opened Text

  datatype HttpStatus =
    | Ok | NoContent | BadRequest | Unauthorized | Forbidden
    | NotFound | MethodNotAllowed | InternalServerError
  {
    /** `HttpStatus.value()`: the numeric status code. */
    function Value(): int
    {
      match this
      case Ok => 200
      case NoContent => 204
      case BadRequest => 400
      case Unauthorized => 401
      case Forbidden => 403
      case NotFound => 404
      case MethodNotAllowed => 405
      case InternalServerError => 500
    }

    /** `HttpStatus.getReasonPhrase()`. */
    function ReasonPhrase(): string
    {
      match this
      case Ok => "OK"
      case NoContent => "No Content"
      case BadRequest => "Bad Request"
      case Unauthorized => "Unauthorized"
      case Forbidden => "Forbidden"
      case NotFound => "Not Found"
      case MethodNotAllowed => "Method Not Allowed"
      case InternalServerError => "Internal Server Error"
    }
  }

  datatype HttpMethod = Get | Head | Post | Put | Patch | Delete | Options | Trace
  {
    /** `HttpMethod.toString()`, the method token of the request line. */
    function Name(): string
    {
      match this
      case Get => "GET"
      case Head => "HEAD"
      case Post => "POST"
      case Put => "PUT"
      case Patch => "PATCH"
      case Delete => "DELETE"
      case Options => "OPTIONS"
      case Trace => "TRACE"
    }

    /** `HttpMethod.ordinal()`: the position of the constant in the enum's declaration. */
    function Ordinal(): (n: nat)
      ensures n < 8
    {
      match this
      case Get => 0
      case Head => 1
      case Post => 2
      case Put => 3
      case Patch => 4
      case Delete => 5
      case Options => 6
      case Trace => 7
    }
  }

  /** Distinct methods listed by increasing ordinal: the iteration order of an `EnumSet<HttpMethod>`. */
  predicate InEnumSetOrder(s: seq<HttpMethod>)
  {
    forall i, j | 0 <= i < j < |s| :: s[i].Ordinal() < s[j].Ordinal()
  }

  /** The contents of an `EnumSet<HttpMethod>`, in the order its iterator yields them. */
  type HttpMethodSet = s: seq<HttpMethod> | InEnumSetOrder(s) witness []

  /** The upper-cased reason phrases the error builders put in the `reason` field. */
  lemma UpperReasonPhrases()
    ensures ToUpperCase(Forbidden.ReasonPhrase()) == "FORBIDDEN"
    ensures ToUpperCase(Unauthorized.ReasonPhrase()) == "UNAUTHORIZED"
  {
    UpperOf("Forbidden", "FORBIDDEN");
    UpperOf("Unauthorized", "UNAUTHORIZED");
  }

  lemma UpperOf(s: string, t: string)
    requires |s| == |t|
    requires forall i | 0 <= i < |s| :: UpperChar(s[i]) == t[i]
    ensures ToUpperCase(s) == t
  {
  }
}
