/** Request and response values shared by the middleware and library modules.
    A request is reduced to its (lower-cased) header table; a response to its
    status, the fields of its JSON body and the rate-limit header values. */
module Http {

  datatype Option<+T> = None | Some(value: T) {
    function GetOr(default: T): T {
      match this
      case Some(v) => v
      case None => default
    }
  }

  /** An incoming request; header names are stored lower-cased, as
      `Headers.get` looks them up case-insensitively. */
  datatype Request = Request(headers: map<string, string>)

  /** The header is set to a non-empty value, i.e. `headers.get(name)` is truthy. */
  predicate Present(req: Request, name: string) {
    name in req.headers && req.headers[name] != ""
  }

  /** `request.headers.get(name) || fallback`: an absent header (null) and an
      empty header value are both falsy and give way to the fallback. */
  function HeaderOr(req: Request, name: string, fallback: string): string
  {
    if Present(req, name) then req.headers[name] else fallback
  }

  /** The JSON body of the responses this system builds. Absent optional
      fields are left out of the serialised object. */
  datatype Body = Body(
    error: string,
    validationErrors: Option<map<string, string>>,
    stack: Option<string>,
    success: Option<bool>)

  /** A body carrying only `{ error: message }`. */
  function ErrorBody(message: string): Body {
    Body(message, None, None, None)
  }

  /** Header values of a rate-limit denial, as the integers they render. */
  datatype Headers =
    | NoHeaders
    | RateLimitHeaders(limit: int, remaining: int, reset: int, retryAfter: int)

  datatype Response = Response(status: int, body: Body, headers: Headers)

  /** `Math.ceil(ms / 1000)` for an integral number of milliseconds: the least
      whole number of seconds covering `ms`, for negative `ms` too. */
  function CeilSeconds(ms: int): (s: int)
    ensures 1000 * (s - 1) < ms <= 1000 * s
    ensures ms >= 0 ==> s >= 0
  {
    -((-ms) / 1000)
  }
}
