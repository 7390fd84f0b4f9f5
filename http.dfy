/**
 * What a route handler receives and what it produces. The raw body is
 * already classified by the JSON parser the request delegates to; the
 * handler either returns a response or throws.
 */
module Http {
  import opened Json
  import opened AppErrors
  import opened ApiResponse

  /** `await req.json()`: a parsed value, or a syntax error. */
  datatype BodyParse = Malformed | Parsed(value: Value)

  /**
   * What the wrappers and the route read of a request: its headers (names
   * stored lower-case) and its body. The method and path are read only by
   * the authorization rule, which takes them as plain strings.
   */
  datatype Request = Request(headers: map<string, string>, body: BodyParse)

  /** How a handler ends: it returns a response or throws a value. */
  datatype HandlerOutcome = Returned(response: Response) | Threw(thrown: Caught)
}
