/**
 * `withErrorHandler(handler)`: the outermost wrapper of every route. A
 * handler that returns is passed through; whatever it throws becomes an
 * error envelope. The response constructor's own status check is not
 * modelled: an `AppError` built directly with a status it refuses makes
 * `error()` throw in the source, and that exception leaves the wrapper. Server-side logging
 * is not modelled.
 */
module ErrorMiddleware {
  import opened Wrappers
  import opened Json
  import opened AppErrors
  import opened HttpErrors
  import opened ApiResponse
  import opened Http

  type RouteHandler = Request -> HandlerOutcome

  const RequestIdHeader := "x-request-id"
  const Production := "production"

  /** The correlation id: the `x-request-id` header when present. */
  function RequestId(req: Request): (id: Option<string>)
    ensures id.Some? <==> RequestIdHeader in req.headers
    ensures id.Some? ==> id.value == req.headers[RequestIdHeader]
  {
    if RequestIdHeader in req.headers then Some(req.headers[RequestIdHeader]) else None
  }

  /** Details for an unexpected `Error`: its stack and message, except in production. */
  function ServerErrorDetails(nodeEnv: Option<string>, message: string, stack: Value): (d: Value)
    ensures nodeEnv == Some(Production) ==> d == Undefined
    ensures nodeEnv != Some(Production) ==>
      d.Obj? && d.fields.Keys == {"stack", "message"} && Get(d, "stack") == stack && Get(d, "message") == Str(message)
  {
    if nodeEnv != Some(Production) then Obj(map["stack" := stack, "message" := Str(message)]) else Undefined
  }

  /** `nodeEnv` is the value of the `NODE_ENV` environment variable. */
  function WithErrorHandler(handler: RouteHandler, req: Request, nodeEnv: Option<string>, now: string): (r: Response)
    // Returned normally: the same response, untouched.
    ensures handler(req).Returned? ==> r == handler(req).response
    // Threw: always a failed, consistent envelope carrying the request id.
    ensures handler(req).Threw? ==>
      && Consistent(r) && !r.body.success && r.body.data == Null
      && r.body.meta.requestId == RequestId(req)
    // A thrown AppError is reported as it is.
    ensures handler(req).Threw? && handler(req).thrown.AnAppError? ==>
      r == Error(now, handler(req).thrown, RequestId(req))
    // A thrown Error becomes a 500 whose details depend on the environment.
    ensures handler(req).Threw? && handler(req).thrown.AnError? ==>
      && r.status == 500
      && r.body.message == DefaultInternalMessage
      && r.body.error == Some(ErrorInfo(InternalServerError,
           ServerErrorDetails(nodeEnv, handler(req).thrown.message, handler(req).thrown.stack)))
    // Any other thrown value: the generic 500 of `error(undefined)`.
    ensures handler(req).Threw? && handler(req).thrown.NotAnError? ==>
      r == Error(now, NotAnError(Undefined), RequestId(req))
  {
    var requestId := RequestId(req);
    match handler(req)
    case Returned(response) => response
    case Threw(AnAppError(e)) => Error(now, AnAppError(e), requestId)
    case Threw(AnError(message, stack)) =>
      var serverError := AppError(DefaultInternalMessage, InternalServerError, 500, ServerErrorDetails(nodeEnv, message, stack));
      Error(now, AnAppError(serverError), requestId)
    case Threw(NotAnError(_)) => Error(now, NotAnError(Undefined), requestId)
  }

  /** In production an unexpected `Error` leaks neither its stack nor its message. */
  lemma ProductionHidesErrorDetails(handler: RouteHandler, req: Request, now: string)
    requires handler(req).Threw? && handler(req).thrown.AnError?
    ensures WithErrorHandler(handler, req, Some(Production), now) == Error(now, NotAnError(Undefined), RequestId(req))
  {
  }

  /** A thrown factory error reaches the client with its code and that code's canonical status. */
  lemma ThrownFactoryErrorStatus(handler: RouteHandler, req: Request, nodeEnv: Option<string>, now: string, c: ErrorCode, text: string)
    requires handler(req) == Threw(AnAppError(Make(c, text)))
    ensures var r := WithErrorHandler(handler, req, nodeEnv, now);
      r.status == CanonicalStatus(c) && r.body.error.Some? && r.body.error.value.code == c
  {
  }
}
