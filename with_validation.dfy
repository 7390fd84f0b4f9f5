/**
 * `withValidation(schema, handler)`: parse the body, validate it, and only
 * then call the handler with the validated data. Each stage that fails
 * answers 400 itself and the later stages do not run.
 */
module ValidationMiddleware {
  import opened Wrappers
  import opened Json
  import opened AppErrors
  import opened HttpErrors
  import opened ApiResponse
  import opened Zod
  import opened Http

  /** What the wrapped handler receives besides the request. */
  datatype ValidationContext = ValidationContext(data: Value)

  type Schema = Value -> SchemaResult
  type ValidatedHandler = (Request, ValidationContext) -> HandlerOutcome

  const InvalidJsonMessage := "Invalid JSON body"
  const ValidationFailedMessage := "Validation failed"

  /** The stage at which a request stops: one of exactly three. */
  datatype Gate = RejectMalformed | RejectInvalid(issues: Issues) | Admit(data: Value)

  function Classify(schema: Schema, req: Request): (g: Gate)
    ensures g.RejectMalformed? <==> req.body.Malformed?
    ensures g.RejectInvalid? <==> req.body.Parsed? && schema(req.body.value).Invalid?
    ensures g.Admit? <==> req.body.Parsed? && schema(req.body.value).Valid?
    ensures g.RejectInvalid? ==> g.issues == schema(req.body.value).issues
    ensures g.Admit? ==> g.data == schema(req.body.value).data
  {
    match req.body
    case Malformed => RejectMalformed
    case Parsed(body) =>
      match schema(body)
      case Invalid(issues) => RejectInvalid(issues)
      case Valid(data) => Admit(data)
  }

  function WithValidation(schema: Schema, handler: ValidatedHandler, req: Request, now: string): (o: HandlerOutcome)
    // A malformed body: 400 "Invalid JSON body", no request id.
    ensures req.body.Malformed? ==>
      o == Returned(Error(now, AnAppError(BadRequest(InvalidJsonMessage))))
    // A body the schema rejects: 400 "Validation failed" carrying the flattened issues.
    ensures req.body.Parsed? && schema(req.body.value).Invalid? ==>
      o == Returned(Error(now, AnAppError(BadRequest(ValidationFailedMessage, Flatten(schema(req.body.value).issues)))))
    // A valid body: the handler's own outcome, for the original request and the validated data.
    ensures req.body.Parsed? && schema(req.body.value).Valid? ==>
      o == handler(req, ValidationContext(schema(req.body.value).data))
  {
    match Classify(schema, req)
    case RejectMalformed => Returned(Error(now, AnAppError(BadRequest(InvalidJsonMessage))))
    case RejectInvalid(issues) => Returned(Error(now, AnAppError(BadRequest(ValidationFailedMessage, Flatten(issues)))))
    case Admit(data) => handler(req, ValidationContext(data))
  }

  /**
   * A rejected request never reaches the handler: whichever handler is
   * wrapped, the outcome is the same 400 response, without a request id.
   */
  lemma RejectionIgnoresHandler(schema: Schema, h1: ValidatedHandler, h2: ValidatedHandler, req: Request, now: string)
    requires !Classify(schema, req).Admit?
    ensures WithValidation(schema, h1, req, now) == WithValidation(schema, h2, req, now)
    ensures var o := WithValidation(schema, h1, req, now);
      && o.Returned? && o.response.status == 400
      && o.response.body.error.Some? && o.response.body.error.value.code == ValidationError
      && o.response.body.meta.requestId.None?
  {
  }

  /** An admitted request is decided by the handler alone: its outcome is passed through unchanged. */
  lemma AdmissionDefersToHandler(schema: Schema, handler: ValidatedHandler, req: Request, now: string)
    requires Classify(schema, req).Admit?
    ensures WithValidation(schema, handler, req, now) == handler(req, ValidationContext(Classify(schema, req).data))
  {
  }

  /** The field errors of a rejected body reach the client as `error.details.fieldErrors`. */
  lemma FieldErrorsReachClient(schema: Schema, handler: ValidatedHandler, req: Request, now: string, field: string)
    requires req.body.Parsed? && schema(req.body.value).Invalid?
    requires field in schema(req.body.value).issues.fieldErrors
    ensures var o := WithValidation(schema, handler, req, now);
      && o.Returned? && o.response.body.error.Some?
      && field in Get(o.response.body.error.value.details, "fieldErrors").fields
  {
  }
}
