/**
 * One factory per error kind, each binding its code to the HTTP status of
 * section 15 of RFC 9110 and supplying a default message where the caller
 * may omit one.
 */
module HttpErrors {
  import opened Json
  import opened AppErrors

  /** The status each code is paired with by its factory. */
  function CanonicalStatus(c: ErrorCode): (s: int)
    ensures c == InternalServerError || c == ErrorCode.NotImplemented <==> 500 <= s <= 599
    ensures 400 <= s <= 599
  {
    match c
    case ValidationError => 400
    case Unauthorized => 401
    case Forbidden => 403
    case NotFound => 404
    case Conflict => 409
    case InternalServerError => 500
    case NotImplemented => 501
  }

  /** Distinct codes have distinct statuses: the status alone names the kind. */
  lemma CanonicalStatusInjective(c1: ErrorCode, c2: ErrorCode)
    ensures CanonicalStatus(c1) == CanonicalStatus(c2) <==> c1 == c2
  {
  }

  const DefaultUnauthorizedMessage := "Authentication required"
  const DefaultForbiddenMessage := "Access denied"
  const DefaultNotImplementedMessage := "Not implemented yet"
  const DefaultInternalMessage := "An unexpected error occurred"

  /** 400: invalid input; the only factory that carries details. */
  function BadRequest(message: string, details: Value := Undefined): (e: AppError)
    ensures e.code == ValidationError && e.statusCode == CanonicalStatus(e.code) == 400
    ensures e.message == message && e.details == details
  {
    AppError(message, ValidationError, 400, details)
  }

  /** 401: authentication required or invalid. */
  function Unauthorized(message: string := DefaultUnauthorizedMessage): (e: AppError)
    ensures e.code == ErrorCode.Unauthorized && e.statusCode == CanonicalStatus(e.code) == 401
    ensures e.message == message && e.details == Undefined
  {
    AppError(message, ErrorCode.Unauthorized, 401)
  }

  /** 403: authenticated without the required rights. */
  function Forbidden(message: string := DefaultForbiddenMessage): (e: AppError)
    ensures e.code == ErrorCode.Forbidden && e.statusCode == CanonicalStatus(e.code) == 403
    ensures e.message == message && e.details == Undefined
  {
    AppError(message, ErrorCode.Forbidden, 403)
  }

  /** 404: the named resource does not exist; the message is "<resource> not found". */
  function NotFound(resource: string): (e: AppError)
    ensures e.code == ErrorCode.NotFound && e.statusCode == CanonicalStatus(e.code) == 404
    ensures |e.message| == |resource| + 10
    ensures e.message[..|resource|] == resource && e.message[|resource|..] == " not found"
    ensures e.details == Undefined
  {
    AppError(resource + " not found", ErrorCode.NotFound, 404)
  }

  /** 409: a conflict with the current state, such as a duplicate. */
  function Conflict(message: string): (e: AppError)
    ensures e.code == ErrorCode.Conflict && e.statusCode == CanonicalStatus(e.code) == 409
    ensures e.message == message && e.details == Undefined
  {
    AppError(message, ErrorCode.Conflict, 409)
  }

  /** 501: an endpoint that is planned but not written. */
  function NotImplemented(message: string := DefaultNotImplementedMessage): (e: AppError)
    ensures e.code == ErrorCode.NotImplemented && e.statusCode == CanonicalStatus(e.code) == 501
    ensures e.message == message && e.details == Undefined
  {
    AppError(message, ErrorCode.NotImplemented, 501)
  }

  /** 500: an unexpected server failure. */
  function InternalServer(message: string := DefaultInternalMessage): (e: AppError)
    ensures e.code == InternalServerError && e.statusCode == CanonicalStatus(e.code) == 500
    ensures e.message == message && e.details == Undefined
  {
    AppError(message, InternalServerError, 500)
  }

  /**
   * The factory for a code, given the caller's text (the message, or the
   * resource name for `NotFound`). Every factory yields its own code with
   * the canonical status, and only `BadRequest` can carry details.
   */
  function Make(c: ErrorCode, text: string): (e: AppError)
    ensures e.code == c && e.statusCode == CanonicalStatus(c)
    ensures e.details == Undefined
    ensures c != ErrorCode.NotFound ==> e.message == text
  {
    match c
    case ValidationError => BadRequest(text)
    case Unauthorized => Unauthorized(text)
    case Forbidden => Forbidden(text)
    case NotFound => NotFound(text)
    case Conflict => Conflict(text)
    case NotImplemented => NotImplemented(text)
    case InternalServerError => InternalServer(text)
  }

  /** Omitting the message gives the documented default. */
  lemma DefaultMessages()
    ensures Unauthorized().message == "Authentication required"
    ensures Forbidden().message == "Access denied"
    ensures NotImplemented().message == "Not implemented yet"
    ensures InternalServer().message == "An unexpected error occurred"
    ensures NotFound("Character").message == "Character not found"
  {
  }
}
