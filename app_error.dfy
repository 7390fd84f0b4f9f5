/**
 * The application error record: a message, one of seven machine-readable
 * codes, an HTTP status and an optional `details` payload. The record
 * itself pairs any code with any status; only the factories in
 * `HttpErrors` bind a code to its status.
 */
module AppErrors {
  import opened Json

  /** The closed set of error codes. */
  datatype ErrorCode =
    | ValidationError
    | NotFound
    | Unauthorized
    | Forbidden
    | Conflict
    | NotImplemented
    | InternalServerError

  /** The string each code carries on the wire (the enumeration's value equals its key). */
  function CodeName(c: ErrorCode): string
  {
    match c
    case ValidationError => "VALIDATION_ERROR"
    case NotFound => "NOT_FOUND"
    case Unauthorized => "UNAUTHORIZED"
    case Forbidden => "FORBIDDEN"
    case Conflict => "CONFLICT"
    case NotImplemented => "NOT_IMPLEMENTED"
    case InternalServerError => "INTERNAL_SERVER_ERROR"
  }

  /** The wire string identifies the code: reading a code back from JSON is unambiguous. */
  lemma CodeNameInjective(c1: ErrorCode, c2: ErrorCode)
    ensures CodeName(c1) == CodeName(c2) <==> c1 == c2
  {
    if c1 != c2 {
      // The names differ in length or in a character at a fixed position.
      assert CodeName(c1) != CodeName(c2) by {
        match c1
        case ValidationError =>
        case NotFound =>
        case Unauthorized =>
        case Forbidden =>
        case Conflict =>
        case NotImplemented =>
        case InternalServerError =>
      }
    }
  }

  /** Every error has this name. */
  const ErrorName := "AppError"

  /**
   * The error record. `details` defaults to `Undefined`: an error built
   * without details has none. Fields are read-only once built.
   */
  datatype AppError = AppError(message: string, code: ErrorCode, statusCode: int, details: Value := Undefined)
  {
    function Name(): (n: string)
      ensures n == ErrorName
    {
      ErrorName
    }

    /**
     * The JSON form: exactly the five fields name, message, code,
     * statusCode and details, each equal to the stored value (details is
     * present with value `Undefined` when absent).
     */
    function ToJson(): (j: Value)
      ensures j.Obj? && j.fields.Keys == {"name", "message", "code", "statusCode", "details"}
      ensures Get(j, "name") == Str(ErrorName)
      ensures Get(j, "message") == Str(message)
      ensures Get(j, "code") == Str(CodeName(code))
      ensures Get(j, "statusCode") == Num(statusCode as real)
      ensures Get(j, "details") == details
    {
      Obj(map[
        "name" := Str(Name()),
        "message" := Str(message),
        "code" := Str(CodeName(code)),
        "statusCode" := Num(statusCode as real),
        "details" := details])
    }
  }

  /**
   * A value caught by `catch` or handed to the error response builder,
   * classified the way the layer inspects it: an `AppError`, some other
   * `Error` (with its message and stack, which may be undefined), or any
   * other value, `undefined` included.
   */
  datatype Caught =
    | AnAppError(err: AppError)
    | AnError(message: string, stack: Value)
    | NotAnError(value: Value)
}
