/**
 * POST /api/auth/register: the error handler around the validation
 * pipeline around a handler that drops `confirmPassword`, registers the
 * user and answers 201. The store is the snapshot the handler sees.
 */
module RegisterRoute {
  import opened Wrappers
  import opened Json
  import opened AppErrors
  import opened ApiResponse
  import opened Zod
  import opened Http
  import opened ValidationMiddleware
  import opened ErrorMiddleware
  import opened AuthSchemas
  import opened AuthService

  const CreatedMessage := "Compte créé avec succès"

  /** The public user as response data: exactly id, username and createdAt. */
  function PublicJson(u: UserPublic): (v: Value)
    ensures v.Obj? && v.fields.Keys == {"id", "username", "createdAt"}
  {
    Obj(map["id" := Str(u.id), "username" := Str(u.username), "createdAt" := Str(u.createdAt)])
  }

  function StringOr(v: Value): (s: string)
  {
    if v.Str? then v.s else ""
  }

  /** The validated body without `confirmPassword`. */
  function InputOf(data: Value): (input: RegisterInput)
  {
    RegisterInput(StringOr(Get(data, "username")), StringOr(Get(data, "password")))
  }

  /**
   * The route's validated handler over a store holding `users`. The
   * database stamps the record with `dbTime`; the response envelope reads
   * the clock afterwards, as `now`.
   */
  function Handler(users: map<string, User>, hash: Hasher, id: string, dbTime: string, now: string): (h: ValidatedHandler)
  {
    (req: Request, ctx: ValidationContext) =>
      match Register(users, InputOf(ctx.data), hash, id, dbTime).1
      case Registered(u) => Returned(Created(now, PublicJson(u), CreatedMessage))
      case Rejected(e) => Threw(AnAppError(e))
  }

  /**
   * The response to a POST on a store holding `users`; `dbTime` is the
   * database's insertion time and `now` the envelope's clock.
   */
  function Post(users: map<string, User>, hash: Hasher, id: string, dbTime: string, now: string, nodeEnv: Option<string>, req: Request): (r: Response)
  {
    WithErrorHandler(q => WithValidation(ParseRegister, Handler(users, hash, id, dbTime, now), q, now), req, nodeEnv, now)
  }

  /**
   * A body that does not parse or fails the schema is answered 400
   * VALIDATION_ERROR. The validation layer builds that response without
   * the request id, and the error handler passes it through, so the id is
   * absent even when the header carries one.
   */
  lemma PostRejectsInvalid(users: map<string, User>, hash: Hasher, id: string, dbTime: string, now: string, nodeEnv: Option<string>, req: Request)
    requires req.body.Malformed? || !RegisterAccepts(req.body.value)
    ensures var r := Post(users, hash, id, dbTime, now, nodeEnv, req);
      && r.status == 400 && !r.body.success
      && r.body.error.Some? && r.body.error.value.code == ValidationError
      && r.body.meta.requestId.None?
  {
    if req.body.Parsed? {
      ParseRegisterAccepts(req.body.value);
    }
  }

  /** A valid body with a taken username is answered 409 CONFLICT, carrying the request id. */
  lemma PostConflict(users: map<string, User>, hash: Hasher, id: string, dbTime: string, now: string, nodeEnv: Option<string>, req: Request)
    requires req.body.Parsed? && RegisterAccepts(req.body.value)
    requires Get(req.body.value, "username").s in users
    ensures var r := Post(users, hash, id, dbTime, now, nodeEnv, req);
      && r.status == 409 && !r.body.success
      && r.body.error == Some(ErrorInfo(ErrorCode.Conflict, Undefined))
      && r.body.message == UsernameTaken
      && r.body.meta.requestId == RequestId(req)
  {
    ParseRegisterAccepts(req.body.value);
  }

  /** A valid body with a fresh username is answered 201 with the new user's public fields. */
  lemma PostCreates(users: map<string, User>, hash: Hasher, id: string, dbTime: string, now: string, nodeEnv: Option<string>, req: Request)
    requires req.body.Parsed? && RegisterAccepts(req.body.value)
    requires Get(req.body.value, "username").s !in users
    ensures var r := Post(users, hash, id, dbTime, now, nodeEnv, req);
      && r.status == 201 && r.body.success && r.body.message == CreatedMessage
      && r.body.data == PublicJson(UserPublic(id, Get(req.body.value, "username").s, dbTime))
      && r.body.meta.timestamp == now
      && "password" !in r.body.data.fields
  {
    ParseRegisterAccepts(req.body.value);
  }
}
