# Request/response layer of the D&D AI narrative server, in Dafny

This project models the server-side API layer of the narrative role-playing
game backend: the typed error taxonomy (`AppError` and its seven
factories), the uniform JSON response envelope and its four builders, the
two middleware combinators (`withValidation` and `withErrorHandler`), the
request-body schemas for registration, login, characters and rooms, the
route-authorization callback, and the user-registration service, together
with the composition of these pieces into the registration endpoint.

Everything the layer does is sequential and deterministic once its
collaborators are parameters:

- the clock is a `now: string` argument (the ISO-8601 timestamp);
- `req.json()` is a `BodyParse` value (`Malformed` or `Parsed(v)`);
- a route handler is a function returning a `HandlerOutcome`
  (`Returned(response)` or `Threw(caught)`), where a thrown value is
  classified as the code classifies it with `instanceof`: an `AppError`, another
  `Error` (message and stack), or any other value;
- `NODE_ENV` is an `Option<string>` argument;
- bcrypt is a function parameter `(password, rounds) -> hash`;
- the database's generated id and timestamps are method parameters;
- JavaScript values are `Json.Value`, with `Undefined` distinct from `Null`
  so that "details absent" is exactly `details: undefined`.

Files, one module each: `wrappers.dfy` (Option), `json.dfy` (values),
`app_error.dfy`, `http_error.dfy`, `api_response.dfy`, `zod.dfy` (what the
layer needs of the schema validator: success or flattened issues),
`http.dfy` (request and handler outcome), `with_validation.dfy`,
`with_error_handler.dfy`, `auth_schemas.dfy`, `character_schema.dfy`,
`room_schema.dfy`, `auth_config.dfy`, `auth_service.dfy` (a `UserStore`
class whose `users` map the registration method updates in place) and
`register_route.dfy`.

Three consequences of the code worth stating outright:

- `error()` sends the record's `statusCode`, and the `AppError` constructor
  accepts any status with any code, so a failed envelope can go out with
  status 200 (`ApiResponse.StatusFollowsRecordNotCode`). Only errors made by
  the factories get their canonical status (`ApiResponse.FactoryErrorStatus`).
- `withValidation` returns its 400 response itself and `withErrorHandler`
  passes returned responses through, so these 400s never carry the request
  id (`RegisterRoute.PostRejectsInvalid`).
- The validator's `flatten` keeps every message of a field, and so does the
  model (`AuthSchemas.UsernameIssues`).

## Model

| member | source | states |
|---|---|---|
| AppErrors.CodeNameInjective | d-d_ai_narrative/lib/api/errors/AppError.ts:1-11 | the seven code strings are pairwise distinct, so the wire string identifies the code |
| AppErrors.AppError.Name | d-d_ai_narrative/lib/api/errors/AppError.ts:25 | every error's name is "AppError" |
| AppErrors.AppError.ToJson | d-d_ai_narrative/lib/api/errors/AppError.ts:33-41 | the JSON form has exactly the keys name, message, code, statusCode, details, each equal to the stored value; details is undefined when none was given |
| HttpErrors.CanonicalStatus | d-d_ai_narrative/lib/api/errors/HttpError.ts:4-36 | every factory status is a 4xx or 5xx, and it is 5xx exactly for INTERNAL_SERVER_ERROR and NOT_IMPLEMENTED |
| HttpErrors.CanonicalStatusInjective | d-d_ai_narrative/lib/api/errors/HttpError.ts:4-36 | distinct codes get distinct statuses |
| HttpErrors.BadRequest | d-d_ai_narrative/lib/api/errors/HttpError.ts:4-6 | VALIDATION_ERROR with 400, the given message, and the given details unchanged |
| HttpErrors.Unauthorized | d-d_ai_narrative/lib/api/errors/HttpError.ts:9-11 | UNAUTHORIZED with 401, the given message or "Authentication required", no details |
| HttpErrors.Forbidden | d-d_ai_narrative/lib/api/errors/HttpError.ts:14-16 | FORBIDDEN with 403, the given message or "Access denied", no details |
| HttpErrors.NotFound | d-d_ai_narrative/lib/api/errors/HttpError.ts:19-21 | NOT_FOUND with 404, message is the resource followed by " not found", no details |
| HttpErrors.Conflict | d-d_ai_narrative/lib/api/errors/HttpError.ts:24-26 | CONFLICT with 409, the given message, no details |
| HttpErrors.NotImplemented | d-d_ai_narrative/lib/api/errors/HttpError.ts:29-31 | NOT_IMPLEMENTED with 501, the given message or "Not implemented yet", no details |
| HttpErrors.InternalServer | d-d_ai_narrative/lib/api/errors/HttpError.ts:34-36 | INTERNAL_SERVER_ERROR with 500, the given message or "An unexpected error occurred", no details |
| HttpErrors.Make | d-d_ai_narrative/lib/api/errors/HttpError.ts:4-36 | each of the seven factories yields its own code with that code's canonical status and no details |
| HttpErrors.DefaultMessages | d-d_ai_narrative/lib/api/errors/errors.test.ts:82-145 | the default messages of unauthorized, forbidden, notImplemented and internalServer, and "Character not found" |
| ApiResponse.BuildMeta | d-d_ai_narrative/lib/api/response/ApiResponse.ts:23-28 | the timestamp is the clock unless the caller supplies one, which overrides it; requestId and pagination are the caller's |
| ApiResponse.Success | d-d_ai_narrative/lib/api/response/ApiResponse.ts:30-39 | status 200, success true, error null, the given data and message (default "Success"), and meta built from the clock with the caller's fields laid over it, so a supplied timestamp replaces the clock |
| ApiResponse.Created | d-d_ai_narrative/lib/api/response/ApiResponse.ts:41-49 | status 201, success true, error null, the given data and message (default "Resource created successfully"), meta with only the timestamp |
| ApiResponse.Error | d-d_ai_narrative/lib/api/response/ApiResponse.ts:51-67 | success false and data null; an AppError gives its status, message, code and details; any other value gives 500, INTERNAL_SERVER_ERROR and the default internal message; the request id goes into meta |
| ApiResponse.CeilDivIsCeiling | d-d_ai_narrative/lib/api/response/ApiResponse.ts:75 | the computed page count k satisfies (k-1)*limit < total <= k*limit, i.e. it is ceil(total/limit) |
| ApiResponse.CeilingUnique | d-d_ai_narrative/lib/api/response/ApiResponse.ts:75 | that characterisation has only one solution |
| ApiResponse.Paginated | d-d_ai_narrative/lib/api/response/ApiResponse.ts:69-87 | status 200, success true, data is the items, message "Success", pagination holds page, limit, total and ceil(total/limit) |
| ApiResponse.PaginatedExample | d-d_ai_narrative/lib/api/response/ApiResponse.test.ts:116-125 | 55 items in pages of 20 give 3 pages |
| ApiResponse.FactoryErrorStatus | d-d_ai_narrative/lib/api/response/ApiResponse.ts:55-65 | an error from any factory is sent with its code and that code's canonical status |
| ApiResponse.FactoryStatusSendable | d-d_ai_narrative/lib/api/errors/HttpError.ts:4-36 | every factory status lies in 400..599 and is one the response constructor accepts with a body, so `error()` on a factory error never fails on its status |
| ApiResponse.StatusFollowsRecordNotCode | d-d_ai_narrative/lib/api/errors/AppError.ts:18-29 | the constructor does not pair code and status: a NOT_FOUND record with status 200 is sent as a failed envelope with status 200 |
| Zod.Flatten | d-d_ai_narrative/lib/api/middleware/withValidation.ts:31 | the flattened report has exactly formErrors and fieldErrors, one entry per reported field with its messages |
| ValidationMiddleware.Classify | d-d_ai_narrative/lib/api/middleware/withValidation.ts:20-35 | each request stops at exactly one of three stages: malformed body, schema failure, or admitted with the schema's data |
| ValidationMiddleware.WithValidation | d-d_ai_narrative/lib/api/middleware/withValidation.ts:15-37 | malformed body gives error(badRequest("Invalid JSON body")); schema failure gives error(badRequest("Validation failed", flattened issues)); a valid body gives the handler's outcome for the original request and the validated data |
| ValidationMiddleware.RejectionIgnoresHandler | d-d_ai_narrative/lib/api/middleware/withValidation.ts:22-33 | a rejected request gives the same 400 VALIDATION_ERROR without request id whatever the handler, so the handler is not consulted |
| ValidationMiddleware.AdmissionDefersToHandler | d-d_ai_narrative/lib/api/middleware/withValidation.ts:35 | an admitted request's outcome is the handler's, unchanged |
| ValidationMiddleware.FieldErrorsReachClient | d-d_ai_narrative/lib/api/middleware/withValidation.test.ts:64-83 | every field the schema reports appears under error.details.fieldErrors of the response |
| ErrorMiddleware.RequestId | d-d_ai_narrative/lib/api/middleware/withErrorHandler.ts:9 | the request id is the x-request-id header when present, else absent |
| ErrorMiddleware.ServerErrorDetails | d-d_ai_narrative/lib/api/middleware/withErrorHandler.ts:21-24 | details are exactly stack and message outside production, and absent in production |
| ErrorMiddleware.WithErrorHandler | d-d_ai_narrative/lib/api/middleware/withErrorHandler.ts:7-40 | a returned response passes through unchanged; anything thrown becomes a consistent failed envelope with the request id: an AppError as it is, an Error as a 500 INTERNAL_SERVER_ERROR with the default message, any other value as error(undefined) |
| ErrorMiddleware.ProductionHidesErrorDetails | d-d_ai_narrative/lib/api/middleware/withErrorHandler.ts:18-33 | in production a thrown Error gives the same response as error(undefined): nothing of it leaks |
| ErrorMiddleware.ThrownFactoryErrorStatus | d-d_ai_narrative/lib/api/middleware/withErrorHandler.ts:14-16 | a thrown factory error reaches the client with its code and canonical status |
| AuthSchemas.UsernameIssues | d-d_ai_narrative/lib/validations/auth.ts:5-9 | no message exactly when the username has 3 to 20 characters from [a-zA-Z0-9_-]; each failed check contributes its own message |
| AuthSchemas.PasswordIssues | d-d_ai_narrative/lib/validations/auth.ts:11-16 | no message exactly when the password has 8 to 72 characters with an A-Z and a 0-9; missing upper case or digit each gives its message |
| AuthSchemas.RegisterIssuesByField | d-d_ai_narrative/lib/validations/auth.ts:3-23 | for an object body only fields are reported, each exactly when its checks (and for confirmPassword, the equality rule) produce messages |
| AuthSchemas.ParseRegisterAccepts | d-d_ai_narrative/lib/validations/auth.ts:3-23 | the schema accepts exactly objects with a valid username, a valid password and an equal confirmPassword, and returns the three fields |
| AuthSchemas.BadUsernameReported | d-d_ai_narrative/lib/validations/auth.test.ts:20-40 | an invalid username is reported under username |
| AuthSchemas.BadPasswordReported | d-d_ai_narrative/lib/validations/auth.test.ts:54-68 | an invalid password is reported under password |
| AuthSchemas.MismatchReportedOnConfirm | d-d_ai_narrative/lib/validations/auth.ts:20-23 | differing passwords are rejected with the mismatch message under confirmPassword, and that is the only report when the other fields are valid |
| AuthSchemas.NonObjectIsFormError | d-d_ai_narrative/lib/validations/auth.ts:3-4 | a body that is not an object gives one form-level message and no field errors |
| AuthSchemas.SampleRegistrationAccepted | d-d_ai_narrative/lib/validations/auth.test.ts:4-16 | ThorinHero / Password1 / Password1 is accepted |
| AuthSchemas.UsernameCharacterClass | d-d_ai_narrative/lib/validations/auth.test.ts:34-45 | the_Dark-Hero is a valid username, hero@world is not |
| AuthSchemas.ParseLoginAccepts | d-d_ai_narrative/lib/validations/auth.ts:27-30 | the login schema accepts exactly objects with a non-empty username and a non-empty password |
| CharacterSchema.AcceptedCharacterFields | d-d_ai_narrative/lib/validations/character.ts:36-49 | an accepted character has a 2-30 character name, a listed race and class, a backstory of at most 2000 characters if any, and six stats in 1..20 |
| CharacterSchema.UnknownRaceRejected | d-d_ai_narrative/lib/validations/character.ts:3-13 | a race outside the nine listed is rejected |
| CharacterSchema.UnknownClassRejected | d-d_ai_narrative/lib/validations/character.ts:17-30 | a class outside the twelve listed is rejected |
| CharacterSchema.MissingStatRejected | d-d_ai_narrative/lib/validations/character.ts:41-48 | removing any one of the six stats rejects the body |
| CharacterSchema.StatOutOfRangeRejected | d-d_ai_narrative/lib/validations/character.ts:34 | a stat that is below 1, above 20 or not whole is rejected |
| CharacterSchema.BackstoryOptional | d-d_ai_narrative/lib/validations/character.ts:40 | removing the backstory keeps an accepted character accepted |
| CharacterSchema.SampleCharacter | d-d_ai_narrative/lib/validations/character.test.ts:4-40 | the sample dwarf fighter is accepted and the same with a one-character name is not |
| RoomSchema.AcceptedRoomFields | d-d_ai_narrative/lib/validations/room.ts:3-8 | an accepted room has a 3-50 character name, a description of at most 500 characters if any, a whole player limit in 2..8 and a boolean privacy flag |
| RoomSchema.EmptyUpdateAccepted | d-d_ai_narrative/lib/validations/room.ts:12 | the empty update is accepted |
| RoomSchema.CreateIsUpdate | d-d_ai_narrative/lib/validations/room.ts:12 | every valid creation body is a valid update |
| RoomSchema.CompleteUpdateIsCreate | d-d_ai_narrative/lib/validations/room.ts:12 | with all required fields present, update and creation accept the same bodies |
| RoomSchema.PresentFieldStillChecked | d-d_ai_narrative/lib/validations/room.test.ts:55-66 | a present name shorter than 3 or longer than 50 fails the update; "Nouveau nom" alone passes |
| RoomSchema.SampleRooms | d-d_ai_narrative/lib/validations/room.test.ts:33-46 | both privacy values are accepted, a player limit outside 2..8 is not |
| AuthConfig.AnyPrefixIsExists | d-d_ai_narrative/lib/auth/auth.config.ts:22 | the left-to-right scan finds a match exactly when some public entry is a prefix of the path |
| AuthConfig.Authorized | d-d_ai_narrative/lib/auth/auth.config.ts:19-24 | OPTIONS is always allowed; a path starting with a public entry is allowed; any other request is allowed exactly when a session user is present |
| AuthConfig.AuthorizedMonotone | d-d_ai_narrative/lib/auth/auth.config.ts:19-24 | adding a session user never turns an allowed request into a refused one |
| AuthConfig.PublicByPrefix | d-d_ai_narrative/lib/auth/auth.config.ts:4-12 | any path starting with /api/auth or /login is allowed, with or without a session |
| AuthConfig.PrivateRouteNeedsUser | d-d_ai_narrative/lib/auth/auth.config.ts:23 | GET /api/rooms is refused without a session or with a session lacking a user, and allowed with a user |
| AuthService.ToPublic | d-d_ai_narrative/lib/services/auth/authService.ts:38-42 | the public user has exactly the record's id, username and createdAt, and no password |
| AuthService.RegisterConflict | d-d_ai_narrative/lib/services/auth/authService.ts:21-27 | a taken username gives a 409 CONFLICT with the "already used" message and leaves the store as it was |
| AuthService.RegisterFresh | d-d_ai_narrative/lib/services/auth/authService.ts:29-42 | a fresh username adds exactly one record, under that username, holding hash(password, 12), and returns its public projection |
| AuthService.RegisterLeavesOthers | d-d_ai_narrative/lib/services/auth/authService.ts:18-43 | every other username is present before exactly when after, with the same record |
| AuthService.RegisterKeepsKeying | d-d_ai_narrative/lib/services/auth/authService.ts:31-36 | registration keeps every record stored under its own username |
| AuthService.UserStore.FindUnique | d-d_ai_narrative/lib/services/auth/authService.ts:21-23 | finds a record exactly when the username is stored, and it is that username's record |
| AuthService.UserStore.Create | d-d_ai_narrative/lib/services/auth/authService.ts:31-36 | inserts the record with the store's id and timestamps under its username, or writes nothing on a duplicate |
| AuthService.UserStore.RegisterUser | d-d_ai_narrative/lib/services/auth/authService.ts:18-43 | the new store and result are those of Register; on a taken username nothing is written and create is not called; otherwise create is called once and the stored password is hash(password, 12) |
| RegisterRoute.PublicJson | d-d_ai_narrative/app/api/auth/register/route.ts:86-87 | the response data has exactly the keys id, username and createdAt |
| RegisterRoute.PostRejectsInvalid | d-d_ai_narrative/app/api/auth/register/route.ts:83-89 | a malformed or schema-failing body is answered 400 VALIDATION_ERROR, without the request id |
| RegisterRoute.PostConflict | d-d_ai_narrative/app/api/auth/register/route.ts:83-89 | a valid body with a taken username is answered 409 CONFLICT with the request id |
| RegisterRoute.PostCreates | d-d_ai_narrative/app/api/auth/register/route.ts:83-89 | a valid body with a fresh username is answered 201 with the new user's id, username and the database's creation time, no password, and the envelope's own clock reading as meta timestamp |

## Left out

- Logging: the `console.error` calls of the error handler are not modelled.
- `NextResponse` is reduced to a status and an envelope; headers of the response are not modelled.
- ApiResponse.Error: the response constructor's status check is not modelled. `NextResponse.json` refuses a status outside 200..599 and a body with 204, 205 or 304; the model answers any status. In the source an `AppError` built directly with such a status makes `error()` throw. Factory errors are unaffected (`ApiResponse.FactoryStatusSendable`).
- ErrorMiddleware.WithErrorHandler: for the same reason, a thrown `AppError` whose status the response constructor refuses makes the `error()` call inside the catch throw, and that exception leaves the wrapper in the source; the model answers an envelope with that status.
- `Headers.get` matches header names without regard to case; the model looks up the lower-case name `x-request-id` in a map of lower-case names.
- String lengths count Dafny characters; JavaScript counts UTF-16 code units, which differ for characters outside the Basic Multilingual Plane.
- `BuildMeta`: a caller's `timestamp` given explicitly as `undefined` replaces the clock reading in the source (the spread copies it); the model treats such a timestamp as absent. An explicit `requestId: undefined`, which `error()` passes whenever no id is known, leaves the timestamp alone in both.
- `Paginated`: numbers are integers; `limit <= 0`, where the division yields Infinity or NaN, is excluded by its precondition.
- The schema validator's engine is not modelled: for the registration and login schemas the model gives the flattened report (all string checks run, the equality rule runs when every field is a string, type mismatches read "Required" or "Expected <type>, received <type>" as Zod version 3 words them; the model follows that version's messages); for the character and room schemas only acceptance is modelled, not their error reports or their parsed output.
- `AuthService.UserStore.RegisterUser` does not establish that the stored hash differs from the plaintext: that is a property of bcrypt's output, which is a parameter here. The salt's randomness is not modelled either; the hash is a function of password and cost.
- The database's id generation and clock are parameters; the race between two concurrent registrations of the same username (both pass the lookup) is not modelled, since the model is sequential.
- `RegisterRoute` composes the route over a snapshot of the store; the store update itself is stated by `AuthService.UserStore.RegisterUser`.
- The stack of an `AppError`, `Object.setPrototypeOf` and `instanceof` are replaced by the `Caught` classification.
- `loginUser` and `lib/validations/common.ts` are not part of this model; nor are the login, rooms and characters routes, the health check, the database test route, the request-logging proxy, the NextAuth provider, documentation generation and the UI forms.
