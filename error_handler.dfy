/**
 * The API error normalisation of `src/lib/error-handler.ts`: whatever a
 * route throws becomes an `AppError` (type, status, context, original
 * error), is logged at error level with its context, and is answered with
 * the status and a body carrying message and type, plus the original
 * error's stack outside production.
 *
 * The thrown value is the datatype `Thrown`; the log call is returned as a
 * value; `NODE_ENV !== "production"` is the parameter `production`.
 */
module ErrorHandler {
  import opened Common
  import Logger

  datatype ErrorType = Validation | Database | Network | Authentication | Authorization
                     | NotFound | Api | Internal | External

  /** The string value of each `ErrorType` member. */
  function TypeName(t: ErrorType): string {
    match t
    case Validation => "validation_error"
    case Database => "database_error"
    case Network => "network_error"
    case Authentication => "authentication_error"
    case Authorization => "authorization_error"
    case NotFound => "not_found_error"
    case Api => "api_error"
    case Internal => "internal_error"
    case External => "external_service_error"
  }

  /** Different types never share a string value. */
  lemma TypeNameInjective(s: ErrorType, t: ErrorType)
    requires TypeName(s) == TypeName(t)
    ensures s == t
  {
  }

  datatype AppError = AppError(message: string, errorType: ErrorType, statusCode: int,
                               context: Option<Logger.Record>, originalError: Option<Logger.ErrorInfo>)

  /** `new AppError(message, type?, statusCode?, context?, originalError?)`: INTERNAL and 500 when not given. */
  function NewAppError(message: string, errorType: Option<ErrorType>, statusCode: Option<int>,
                       context: Option<Logger.Record>, originalError: Option<Logger.ErrorInfo>): (e: AppError)
    ensures e.errorType == (if errorType.Some? then errorType.value else Internal)
    ensures e.statusCode == (if statusCode.Some? then statusCode.value else 500)
    ensures e.message == message && e.context == context && e.originalError == originalError
  {
    AppError(message, if errorType.Some? then errorType.value else Internal,
             if statusCode.Some? then statusCode.value else 500, context, originalError)
  }

  /** What a route can throw. */
  datatype Thrown =
    | ThrownAppError(app: AppError)
    | ThrownError(error: Logger.ErrorInfo)
    | ThrownString(text: string)
    | ThrownOther

  /** The conversion at the head of `handleApiError`. */
  function ToAppError(t: Thrown): (e: AppError)
    ensures t.ThrownAppError? ==> e == t.app
    ensures t.ThrownError? ==> e == AppError(t.error.message, Internal, 500, None, Some(t.error))
    ensures t.ThrownString? ==> e == AppError(t.text, Internal, 500, None, None)
    ensures t.ThrownOther? ==> e == AppError("An unknown error occurred", Internal, 500, None, None)
  {
    match t
    case ThrownAppError(app) => app
    case ThrownError(err) => NewAppError(err.message, Some(Internal), Some(500), None, Some(err))
    case ThrownString(s) => NewAppError(s, Some(Internal), Some(500), None, None)
    case ThrownOther => NewAppError("An unknown error occurred", Some(Internal), Some(500), None, None)
  }

  // ------------------------------------------------------------ object spread

  /** The value a key reads back from an object (the last entry with that key). */
  function Lookup(r: Logger.Record, k: string): Option<Json> {
    if r == [] then None
    else if r[|r| - 1].0 == k then Some(r[|r| - 1].1)
    else Lookup(r[..|r| - 1], k)
  }

  /** `{ ...r, [k]: v }`: an existing key keeps its place and takes the new value, a new key goes last. */
  function Put(r: Logger.Record, k: string, v: Json): (r': Logger.Record)
    ensures Lookup(r', k) == Some(v)
    ensures forall j :: j != k ==> Lookup(r', j) == Lookup(r, j)
    decreases |r|
  {
    if r == [] then [(k, v)]
    else if r[|r| - 1].0 == k then r[..|r| - 1] + [(k, v)]
    else
      var rest := Put(r[..|r| - 1], k, v);
      assert (rest + [r[|r| - 1]])[..|rest|] == rest;
      rest + [r[|r| - 1]]
  }

  /** `{ ...r, ...s }`. */
  function Spread(r: Logger.Record, s: Logger.Record): (r': Logger.Record)
    ensures forall j :: Lookup(r', j) == (if Lookup(s, j).Some? then Lookup(s, j) else Lookup(r, j))
    decreases |s|
  {
    if s == [] then r
    else Put(Spread(r, s[..|s| - 1]), s[|s| - 1].0, s[|s| - 1].1)
  }

  /** The log call: its message, the error as logged, and the context. */
  datatype LogCall = LogCall(message: string, error: Logger.ErrorInfo, context: Logger.Record)

  /** The returned `{ statusCode, body: { error: { message, type, stack? } } }`. */
  datatype ErrorResponse = ErrorResponse(statusCode: int, message: string, typeName: string,
                                         stack: Option<Option<string>>)

  /** `logger.error(...)` as `handleApiError` calls it for the normalised error `e`. */
  function LoggedCall(e: AppError, requestInfo: Logger.Record, stack: Option<string>): (c: LogCall)
    ensures c.message == "API Error: " + e.message
    ensures c.error == Logger.ErrorInfo(e.message, "AppError", stack)
    ensures Lookup(c.context, "errorType") == (if Lookup(requestInfo, "errorType").Some? then Lookup(requestInfo, "errorType") else Some(JStr(TypeName(e.errorType))))
    ensures Lookup(c.context, "statusCode") == (if Lookup(requestInfo, "statusCode").Some? then Lookup(requestInfo, "statusCode") else Some(JNum(e.statusCode)))
  {
    var base := if e.context.Some? then e.context.value else [];
    var ctx := Put(Put(base, "errorType", JStr(TypeName(e.errorType))), "statusCode", JNum(e.statusCode));
    LogCall("API Error: " + e.message, Logger.ErrorInfo(e.message, "AppError", stack), Spread(ctx, requestInfo))
  }

  /**
   * `handleApiError(error, requestInfo)`. `appErrorStack` is the stack of
   * the `AppError` being logged; `production` says `NODE_ENV` is production.
   */
  function HandleApiError(t: Thrown, requestInfo: Logger.Record, appErrorStack: Option<string>, production: bool)
    : (r: (ErrorResponse, LogCall))
    ensures r.0.statusCode == ToAppError(t).statusCode
    ensures r.0.message == ToAppError(t).message && r.0.typeName == TypeName(ToAppError(t).errorType)
    ensures r.0.stack.Some? <==> !production && ToAppError(t).originalError.Some?
    ensures r.0.stack.Some? ==> r.0.stack.value == ToAppError(t).originalError.value.stack
    ensures r.1 == LoggedCall(ToAppError(t), requestInfo, appErrorStack)
  {
    var e := ToAppError(t);
    var stack := if !production && e.originalError.Some? then Some(e.originalError.value.stack) else None;
    (ErrorResponse(e.statusCode, e.message, TypeName(e.errorType), stack), LoggedCall(e, requestInfo, appErrorStack))
  }

  function CreateValidationError(message: string, context: Option<Logger.Record>): (e: AppError)
    ensures e == AppError(message, Validation, 400, context, None)
  {
    NewAppError(message, Some(Validation), Some(400), context, None)
  }

  function CreateNotFoundError(message: string, context: Option<Logger.Record>): (e: AppError)
    ensures e == AppError(message, NotFound, 404, context, None)
  {
    NewAppError(message, Some(NotFound), Some(404), context, None)
  }

  function CreateAuthenticationError(message: string, context: Option<Logger.Record>): (e: AppError)
    ensures e == AppError(message, Authentication, 401, context, None)
  {
    NewAppError(message, Some(Authentication), Some(401), context, None)
  }

  function CreateAuthorizationError(message: string, context: Option<Logger.Record>): (e: AppError)
    ensures e == AppError(message, Authorization, 403, context, None)
  {
    NewAppError(message, Some(Authorization), Some(403), context, None)
  }

  /**
   * A thrown `AppError` reaches the client with its own status, message and
   * type; one without an original error (as every factory builds) never
   * carries a stack, in any environment.
   */
  lemma AppErrorAnswered(e: AppError, requestInfo: Logger.Record, stack: Option<string>, production: bool)
    requires e.originalError.None?
    ensures HandleApiError(ThrownAppError(e), requestInfo, stack, production).0
            == ErrorResponse(e.statusCode, e.message, TypeName(e.errorType), None)
  {
  }

  /** Anything that is not an `AppError` is answered as an internal error with status 500. */
  lemma ForeignErrorsAreInternal(t: Thrown, requestInfo: Logger.Record, stack: Option<string>, production: bool)
    requires !t.ThrownAppError?
    ensures HandleApiError(t, requestInfo, stack, production).0.statusCode == 500
    ensures HandleApiError(t, requestInfo, stack, production).0.typeName == "internal_error"
  {
  }

  /** In production no stack ever leaves the server. */
  lemma NoStackInProduction(t: Thrown, requestInfo: Logger.Record, stack: Option<string>)
    ensures HandleApiError(t, requestInfo, stack, true).0.stack.None?
  {
  }
}
