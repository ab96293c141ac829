/**
 * The server-action wrappers that return result values instead of throwing:
 * `requireAuthSession`, `actionHandler` and `actionHandlerWithAuth`, with the
 * `ActionResult` union they produce.
 */
module ActionHandler {
  import opened Wrappers
  import opened Runtime
  import opened Validations

  const LoginRequired := "로그인이 필요합니다."
  const AuthCheckFailed := "인증 확인 중 오류가 발생했습니다."
  const InvalidInput := "입력 값이 유효하지 않습니다."
  const ExecutionFailedPrefix := "작업 처리 중 오류 발생: "
  const UnknownError := "알 수 없는 오류가 발생했습니다."

  /** The optional `error` field of a failure: flattened issues, the caught value, or a text. */
  datatype ErrorDetail = NoDetail | Flattened(issues: seq<Issue>) | Caught(thrown: Exception) | Text(text: string)

  /** `ActionErrorResult`: `success: false`, a message and optional details. */
  datatype ActionErrorResult = ActionErrorResult(message: string, detail: ErrorDetail)

  /** `ActionResult<T>`: `{success: true, data}` or an `ActionErrorResult`. */
  datatype ActionResult<+T> = ActionSuccess(data: T) | ActionFailure(failure: ActionErrorResult)

  /** What `requireAuthSession` returns: the session, or an error result. */
  datatype SessionOrError = SessionOk(session: Session) | SessionError(failure: ActionErrorResult)

  /**
   * `requireAuthSession()`: a session with a user id is returned; no user id gives
   * "로그인이 필요합니다."; an exception from `auth()` becomes an error result carrying its
   * message (or its string form), never a thrown error.
   */
  function RequireAuthSession(auth: AuthOutcome): (r: SessionOrError)
    ensures r.SessionOk? <==> auth.AuthReturned? && Authenticated(auth.session)
    ensures r.SessionOk? ==> Some(r.session) == auth.session && r.session.userId.Some?
    ensures auth.AuthReturned? && !Authenticated(auth.session) ==>
      r == SessionError(ActionErrorResult(LoginRequired, NoDetail))
    ensures auth.AuthThrew? ==>
      r == SessionError(ActionErrorResult(AuthCheckFailed,
        Text(if auth.error.Error? then auth.error.message else auth.error.text)))
  {
    match auth
    case AuthThrew(e) =>
      SessionError(ActionErrorResult(AuthCheckFailed, Text(match e case Error(m) => m case NonError(t) => t)))
    case AuthReturned(session) =>
      if Authenticated(session) then SessionOk(session.value)
      else SessionError(ActionErrorResult(LoginRequired, NoDetail))
  }

  /** The failure an exception caught by a wrapper is turned into. */
  function FromException(e: Exception): (f: ActionErrorResult)
    ensures f.detail == Caught(e)
    ensures e.Error? ==> f.message == ExecutionFailedPrefix + e.message
    ensures e.NonError? ==> f.message == ExecutionFailedPrefix + UnknownError
  {
    ActionErrorResult(ExecutionFailedPrefix + MessageOr(e, UnknownError), Caught(e))
  }

  /** Where validation leaves a wrapper: go on with this argument, or stop with this failure. */
  datatype Stage<+I> = Proceed(arg: I) | Halt(failure: ActionErrorResult)

  /**
   * The validation step: without a schema the raw input goes on; with one, its parsed data
   * goes on, a rejection stops with "입력 값이 유효하지 않습니다." and the flattened issues,
   * and a crash of the schema is caught like any other exception.
   */
  function Validate<I>(schema: Option<I -> SchemaOutcome<I>>, input: I): (s: Stage<I>)
    ensures schema.None? ==> s == Proceed(input)
    ensures schema.Some? && schema.value(input).Parsed? ==> s == Proceed(schema.value(input).data)
    ensures schema.Some? && schema.value(input).Rejected? ==>
      s == Halt(ActionErrorResult(InvalidInput, Flattened(schema.value(input).issues)))
    ensures schema.Some? && schema.value(input).Crashed? ==> s == Halt(FromException(schema.value(input).error))
  {
    if schema.None? then Proceed(input)
    else
      match schema.value(input)
      case Parsed(v) => Proceed(v)
      case Rejected(issues) => Halt(ActionErrorResult(InvalidInput, Flattened(issues)))
      case Crashed(e) => Halt(FromException(e))
  }

  /** Turning the action's own completion into a result: its value, or the caught exception. */
  function Normalise<R>(c: Completion<R>): (r: ActionResult<R>)
    ensures c.Normal? <==> r.ActionSuccess?
    ensures c.Normal? ==> r.data == c.value
    ensures c.Abrupt? ==> r.failure == FromException(c.error)
  {
    match c
    case Normal(v) => ActionSuccess(v)
    case Abrupt(e) => ActionFailure(FromException(e))
  }

  /**
   * `actionHandler(fn, schema)(input)`: validation, then `fn`, then normalisation.
   * `fn` runs on the raw input without a schema and on the parsed data with one.
   */
  function RunAction<I, R>(fn: I -> Completion<R>, schema: Option<I -> SchemaOutcome<I>>, input: I): (r: ActionResult<R>)
    ensures Validate(schema, input).Halt? ==> r == ActionFailure(Validate(schema, input).failure)
    ensures schema.None? ==> r == Normalise(fn(input))
    ensures schema.Some? && schema.value(input).Parsed? ==> r == Normalise(fn(schema.value(input).data))
  {
    match Validate(schema, input)
    case Halt(f) => ActionFailure(f)
    case Proceed(arg) => Normalise(fn(arg))
  }

  /**
   * `actionHandlerWithAuth(fn, schema)(input)`: authentication first; an unauthenticated
   * call returns the authentication failure as it is. Then validation, then `fn` on the
   * session and the validated input.
   */
  function RunActionWithAuth<I, R>(fn: (Session, I) -> Completion<R>, schema: Option<I -> SchemaOutcome<I>>,
                                   auth: AuthOutcome, input: I): (r: ActionResult<R>)
    ensures RequireAuthSession(auth).SessionError? ==> r == ActionFailure(RequireAuthSession(auth).failure)
    ensures RequireAuthSession(auth).SessionOk? && Validate(schema, input).Halt? ==>
      r == ActionFailure(Validate(schema, input).failure)
    ensures RequireAuthSession(auth).SessionOk? && Validate(schema, input).Proceed? ==>
      r == Normalise(fn(RequireAuthSession(auth).session, Validate(schema, input).arg))
  {
    match RequireAuthSession(auth)
    case SessionError(f) => ActionFailure(f)
    case SessionOk(session) =>
      match Validate(schema, input)
      case Halt(f) => ActionFailure(f)
      case Proceed(arg) => Normalise(fn(session, arg))
  }

  // ---- Properties of the wrappers ----

  /** A rejected input never reaches `fn`: the result does not depend on `fn` at all. */
  lemma RejectedInputSkipsAction<I, R>(fn1: I -> Completion<R>, fn2: I -> Completion<R>,
                                       schema: I -> SchemaOutcome<I>, input: I)
    requires schema(input).Rejected?
    ensures RunAction(fn1, Some(schema), input) == RunAction(fn2, Some(schema), input)
    ensures RunAction(fn1, Some(schema), input).ActionFailure?
    ensures RunAction(fn1, Some(schema), input).failure.message == InvalidInput
  {
  }

  /**
   * An unauthenticated call neither validates nor runs `fn`: the result is the same for
   * every schema and every `fn`, and it is the authentication failure.
   */
  lemma UnauthenticatedSkipsEverything<I, R>(fn1: (Session, I) -> Completion<R>, fn2: (Session, I) -> Completion<R>,
                                             schema1: Option<I -> SchemaOutcome<I>>, schema2: Option<I -> SchemaOutcome<I>>,
                                             auth: AuthOutcome, input: I)
    requires !(auth.AuthReturned? && Authenticated(auth.session))
    ensures RunActionWithAuth(fn1, schema1, auth, input) == RunActionWithAuth(fn2, schema2, auth, input)
    ensures RunActionWithAuth(fn1, schema1, auth, input).ActionFailure?
    ensures RunActionWithAuth(fn1, schema1, auth, input).failure.message in {LoginRequired, AuthCheckFailed}
  {
  }

  /**
   * Once authenticated, `actionHandlerWithAuth` behaves as `actionHandler` applied to `fn`
   * with the session fixed as its first argument.
   */
  lemma AuthenticatedIsPlainHandler<I, R>(fn: (Session, I) -> Completion<R>, schema: Option<I -> SchemaOutcome<I>>,
                                          auth: AuthOutcome, input: I)
    requires auth.AuthReturned? && Authenticated(auth.session)
    ensures RunActionWithAuth(fn, schema, auth, input) == RunAction(x => fn(auth.session.value, x), schema, input)
  {
  }

  /** A success always carries what `fn` returned, for the argument validation produced. */
  lemma SuccessCarriesActionValue<I, R>(fn: I -> Completion<R>, schema: Option<I -> SchemaOutcome<I>>, input: I)
    requires RunAction(fn, schema, input).ActionSuccess?
    ensures Validate(schema, input).Proceed?
    ensures fn(Validate(schema, input).arg) == Normal(RunAction(fn, schema, input).data)
  {
  }
}
