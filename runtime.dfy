/**
 * The JavaScript runtime notions the application's server code relies on:
 * JSON-like input values, thrown values, and how a server action can end.
 */
module Runtime {
  import opened Wrappers

  /** A JSON-like value as received by a server action (numbers are integers here). */
  datatype Json =
    | JNull
    | JBool(b: bool)
    | JNum(n: int)
    | JStr(s: string)
    | JArr(items: seq<Json>)
    | JObj(fields: map<string, Json>)

  /** Reads a property of an object value; `None` stands for `undefined`. */
  function Property(v: Json, key: string): (r: Option<Json>)
    ensures r.Some? <==> v.JObj? && key in v.fields
    ensures r.Some? ==> r.value == v.fields[key]
  {
    if v.JObj? && key in v.fields then Some(v.fields[key]) else None
  }

  /**
   * A thrown value: an `Error` instance carries its `message`; any other thrown value
   * is kept as the text `String(value)` would give.
   */
  datatype Exception = Error(message: string) | NonError(text: string)

  /** The message the application reports for a caught value: `error instanceof Error ? error.message : fallback`. */
  function MessageOr(e: Exception, fallback: string): (m: string)
    ensures e.Error? ==> m == e.message
    ensures e.NonError? ==> m == fallback
  {
    match e
    case Error(msg) => msg
    case NonError(_) => fallback
  }

  /**
   * How a server action ends: it returns a value, throws, or calls Next.js's
   * `redirect`, which never returns to its caller.
   */
  datatype Outcome<+T> = Returned(value: T) | Threw(error: Exception) | Redirected(location: string)

  /** A step that either completes normally or throws (no redirect possible). */
  datatype Completion<+T> = Normal(value: T) | Abrupt(error: Exception)

  /** The sign-in page every authentication guard redirects to. */
  const SignInPath := "/auth/signin"

  /**
   * The session returned by the identity provider. `userId` is `session.user?.id`;
   * `None` covers both a missing user and a missing id.
   */
  datatype Session = Session(userId: Option<string>)

  /** `session?.user?.id` is truthy: a session exists and its user id is a non-empty string. */
  predicate Authenticated(session: Option<Session>) {
    session.Some? && session.value.userId.Some? && session.value.userId.value != ""
  }

  /** What a call to the provider's `auth()` yields: a session (or none), or an exception. */
  datatype AuthOutcome = AuthReturned(session: Option<Session>) | AuthThrew(error: Exception)
}
