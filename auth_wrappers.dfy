/**
 * The second pair of throwing wrappers, `withAuth` and `withoutAuth`, which return the
 * server action directly instead of through a promise, and whose `withoutAuth` takes
 * plain values only.
 */
module AuthWrappers {
  import opened Runtime
  import opened Validations
  import AuthHandlers

  /**
   * `withAuth(schema, handler)(input)`: redirect without a session user id, throw the
   * prefixed error on invalid input, otherwise call the handler with the data and user id.
   */
  function WithAuth<T, R>(auth: AuthOutcome, schema: Schema<T>, render: AuthHandlers.IssueRenderer,
                          handler: (T, string) -> Outcome<R>, input: Json): (o: Outcome<R>)
    ensures auth.AuthReturned? && !Authenticated(auth.session) ==> o == Redirected(SignInPath)
    ensures auth.AuthReturned? && Authenticated(auth.session) && schema(input).Rejected? ==>
      o == Threw(AuthHandlers.ValidationError(render, schema(input).issues))
    ensures auth.AuthReturned? && Authenticated(auth.session) && schema(input).Parsed? ==>
      o == handler(schema(input).data, auth.session.value.userId.value)
  {
    match auth
    case AuthThrew(e) => Threw(e)
    case AuthReturned(session) =>
      if !Authenticated(session) then Redirected(SignInPath)
      else
        match ValidateData(schema, input)
        case Abrupt(e) => Threw(e)
        case Normal(Invalid(issues)) => Threw(AuthHandlers.ValidationError(render, issues))
        case Normal(Valid(d)) => handler(d, session.value.userId.value)
  }

  /** `withoutAuth(schema, handler)(input)`: validate, then call the handler with the parsed data only. */
  function WithoutAuth<T, R>(schema: Schema<T>, render: AuthHandlers.IssueRenderer,
                             handler: T -> Outcome<R>, input: Json): (o: Outcome<R>)
    ensures schema(input).Parsed? ==> o == handler(schema(input).data)
    ensures schema(input).Rejected? ==> o == Threw(AuthHandlers.ValidationError(render, schema(input).issues))
    ensures schema(input).Crashed? ==> o == Threw(schema(input).error)
  {
    match ValidateData(schema, input)
    case Abrupt(e) => Threw(e)
    case Normal(Invalid(issues)) => Threw(AuthHandlers.ValidationError(render, issues))
    case Normal(Valid(d)) => handler(d)
  }

  /** Both `withAuth` variants behave identically on every input. */
  lemma WithAuthVariantsAgree<T, R>(auth: AuthOutcome, schema: Schema<T>, render: AuthHandlers.IssueRenderer,
                                    handler: (T, string) -> Outcome<R>, input: Json)
    ensures WithAuth(auth, schema, render, handler, input) == AuthHandlers.WithAuth(auth, schema, render, handler, input)
  {
  }

  /** On plain values both `withoutAuth` variants behave identically. */
  lemma WithoutAuthVariantsAgree<T, R>(schema: Schema<T>, render: AuthHandlers.IssueRenderer,
                                       handler: T -> Outcome<R>, input: Json)
    ensures WithoutAuth(schema, render, handler, input) ==
      AuthHandlers.WithoutAuth(schema, render, handler, AuthHandlers.Plain(input))
  {
  }
}
