/**
 * The throwing server-action wrappers `withAuth` and `withoutAuth`: authenticate (or
 * not), validate with `validateData`, then call the handler. Failures are thrown
 * errors and Next.js redirects rather than result values.
 */
module AuthHandlers {
  import opened Wrappers
  import opened Runtime
  import opened Validations

  const ValidationFailedPrefix := "유효성 검사 실패: "

  /** `JSON.stringify(error.format())`: how Zod's formatted issue tree is rendered as text. */
  type IssueRenderer = seq<Issue> -> string

  /** The error thrown when validation fails: the fixed prefix, then the rendered issues. */
  function ValidationError(render: IssueRenderer, issues: seq<Issue>): (e: Exception)
    ensures e.Error? && ValidationFailedPrefix <= e.message
  {
    Error(ValidationFailedPrefix + render(issues))
  }

  /** How a guard can end a server action early: by throwing, or by redirecting. */
  datatype Exit = ExitThrew(error: Exception) | ExitRedirected(location: string) {
    function AsOutcome<R>(): (o: Outcome<R>)
      ensures ExitThrew? <==> o.Threw?
      ensures ExitThrew? ==> o.error == error
      ensures ExitRedirected? ==> o == Redirected(location)
    {
      match this
      case ExitThrew(e) => Threw(e)
      case ExitRedirected(l) => Redirected(l)
    }
  }

  /** The validation step: the parsed data, or the exit it causes. */
  datatype Admission<+T> = Admitted(data: T) | Refused(exit: Exit)

  /**
   * `validateData` followed by the wrappers' check of its result: a rejection throws the
   * prefixed validation error; a non-Zod exception propagates as it was thrown.
   */
  function CheckInput<T>(schema: Schema<T>, render: IssueRenderer, input: Json): (a: Admission<T>)
    ensures a.Admitted? <==> schema(input).Parsed?
    ensures a.Admitted? ==> a.data == schema(input).data
    ensures schema(input).Rejected? ==> a == Refused(ExitThrew(ValidationError(render, schema(input).issues)))
    ensures schema(input).Crashed? ==> a == Refused(ExitThrew(schema(input).error))
  {
    match ValidateData(schema, input)
    case Abrupt(e) => Refused(ExitThrew(e))
    case Normal(Invalid(issues)) => Refused(ExitThrew(ValidationError(render, issues)))
    case Normal(Valid(d)) => Admitted(d)
  }

  /** Where `withAuth`'s checks leave a call: the handler's arguments, or an early exit. */
  datatype Gate<+T> = Admit(data: T, userId: string) | Leave(exit: Exit)

  /**
   * The checks of `withAuth`, in their order: the session is read first (an exception from
   * `auth()` propagates), a missing session or user id redirects to the sign-in page, and
   * only then is the input validated.
   */
  function WithAuthGate<T>(auth: AuthOutcome, schema: Schema<T>, render: IssueRenderer, input: Json): (g: Gate<T>)
    ensures auth.AuthThrew? ==> g == Leave(ExitThrew(auth.error))
    ensures auth.AuthReturned? && !Authenticated(auth.session) ==> g == Leave(ExitRedirected(SignInPath))
    ensures auth.AuthReturned? && Authenticated(auth.session) ==>
      match CheckInput(schema, render, input)
      case Admitted(d) => g == Admit(d, auth.session.value.userId.value)
      case Refused(x) => g == Leave(x)
  {
    match auth
    case AuthThrew(e) => Leave(ExitThrew(e))
    case AuthReturned(session) =>
      if !Authenticated(session) then Leave(ExitRedirected(SignInPath))
      else
        match CheckInput(schema, render, input)
        case Refused(x) => Leave(x)
        case Admitted(d) => Admit(d, session.value.userId.value)
  }

  /** `withAuth(schema, handler)(input)`: the handler runs only on admitted calls. */
  function WithAuth<T, R>(auth: AuthOutcome, schema: Schema<T>, render: IssueRenderer,
                          handler: (T, string) -> Outcome<R>, input: Json): (o: Outcome<R>)
    ensures WithAuthGate(auth, schema, render, input).Leave? ==>
      o == WithAuthGate(auth, schema, render, input).exit.AsOutcome()
    ensures WithAuthGate(auth, schema, render, input).Admit? ==>
      o == handler(WithAuthGate(auth, schema, render, input).data, WithAuthGate(auth, schema, render, input).userId)
  {
    match WithAuthGate(auth, schema, render, input)
    case Leave(x) => x.AsOutcome()
    case Admit(d, userId) => handler(d, userId)
  }

  /** What a public server action may be called with: a plain value or a form submission. */
  datatype ActionInput = Plain(value: Json) | Form(entries: seq<(string, string)>)

  /** `Object.fromEntries(formData.entries())`: later entries overwrite earlier ones. */
  function FromEntries(entries: seq<(string, string)>): map<string, Json> {
    if entries == [] then map[]
    else
      var last := entries[|entries| - 1];
      FromEntries(entries[..|entries| - 1])[last.0 := JStr(last.1)]
  }

  /** Entry `k` is the last of the entries named `name`. */
  ghost predicate LastNamed(entries: seq<(string, string)>, name: string, k: int) {
    0 <= k < |entries| && entries[k].0 == name && forall j :: k < j < |entries| ==> entries[j].0 != name
  }

  /** The object made from form entries has one property per distinct entry name. */
  lemma {:induction false} FromEntriesKeys(entries: seq<(string, string)>)
    ensures FromEntries(entries).Keys == set k | 0 <= k < |entries| :: entries[k].0
  {
    if entries != [] {
      var n := |entries| - 1;
      var front := entries[..n];
      FromEntriesKeys(front);
      assert forall k :: 0 <= k < n ==> front[k] == entries[k];
      assert (set k | 0 <= k < |entries| :: entries[k].0) == (set k | 0 <= k < n :: front[k].0) + {entries[n].0};
    }
  }

  /** Each property of the object made from form entries holds the value of the last entry with that name. */
  lemma {:induction false} FromEntriesLastWins(entries: seq<(string, string)>, name: string)
    requires name in FromEntries(entries)
    ensures exists k :: LastNamed(entries, name, k) && FromEntries(entries)[name] == JStr(entries[k].1)
  {
    var n := |entries| - 1;
    var front := entries[..n];
    if name == entries[n].0 {
      assert LastNamed(entries, name, n);
    } else {
      FromEntriesLastWins(front, name);
      var k :| LastNamed(front, name, k) && FromEntries(front)[name] == JStr(front[k].1);
      assert entries[k] == front[k];
      assert LastNamed(entries, name, k);
    }
  }

  /** The value `withoutAuth` validates: a form submission becomes a plain object first. */
  function ToObject(input: ActionInput): (v: Json)
    ensures input.Plain? ==> v == input.value
    ensures input.Form? ==> v.JObj? && v.fields.Keys == set k | 0 <= k < |input.entries| :: input.entries[k].0
  {
    match input
    case Plain(value) => value
    case Form(entries) =>
      FromEntriesKeys(entries);
      JObj(FromEntries(entries))
  }

  /**
   * `withoutAuth(schema, handler)(input)`: no authentication; the (converted) input is
   * validated and the handler receives the parsed data.
   */
  function WithoutAuth<T, R>(schema: Schema<T>, render: IssueRenderer, handler: T -> Outcome<R>, input: ActionInput): (o: Outcome<R>)
    ensures schema(ToObject(input)).Parsed? ==> o == handler(schema(ToObject(input)).data)
    ensures schema(ToObject(input)).Rejected? ==>
      o == Threw(ValidationError(render, schema(ToObject(input)).issues))
    ensures schema(ToObject(input)).Crashed? ==> o == Threw(schema(ToObject(input)).error)
  {
    match CheckInput(schema, render, ToObject(input))
    case Refused(x) => x.AsOutcome()
    case Admitted(d) => handler(d)
  }

  // ---- Properties of the wrappers ----

  /**
   * Without a session user id, `withAuth` redirects to the sign-in page before any
   * validation: the outcome is the same for every schema, handler and input.
   */
  lemma UnauthenticatedRedirects<T, R>(session: Option<Session>, schema1: Schema<T>, schema2: Schema<T>,
                                       render: IssueRenderer, handler1: (T, string) -> Outcome<R>,
                                       handler2: (T, string) -> Outcome<R>, input1: Json, input2: Json)
    requires !Authenticated(session)
    ensures WithAuth(AuthReturned(session), schema1, render, handler1, input1) == Redirected(SignInPath)
    ensures WithAuth(AuthReturned(session), schema1, render, handler1, input1)
         == WithAuth(AuthReturned(session), schema2, render, handler2, input2)
  {
  }

  /**
   * An authenticated call with input the schema rejects throws the prefixed validation
   * error, and the handler is never run: the outcome does not depend on it.
   */
  lemma RejectedInputThrows<T, R>(auth: AuthOutcome, schema: Schema<T>, render: IssueRenderer,
                                  handler1: (T, string) -> Outcome<R>, handler2: (T, string) -> Outcome<R>, input: Json)
    requires auth.AuthReturned? && Authenticated(auth.session)
    requires schema(input).Rejected?
    ensures WithAuth(auth, schema, render, handler1, input) == WithAuth(auth, schema, render, handler2, input)
    ensures WithAuth(auth, schema, render, handler1, input).Threw?
    ensures var e := WithAuth(auth, schema, render, handler1, input).error;
      e.Error? && ValidationFailedPrefix <= e.message
  {
  }

  /** An admitted `withAuth` call gives the handler the parsed data and the session's user id. */
  lemma HandlerSeesValidatedData<T, R>(auth: AuthOutcome, schema: Schema<T>, render: IssueRenderer,
                                       handler: (T, string) -> Outcome<R>, input: Json)
    requires auth.AuthReturned? && Authenticated(auth.session)
    requires schema(input).Parsed?
    ensures WithAuth(auth, schema, render, handler, input) ==
      handler(schema(input).data, auth.session.value.userId.value)
  {
  }

  /** A form submission is validated as the object of its entries, the last duplicate winning. */
  lemma FormInputIsValidatedAsObject<T, R>(schema: Schema<T>, render: IssueRenderer, handler: T -> Outcome<R>,
                                           entries: seq<(string, string)>)
    ensures WithoutAuth(schema, render, handler, Form(entries)) ==
      WithoutAuth(schema, render, handler, Plain(JObj(FromEntries(entries))))
  {
  }
}
