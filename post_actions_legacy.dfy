/**
 * The older post server actions of `post-actions.ts`. They do the same table writes as
 * `post.ts`, but check the input with `safeParse` before reading the session, so invalid
 * input throws even for a caller who is not signed in.
 */
module PostActionsLegacy {
  import opened Wrappers
  import opened Runtime
  import opened Validations
  import opened PostSchemas
  import opened AuthHandlers
  import opened PostStore
  import opened PostActions

  /**
   * The session check that follows validation: an exception from `auth()` propagates, a
   * missing session or user id redirects to the sign-in page.
   */
  function SessionUser(auth: AuthOutcome): (r: Admission<string>)
    ensures r.Admitted? <==> auth.AuthReturned? && Authenticated(auth.session)
    ensures r.Admitted? ==> r.data == auth.session.value.userId.value
    ensures auth.AuthThrew? ==> r == Refused(ExitThrew(auth.error))
    ensures auth.AuthReturned? && !Authenticated(auth.session) ==> r == Refused(ExitRedirected(SignInPath))
  {
    match auth
    case AuthThrew(e) => Refused(ExitThrew(e))
    case AuthReturned(session) =>
      if Authenticated(session) then Admitted(session.value.userId.value) else Refused(ExitRedirected(SignInPath))
  }

  /** `schema.safeParse(data)` and the throw on failure: the rejection is rendered after the fixed prefix. */
  function SafeParse<T>(result: SchemaOutcome<T>, render: IssueRenderer): (a: Admission<T>)
    ensures a.Admitted? <==> result.Parsed?
    ensures a.Admitted? ==> a.data == result.data
    ensures result.Rejected? ==> a == Refused(ExitThrew(ValidationError(render, result.issues)))
  {
    match result
    case Parsed(d) => Admitted(d)
    case Rejected(issues) => Refused(ExitThrew(ValidationError(render, issues)))
    case Crashed(e) => Refused(ExitThrew(e))
  }

  /** The checks of the older actions, in their order: input first, then the session. */
  function CheckThenAuth<T>(result: SchemaOutcome<T>, render: IssueRenderer, auth: AuthOutcome): (g: Gate<T>)
    ensures result.Rejected? ==> g == Leave(ExitThrew(ValidationError(render, result.issues)))
    ensures result.Parsed? ==>
      match SessionUser(auth)
      case Admitted(userId) => g == Admit(result.data, userId)
      case Refused(x) => g == Leave(x)
  {
    match SafeParse(result, render)
    case Refused(x) => Leave(x)
    case Admitted(d) =>
      match SessionUser(auth)
      case Refused(x) => Leave(x)
      case Admitted(userId) => Admit(d, userId)
  }

  /**
   * Invalid input is reported the same way whatever `auth()` would have done, and a signed-out
   * caller with invalid input sees the validation error rather than the redirect.
   */
  lemma ValidationPrecedesAuth<T>(result: SchemaOutcome<T>, render: IssueRenderer, auth1: AuthOutcome, auth2: AuthOutcome)
    requires result.Rejected?
    ensures CheckThenAuth(result, render, auth1) == CheckThenAuth(result, render, auth2)
    ensures CheckThenAuth(result, render, auth1).Leave? && CheckThenAuth(result, render, auth1).exit.ExitThrew?
  {
  }

  /**
   * Where the two orders agree: with valid input they admit and exit alike. They differ only
   * on invalid input from a caller without a usable session.
   */
  lemma OrdersAgreeOnValidInput<T>(schema: Schema<T>, render: IssueRenderer, auth: AuthOutcome, input: Json)
    requires schema(input).Parsed?
    ensures CheckThenAuth(schema(input), render, auth) == WithAuthGate(auth, schema, render, input)
  {
  }

  /** `createPost(data)` of the older actions. */
  method CreatePost(store: Store, auth: AuthOutcome, isUrl: string -> bool, render: IssueRenderer,
                    input: Json, tick: nat, fault: Option<Exception>)
    returns (o: Outcome<PostId>)
    requires store.Valid()
    modifies store
    ensures store.Valid()
    ensures ParseCreatePost(isUrl, input).Rejected? ==>
      o == Threw(ValidationError(render, ParseCreatePost(isUrl, input).issues)) && unchanged(store)
    ensures o.Redirected? <==> ParseCreatePost(isUrl, input).Parsed? && auth.AuthReturned? && !Authenticated(auth.session)
    ensures o.Redirected? ==> o.location == SignInPath && unchanged(store)
    ensures var g := CheckThenAuth(ParseCreatePost(isUrl, input), render, auth);
      && (g.Leave? ==> o == g.exit.AsOutcome() && unchanged(store))
      && (g.Admit? && fault.Some? ==> o == Threw(Error(CreateFailed)) && unchanged(store))
      && (g.Admit? && fault.None? ==>
            && o.Returned? && o.value !in old(store.posts)
            && store.posts == old(store.posts)[o.value := NewPost(g.userId, g.data, store.clock)]
            && store.order == old(store.order) + [o.value]
            && store.clock == old(store.clock) + tick)
  {
    match CheckThenAuth(ParseCreatePost(isUrl, input), render, auth)
    case Leave(x) =>
      o := x.AsOutcome();
    case Admit(d, userId) =>
      o := CreateFor(store, userId, d, tick, fault);
  }

  /** `updatePost(data)` of the older actions. */
  method UpdatePost(store: Store, auth: AuthOutcome, isUrl: string -> bool, render: IssueRenderer,
                    input: Json, tick: nat, lookupFault: Option<Exception>, writeFault: Option<Exception>)
    returns (o: Outcome<PostId>)
    requires store.Valid()
    modifies store
    ensures store.Valid()
    ensures ParseUpdatePost(isUrl, input).Rejected? ==>
      o == Threw(ValidationError(render, ParseUpdatePost(isUrl, input).issues)) && unchanged(store)
    ensures o.Redirected? <==> ParseUpdatePost(isUrl, input).Parsed? && auth.AuthReturned? && !Authenticated(auth.session)
    ensures var g := CheckThenAuth(ParseUpdatePost(isUrl, input), render, auth);
      var found := g.Admit? && lookupFault.None? && g.data.id in old(store.posts);
      var owned := found && old(store.posts)[g.data.id].userId == g.userId;
      && (g.Leave? ==> o == g.exit.AsOutcome() && unchanged(store))
      && (g.Admit? && lookupFault.Some? ==>
            o == Threw(Error(MessageOr(lookupFault.value, UpdateFailed))) && unchanged(store))
      && (g.Admit? && lookupFault.None? && g.data.id !in old(store.posts) ==> o == Threw(Error(NotFound)) && unchanged(store))
      && (found && !owned ==> o == Threw(Error(NoUpdatePermission)) && unchanged(store))
      && (owned && writeFault.Some? ==> o == Threw(Error(MessageOr(writeFault.value, UpdateFailed))) && unchanged(store))
      && (owned && writeFault.None? ==>
            && o == Returned(g.data.id)
            && store.posts == old(store.posts)[g.data.id := old(store.posts)[g.data.id].(
                 content := g.data.content, contentHtml := StoredHtml(g.data.contentHtml),
                 preview := StoredPreview(g.data.preview), updatedAt := store.clock)]
            && store.order == old(store.order)
            && store.clock == old(store.clock) + tick)
  {
    match CheckThenAuth(ParseUpdatePost(isUrl, input), render, auth)
    case Leave(x) =>
      o := x.AsOutcome();
    case Admit(d, userId) =>
      o := UpdateFor(store, userId, d, tick, lookupFault, writeFault);
  }

  /** `deletePost(data)` of the older actions. */
  method DeletePost(store: Store, auth: AuthOutcome, render: IssueRenderer,
                    input: Json, tick: nat, lookupFault: Option<Exception>, writeFault: Option<Exception>)
    returns (o: Outcome<bool>)
    requires store.Valid()
    modifies store
    ensures store.Valid()
    ensures ParseDeletePost(input).Rejected? ==>
      o == Threw(ValidationError(render, ParseDeletePost(input).issues)) && unchanged(store)
    ensures o.Redirected? <==> ParseDeletePost(input).Parsed? && auth.AuthReturned? && !Authenticated(auth.session)
    ensures var g := CheckThenAuth(ParseDeletePost(input), render, auth);
      var found := g.Admit? && lookupFault.None? && g.data.id in old(store.posts);
      var owned := found && old(store.posts)[g.data.id].userId == g.userId;
      && (g.Leave? ==> o == g.exit.AsOutcome() && unchanged(store))
      && (g.Admit? && lookupFault.Some? ==>
            o == Threw(Error(MessageOr(lookupFault.value, DeleteFailed))) && unchanged(store))
      && (g.Admit? && lookupFault.None? && g.data.id !in old(store.posts) ==> o == Threw(Error(NotFound)) && unchanged(store))
      && (found && !owned ==> o == Threw(Error(NoDeletePermission)) && unchanged(store))
      && (owned && writeFault.Some? ==> o == Threw(Error(MessageOr(writeFault.value, DeleteFailed))) && unchanged(store))
      && (owned && writeFault.None? ==>
            && o == Returned(true)
            && store.posts == old(store.posts)[g.data.id := old(store.posts)[g.data.id].(deletedAt := Some(store.clock))]
            && store.order == old(store.order)
            && store.clock == old(store.clock) + tick)
  {
    match CheckThenAuth(ParseDeletePost(input), render, auth)
    case Leave(x) =>
      o := x.AsOutcome();
    case Admit(d, userId) =>
      o := DeleteFor(store, userId, d, tick, lookupFault, writeFault);
  }

  /** The older listing takes its query as an untyped value; a negative page size is outside the model. */
  predicate LimitNonNegative(input: Json) {
    ParseListQuery(input).Parsed? ==> ParseListQuery(input).data.limit >= 0
  }

  /** `getPosts(data)` of the older actions: the query is validated, then listed as in `post.ts`. */
  method GetPosts(store: Store, render: IssueRenderer, input: Json, fault: Option<Exception>)
    returns (o: Outcome<PageResult>)
    requires store.Valid() && LimitNonNegative(input)
    ensures ParseListQuery(input).Rejected? ==> o == Threw(ValidationError(render, ParseListQuery(input).issues))
    ensures ParseListQuery(input).Parsed? && fault.Some? ==> o == Threw(Error(ListFailed))
    ensures ParseListQuery(input).Parsed? && fault.None? ==>
      var q := ParseListQuery(input).data;
      var rows := store.FromCursor(EffectiveCursor(q.cursor));
      && o.Returned?
      && o.value.posts == Take(rows, q.limit)
      && (o.value.nextCursor.Some? <==> |rows| > q.limit)
      && (o.value.nextCursor.Some? ==> o.value.nextCursor.value == rows[q.limit].id)
  {
    match SafeParse(ParseListQuery(input), render)
    case Refused(x) =>
      o := x.AsOutcome();
    case Admitted(q) =>
      o := ListPage(store, q, fault);
  }
}
