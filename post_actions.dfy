/**
 * The post server actions of `post.ts`: create, update and soft-delete behind `withAuth`,
 * and the public, cursor-paginated listing behind `withoutAuth`. The table is a
 * `PostStore.Store`; a failing database call is the `fault` parameter.
 */
module PostActions {
  import opened Wrappers
  import opened Runtime
  import opened Validations
  import opened PostSchemas
  import opened AuthHandlers
  import opened PostStore

  const CreateFailed := "게시글을 생성하는 중 오류가 발생했습니다."
  const NotFound := "게시글을 찾을 수 없습니다."
  const NoUpdatePermission := "게시글을 수정할 권한이 없습니다."
  const UpdateFailed := "게시글을 수정하는 중 오류가 발생했습니다."
  const NoDeletePermission := "게시글을 삭제할 권한이 없습니다."
  const DeleteFailed := "게시글을 삭제하는 중 오류가 발생했습니다."
  const ListFailed := "게시글 목록을 조회하는 중 오류가 발생했습니다."
  const DefaultLimit := 10

  /** The schemas as the wrappers receive them. */
  function CreateSchema(isUrl: string -> bool): Schema<CreatePostData> {
    v => ParseCreatePost(isUrl, v)
  }

  function UpdateSchema(isUrl: string -> bool): Schema<UpdatePostData> {
    v => ParseUpdatePost(isUrl, v)
  }

  function DeleteSchema(): Schema<DeletePostData> {
    v => ParseDeletePost(v)
  }

  /** `contentHtml || "<p></p>"`: the empty string is falsy. */
  function StoredHtml(html: string): (r: string)
    ensures r != ""
    ensures html != "" ==> r == html
    ensures html == "" ==> r == DefaultContentHtml
  {
    if html == "" then DefaultContentHtml else html
  }

  /** `preview || null`: an absent or null preview is stored as null; any object is truthy. */
  function StoredPreview(p: Nullish<Preview>): (r: Option<Preview>)
    ensures r.Some? <==> p.Present?
    ensures r.Some? ==> r.value == p.value
  {
    if p.Present? then Some(p.value) else None
  }

  /** The row `prisma.post.create` inserts for the handler's data, stamped `now`. */
  function NewPost(userId: string, d: CreatePostData, now: Time): Post {
    Post(userId, d.content, StoredHtml(d.contentHtml), StoredPreview(d.preview), now, now, None)
  }

  // ---- The handlers: what runs once the wrapper has admitted the call ----

  /** The `createPost` handler: insert a row owned by the caller; a database error is replaced by a fixed message. */
  method CreateFor(store: Store, userId: string, d: CreatePostData, tick: nat, fault: Option<Exception>)
    returns (o: Outcome<PostId>)
    requires store.Valid()
    modifies store
    ensures store.Valid()
    ensures fault.Some? ==> o == Threw(Error(CreateFailed)) && unchanged(store)
    ensures fault.None? ==>
      && o.Returned? && o.value !in old(store.posts)
      && store.posts == old(store.posts)[o.value := NewPost(userId, d, store.clock)]
      && store.order == old(store.order) + [o.value]
      && store.clock == old(store.clock) + tick
  {
    if fault.Some? {
      return Threw(Error(CreateFailed));
    }
    var id := store.Insert(userId, d.content, StoredHtml(d.contentHtml), StoredPreview(d.preview), tick);
    o := Returned(id);
  }

  /**
   * The `updatePost` handler: the post must exist, then belong to the caller; only the
   * content fields and `updatedAt` change. Errors are rethrown with their own message:
   * `lookupFault` is a failing `findUnique`, `writeFault` a failing `update`.
   */
  method UpdateFor(store: Store, userId: string, d: UpdatePostData, tick: nat,
                   lookupFault: Option<Exception>, writeFault: Option<Exception>)
    returns (o: Outcome<PostId>)
    requires store.Valid()
    modifies store
    ensures store.Valid()
    ensures lookupFault.Some? ==> o == Threw(Error(MessageOr(lookupFault.value, UpdateFailed))) && unchanged(store)
    ensures lookupFault.None? && d.id !in old(store.posts) ==> o == Threw(Error(NotFound)) && unchanged(store)
    ensures lookupFault.None? && d.id in old(store.posts) && old(store.posts)[d.id].userId != userId ==>
      o == Threw(Error(NoUpdatePermission)) && unchanged(store)
    ensures lookupFault.None? && d.id in old(store.posts) && old(store.posts)[d.id].userId == userId && writeFault.Some? ==>
      o == Threw(Error(MessageOr(writeFault.value, UpdateFailed))) && unchanged(store)
    ensures lookupFault.None? && d.id in old(store.posts) && old(store.posts)[d.id].userId == userId && writeFault.None? ==>
      && o == Returned(d.id)
      && store.posts == old(store.posts)[d.id := old(store.posts)[d.id].(
           content := d.content, contentHtml := StoredHtml(d.contentHtml),
           preview := StoredPreview(d.preview), updatedAt := store.clock)]
      && store.order == old(store.order)
      && store.clock == old(store.clock) + tick
  {
    if lookupFault.Some? {
      return Threw(Error(MessageOr(lookupFault.value, UpdateFailed)));
    }
    var owner := store.FindOwner(d.id);
    if owner.None? {
      return Threw(Error(NotFound));
    }
    if owner.value != userId {
      return Threw(Error(NoUpdatePermission));
    }
    if writeFault.Some? {
      return Threw(Error(MessageOr(writeFault.value, UpdateFailed)));
    }
    store.UpdateContent(d.id, d.content, StoredHtml(d.contentHtml), StoredPreview(d.preview), tick);
    o := Returned(d.id);
  }

  /**
   * The `deletePost` handler: the post must exist, then belong to the caller; the row
   * stays and only `deletedAt` is set. The faults are as for `UpdateFor`.
   */
  method DeleteFor(store: Store, userId: string, d: DeletePostData, tick: nat,
                   lookupFault: Option<Exception>, writeFault: Option<Exception>)
    returns (o: Outcome<bool>)
    requires store.Valid()
    modifies store
    ensures store.Valid()
    ensures lookupFault.Some? ==> o == Threw(Error(MessageOr(lookupFault.value, DeleteFailed))) && unchanged(store)
    ensures lookupFault.None? && d.id !in old(store.posts) ==> o == Threw(Error(NotFound)) && unchanged(store)
    ensures lookupFault.None? && d.id in old(store.posts) && old(store.posts)[d.id].userId != userId ==>
      o == Threw(Error(NoDeletePermission)) && unchanged(store)
    ensures lookupFault.None? && d.id in old(store.posts) && old(store.posts)[d.id].userId == userId && writeFault.Some? ==>
      o == Threw(Error(MessageOr(writeFault.value, DeleteFailed))) && unchanged(store)
    ensures lookupFault.None? && d.id in old(store.posts) && old(store.posts)[d.id].userId == userId && writeFault.None? ==>
      && o == Returned(true)
      && store.posts == old(store.posts)[d.id := old(store.posts)[d.id].(deletedAt := Some(store.clock))]
      && store.order == old(store.order)
      && store.clock == old(store.clock) + tick
  {
    if lookupFault.Some? {
      return Threw(Error(MessageOr(lookupFault.value, DeleteFailed)));
    }
    var owner := store.FindOwner(d.id);
    if owner.None? {
      return Threw(Error(NotFound));
    }
    if owner.value != userId {
      return Threw(Error(NoDeletePermission));
    }
    if writeFault.Some? {
      return Threw(Error(MessageOr(writeFault.value, DeleteFailed)));
    }
    store.MarkDeleted(d.id, tick);
    o := Returned(true);
  }

  // ---- The actions ----

  /** `createPost(data)`: `withAuth` around the create handler. */
  method CreatePost(store: Store, auth: AuthOutcome, isUrl: string -> bool, render: IssueRenderer,
                    input: Json, tick: nat, fault: Option<Exception>)
    returns (o: Outcome<PostId>)
    requires store.Valid()
    modifies store
    ensures store.Valid()
    ensures o.Redirected? <==> auth.AuthReturned? && !Authenticated(auth.session)
    ensures var g := WithAuthGate(auth, CreateSchema(isUrl), render, input);
      && (g.Leave? ==> o == g.exit.AsOutcome() && unchanged(store))
      && (g.Admit? && fault.Some? ==> o == Threw(Error(CreateFailed)) && unchanged(store))
      && (g.Admit? && fault.None? ==>
            && o.Returned? && o.value !in old(store.posts)
            && store.posts == old(store.posts)[o.value := NewPost(g.userId, g.data, store.clock)]
            && store.order == old(store.order) + [o.value]
            && store.clock == old(store.clock) + tick)
  {
    match WithAuthGate(auth, CreateSchema(isUrl), render, input)
    case Leave(x) =>
      o := x.AsOutcome();
    case Admit(d, userId) =>
      o := CreateFor(store, userId, d, tick, fault);
  }

  /** `updatePost(data)`: `withAuth` around the update handler. */
  method UpdatePost(store: Store, auth: AuthOutcome, isUrl: string -> bool, render: IssueRenderer,
                    input: Json, tick: nat, lookupFault: Option<Exception>, writeFault: Option<Exception>)
    returns (o: Outcome<PostId>)
    requires store.Valid()
    modifies store
    ensures store.Valid()
    ensures o.Redirected? <==> auth.AuthReturned? && !Authenticated(auth.session)
    ensures var g := WithAuthGate(auth, UpdateSchema(isUrl), render, input);
      var found := g.Admit? && lookupFault.None? && g.data.id in old(store.posts);
      var owned := found && old(store.posts)[g.data.id].userId == g.userId;
      && (g.Leave? ==> o == g.exit.AsOutcome() && unchanged(store))
      && (g.Admit? && lookupFault.Some? ==>
            o == Threw(Error(MessageOr(lookupFault.value, UpdateFailed))) && unchanged(store))
      && (g.Admit? && lookupFault.None? && g.data.id !in old(store.posts) ==> o == Threw(Error(NotFound)) && unchanged(store))
      && (found && !owned ==> o == Threw(Error(NoUpdatePermission)) && unchanged(store))
      && (owned && writeFault.Some? ==> o == Threw(Error(MessageOr(writeFault.value, UpdateFailed))) && unchanged(store))
      && (owned && writeFault.None? ==>
            && o == Returned(g.data.id)
            && store.posts == old(store.posts)[g.data.id := old(store.posts)[g.data.id].(
                 content := g.data.content, contentHtml := StoredHtml(g.data.contentHtml),
                 preview := StoredPreview(g.data.preview), updatedAt := store.clock)]
            && store.order == old(store.order)
            && store.clock == old(store.clock) + tick)
  {
    match WithAuthGate(auth, UpdateSchema(isUrl), render, input)
    case Leave(x) =>
      o := x.AsOutcome();
    case Admit(d, userId) =>
      o := UpdateFor(store, userId, d, tick, lookupFault, writeFault);
  }

  /** `deletePost(data)`: `withAuth` around the delete handler. */
  method DeletePost(store: Store, auth: AuthOutcome, render: IssueRenderer,
                    input: Json, tick: nat, lookupFault: Option<Exception>, writeFault: Option<Exception>)
    returns (o: Outcome<bool>)
    requires store.Valid()
    modifies store
    ensures store.Valid()
    ensures o.Redirected? <==> auth.AuthReturned? && !Authenticated(auth.session)
    ensures var g := WithAuthGate(auth, DeleteSchema(), render, input);
      var found := g.Admit? && lookupFault.None? && g.data.id in old(store.posts);
      var owned := found && old(store.posts)[g.data.id].userId == g.userId;
      && (g.Leave? ==> o == g.exit.AsOutcome() && unchanged(store))
      && (g.Admit? && lookupFault.Some? ==>
            o == Threw(Error(MessageOr(lookupFault.value, DeleteFailed))) && unchanged(store))
      && (g.Admit? && lookupFault.None? && g.data.id !in old(store.posts) ==> o == Threw(Error(NotFound)) && unchanged(store))
      && (found && !owned ==> o == Threw(Error(NoDeletePermission)) && unchanged(store))
      && (owned && writeFault.Some? ==> o == Threw(Error(MessageOr(writeFault.value, DeleteFailed))) && unchanged(store))
      && (owned && writeFault.None? ==>
            && o == Returned(true)
            && store.posts == old(store.posts)[g.data.id := old(store.posts)[g.data.id].(deletedAt := Some(store.clock))]
            && store.order == old(store.order)
            && store.clock == old(store.clock) + tick)
  {
    match WithAuthGate(auth, DeleteSchema(), render, input)
    case Leave(x) =>
      o := x.AsOutcome();
    case Admit(d, userId) =>
      o := DeleteFor(store, userId, d, tick, lookupFault, writeFault);
  }

  // ---- Listing ----

  /** The parsed listing query: a page size and an optional cursor id. */
  datatype ListQuery = ListQuery(limit: int, cursor: Option<string>)

  /** `z.object({ limit: z.number().optional().default(10), cursor: z.string().optional() })`. */
  function ParseListQuery(v: Json): (r: SchemaOutcome<ListQuery>)
    ensures r.Parsed? <==>
      && v.JObj?
      && (Property(v, "limit").None? || Property(v, "limit").value.JNum?)
      && (Property(v, "cursor").None? || Property(v, "cursor").value.JStr?)
    ensures r.Parsed? ==>
      && (r.data.limit == if Property(v, "limit").None? then DefaultLimit else Property(v, "limit").value.n)
      && (r.data.cursor.Some? <==> Property(v, "cursor").Some?)
      && (r.data.cursor.Some? ==> r.data.cursor.value == Property(v, "cursor").value.s)
    ensures r.Rejected? ==> |r.issues| > 0
    ensures !r.Crashed?
  {
    if !v.JObj? then Rejected(NotAnObject(v))
    else
      var limit := Property(v, "limit");
      var cursor := Property(v, "cursor");
      var limitIssues := if limit.None? || limit.value.JNum? then [] else [TypeIssue(["limit"], "number", limit)];
      var cursorIssues := if cursor.None? || cursor.value.JStr? then [] else [TypeIssue(["cursor"], "string", cursor)];
      if limitIssues + cursorIssues != [] then Rejected(limitIssues + cursorIssues)
      else
        Parsed(ListQuery(
          if limit.None? then DefaultLimit else limit.value.n,
          if cursor.None? then None else Some(cursor.value.s)))
  }

  /** `cursor ? { id: cursor } : undefined`: an empty cursor string means no cursor. */
  function EffectiveCursor(cursor: Option<string>): (c: Option<PostId>)
    ensures c.Some? <==> cursor.Some? && cursor.value != ""
    ensures c.Some? ==> c == cursor
  {
    if cursor.Some? && cursor.value != "" then cursor else None
  }

  /**
   * The listing handler shared by both `getPosts`: fetch `limit + 1` live rows newest first
   * from the cursor, and keep the extra row's id as `nextCursor`. The popped row is never on
   * the page, and pages chain (see `PostStore.Store.CursorResumes`).
   */
  method ListPage(store: Store, q: ListQuery, fault: Option<Exception>) returns (o: Outcome<PageResult>)
    requires store.Valid() && q.limit >= 0
    ensures fault.Some? ==> o == Threw(Error(ListFailed))
    ensures fault.None? ==> o.Returned?
    ensures o.Returned? ==>
      var rows := store.FromCursor(EffectiveCursor(q.cursor));
      var page := o.value;
      && page.posts == Take(rows, q.limit)
      && |page.posts| <= q.limit
      && (page.nextCursor.Some? <==> |rows| > q.limit)
      && (page.nextCursor.Some? ==>
            page.nextCursor.value == rows[q.limit].id
            && forall k :: 0 <= k < |page.posts| ==> page.posts[k].id != page.nextCursor.value)
      && NewestFirst(page.posts)
      && (forall k :: 0 <= k < |page.posts| ==>
            page.posts[k].id in store.posts && page.posts[k].post.deletedAt.None?)
  {
    if fault.Some? {
      return Threw(Error(ListFailed));
    }
    var rows := store.FromCursor(EffectiveCursor(q.cursor));
    store.FromCursorRows(EffectiveCursor(q.cursor));
    var fetched := store.FindMany(EffectiveCursor(q.cursor), q.limit + 1);
    var page := SplitPage(fetched, q.limit);
    assert forall k :: 0 <= k < |page.posts| ==> page.posts[k] == rows[k];
    o := Returned(page);
  }

  /**
   * Pages chain: when a listing has more than `limit` rows, the listing that starts at the
   * returned `nextCursor` is exactly the rest, so the next page neither skips nor repeats a post.
   */
  lemma NextPageContinues(store: Store, cursor: Option<string>, limit: nat)
    requires store.Valid()
    requires |store.FromCursor(EffectiveCursor(cursor))| > limit
    ensures var rows := store.FromCursor(EffectiveCursor(cursor));
      store.FromCursor(EffectiveCursor(Some(rows[limit].id))) == rows[limit..]
  {
    store.FromCursorResumes(EffectiveCursor(cursor), limit);
  }

  /** The value `getPosts` hands to `withoutAuth`: `{ limit: data.limit ?? 10, cursor: data.cursor }`. */
  function ListInput(limit: Option<int>, cursor: Option<string>): (v: Json)
    ensures ParseListQuery(v) == Parsed(ListQuery(limit.GetOr(DefaultLimit), cursor))
  {
    var fields := map["limit" := JNum(limit.GetOr(DefaultLimit))];
    JObj(if cursor.Some? then fields["cursor" := JStr(cursor.value)] else fields)
  }

  /**
   * `getPosts(data)`, public. The typed arguments always pass the query schema, so the
   * listing handler always runs.
   */
  method GetPosts(store: Store, limit: Option<int>, cursor: Option<string>, fault: Option<Exception>)
    returns (o: Outcome<PageResult>)
    requires store.Valid() && limit.GetOr(DefaultLimit) >= 0
    ensures fault.Some? ==> o == Threw(Error(ListFailed))
    ensures fault.None? ==> o.Returned?
    ensures o.Returned? ==>
      var lim := limit.GetOr(DefaultLimit);
      var rows := store.FromCursor(EffectiveCursor(cursor));
      && o.value.posts == Take(rows, lim)
      && (o.value.nextCursor.Some? <==> |rows| > lim)
      && (o.value.nextCursor.Some? ==> o.value.nextCursor.value == rows[lim].id)
  {
    var query := ParseListQuery(ListInput(limit, cursor));
    o := ListPage(store, query.data, fault);
  }
}
