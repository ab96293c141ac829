# A verified model of the Next.js boilerplate's application logic

This project models the logic of a Next.js 15 boilerplate in Dafny and proves properties of that
model. It does not model the user interface. The boilerplate is a small posting application with
sign-in, a posts table, link previews and security headers. The model covers these pieces:

- **Post server actions.** Create, update, soft delete and cursor-paginated listing. There are two
  versions, `post.ts` and the older `post-actions.ts`.
  - The posts table is a class over a map from post id to row.
  - Update and delete check that the post exists, then that the caller owns it.
  - A delete only sets `deletedAt`.
  - A listing fetches `limit + 1` live rows, newest first, from a cursor. It pops the extra row and
    returns that row's id as `nextCursor`.
- **Action wrappers.** These fix the order in which a server action authenticates the caller,
  validates the input, runs, and turns its outcome into a result.
  - `actionHandler` and `actionHandlerWithAuth` return result values.
  - `withAuth` and `withoutAuth`, in two files, throw errors or redirect.
  - The older post actions validate before authenticating; all the other wrappers authenticate first.
- **Validation.** The post schemas, as the functions Zod makes of them, together with
  `validateData` and `formatZodError`.
- **Post list component.** How the component merges pages, refreshes, loads more, and picks what
  to render.
- **The `url-meta` route.** Its status mapping and its title, description and image fallback chains.
- **Link-preview routing.** Which preview a link gets (YouTube, Threads or site), and how the
  Threads embed takes a URL apart and tracks its loading state.
- **Sitemap.** The route × locale loop that generates the sitemap.
- **Middleware.** The Content-Security-Policy whitespace normalisation and the headers it sets.
- **Error boundary.** Its state machine.

## How abstract inputs are handled

Whatever the program gets from outside its own code is a parameter of the model:

- Authentication is an `AuthOutcome`: a session, possibly none, or a thrown value.
- A Zod schema is a function from a JSON value to `Parsed`, `Rejected(issues)` or `Crashed`.
- Zod's `.url()` check is the `isUrl` parameter.
- `JSON.stringify(error.format())` is a `render` parameter.
- The upstream `fetch` and the parsed HTML page are oracles.
- The `URL` constructor of the Threads preview is an oracle.
- A failing database call is a parameter: `fault` for create and list, and `lookupFault` and `writeFault` for the `findUnique` and `update` of update and delete.
- `new Date()` comes from a store clock, which the `tick` parameter advances.
- The CSP nonce is a parameter.

A JavaScript action can end in three ways, and `Runtime.Outcome` has one case for each:
`Returned(value)`, `Threw(exception)` and `Redirected(location)`. Next.js's `redirect` is the
third case.

Files: one module per source file under `src/`, plus shared modules:
- `wrappers.dfy`: `Option` and JavaScript's `undefined`/`null`
- `runtime.dfy`: JSON values, exceptions, outcomes and sessions
- `strings.dfy`: the `String.prototype` operations the code uses
- `post_store.dfy`: the posts table

## Model

| member | source | states |
|---|---|---|
| Runtime.Property | src/lib/validations/post.ts:6-24 | reading a key of an object yields the field's value exactly when the value is an object with that key, and `undefined` otherwise |
| Runtime.MessageOr | src/lib/server/action-handler.ts:100-103 | `error instanceof Error ? error.message : fallback`: the Error's message, or the fallback for any other thrown value |
| Strings.Includes | src/components/editor/previews/threads-preview.tsx:48 | `s.includes(t)` is true exactly when `t` occurs in `s` at some position |
| Strings.IncludesStep | src/components/editor/previews/threads-preview.tsx:48 | when `t` is not a prefix of `s`, an occurrence in `s` is an occurrence in `s[1..]`, shifted by one, and the converse also holds |
| Strings.Split | src/components/editor/previews/threads-preview.tsx:47 | `split('/')` yields at least one piece, and no piece contains the separator |
| Strings.JoinSplit | src/components/editor/previews/threads-preview.tsx:47 | joining the pieces of a split with the separator gives back the original pathname |
| Strings.SplitNoSeparator | src/components/editor/previews/threads-preview.tsx:47 | a string without the separator splits into itself alone |
| Strings.SplitAround | src/components/editor/previews/threads-preview.tsx:47 | splitting `a + sep + b` gives the pieces of `a` followed by the pieces of `b` |
| Strings.SplitLength | src/components/editor/previews/threads-preview.tsx:47 | a split has exactly one piece more than the string has separators |
| Strings.FirstIndex | src/components/editor/previews/threads-preview.tsx:52 | the position found holds `c`, and no earlier position does |
| Strings.RemoveFirst | src/components/editor/previews/threads-preview.tsx:52 | `replace('@', '')` is one character shorter exactly when '@' occurs, and the same length otherwise |
| Strings.RemoveFirstDeletes | src/components/editor/previews/threads-preview.tsx:52 | without an '@' the string is unchanged; otherwise exactly the first '@' is deleted and every other character is kept in place |
| Strings.Digits | src/lib/actions/post.ts:30-37 | the decimal text of a row number, used as the generated post id, is never empty |
| Strings.DigitsInjective | src/lib/actions/post.ts:30-37 | different row numbers give different ids, so generated ids never collide |
| Validations.ValidateData | src/lib/validations/index.ts:22-42 | a successful parse is `{success: true, data}` with the parsed value; a ZodError is `{success: false, error}` with its issues; any other exception propagates unchanged. Each holds in both directions |
| Validations.FormatZodError | src/lib/validations/index.ts:49-58 | the keys are exactly the dot-joined paths of the issues; each key holds the message of the last issue with that path |
| PostSchemas.StringField | src/lib/validations/post.ts:35 | `z.string()` accepts exactly string values and keeps them; otherwise it reports one type issue at the field's path ("Required" when the field is absent) |
| PostSchemas.ContentField | src/lib/validations/post.ts:7-10 | content is accepted exactly when it is a string of 1 to 10000 characters; a rejection lists at least one issue, all at the `content` path |
| PostSchemas.DefaultedStringField | src/lib/validations/post.ts:11-14 | an absent `contentHtml` becomes "<p></p>"; a string is kept as it is; any other value is rejected |
| PostSchemas.OptionalStringField | src/lib/validations/post.ts:17-19 | an absent field is accepted as absent; a present field is accepted only as a string passing the extra check, and is then kept |
| PostSchemas.NullishStringField | src/lib/validations/post.ts:20 | `image` is accepted exactly when it is absent, null or a string, and keeps which of the three it was |
| PostSchemas.PreviewField | src/lib/validations/post.ts:15-23 | `preview` may be absent or null and keeps that; an accepted present preview came from an object; the empty object is accepted with every field absent |
| PostSchemas.ParseCreatePost | src/lib/validations/post.ts:6-24 | `createPostSchema.safeParse`: never throws, and accepts only objects. Its field rules are stated by CreateContentBounds, CreateRejectsBadContent, CreateDefaults and EmptyPreviewAccepted |
| PostSchemas.ParseUpdatePost | src/lib/validations/post.ts:34-53 | `updatePostSchema.safeParse`: never throws, and accepts only objects. UpdateIsCreateWithId states its relation to the create schema |
| PostSchemas.ParseDeletePost | src/lib/validations/post.ts:63-65 | `deletePostSchema.safeParse`: never throws, and accepts only objects; DeleteAcceptsIffStringId states exactly what it accepts |
| PostSchemas.CreateContentBounds | src/lib/validations/post.ts:6-10 | accepted create input has a string `content` of 1 to 10000 characters, and the parsed content is that string |
| PostSchemas.CreateRejectsBadContent | src/lib/validations/post.ts:7-10 | content outside 1..10000 is rejected whatever the other fields hold, with an issue at the `content` path |
| PostSchemas.CreateDefaults | src/lib/validations/post.ts:11-23 | in-bounds content with no `contentHtml` and an absent or null preview parses to content, "<p></p>" and that absence or null |
| PostSchemas.EmptyPreviewAccepted | src/lib/validations/post.ts:15-21 | an empty preview object is accepted, with every preview field absent |
| PostSchemas.UpdateIsCreateWithId | src/lib/validations/post.ts:34-53 | the update schema accepts exactly the inputs that the create schema accepts and that carry a string `id`; it parses them to that id and the same content, HTML and preview |
| PostSchemas.DeleteAcceptsIffStringId | src/lib/validations/post.ts:63-65 | the delete schema accepts exactly the objects whose `id` is a string, and keeps that id |
| PostSchemas.RejectionsHaveIssues | src/lib/validations/post.ts:6-65 | every rejection by the three schemas lists at least one issue |
| ActionHandler.RequireAuthSession | src/lib/server/action-handler.ts:27-47 | the session is returned exactly when it has a user id; otherwise "로그인이 필요합니다."; an exception from `auth()` becomes a failure carrying the error's message or its string form, never a throw |
| ActionHandler.FromException | src/lib/server/action-handler.ts:98-109 | a caught Error gives "작업 처리 중 오류 발생: " + its message; any other thrown value gives that prefix + the default text; the caught value is kept as the detail |
| ActionHandler.Validate | src/lib/server/action-handler.ts:75-90 | without a schema the raw input goes on; with one, the parsed data goes on; a rejection stops with "입력 값이 유효하지 않습니다." and the flattened issues; a crash is caught |
| ActionHandler.Normalise | src/lib/server/action-handler.ts:92-109 | success exactly when `fn` completed, carrying its value; otherwise the caught-exception failure |
| ActionHandler.RunAction | src/lib/server/action-handler.ts:65-111 | a halted validation is the result; otherwise, `fn`'s completion on the raw input (no schema) or on the parsed data (schema) is normalised |
| ActionHandler.RunActionWithAuth | src/lib/server/action-handler.ts:132-189 | an authentication failure is returned as it is; then validation; then `fn` on the session and the validated input |
| ActionHandler.RejectedInputSkipsAction | src/lib/server/action-handler.ts:76-88 | for rejected input the result is the same for every `fn`, and it is the "입력 값이 유효하지 않습니다." failure |
| ActionHandler.UnauthenticatedSkipsEverything | src/lib/server/action-handler.ts:143-146 | unauthenticated, the result is the same for every schema and every `fn`, and it is an authentication failure |
| ActionHandler.AuthenticatedIsPlainHandler | src/lib/server/action-handler.ts:150-168 | once authenticated, `actionHandlerWithAuth` equals `actionHandler` applied to `fn` with the session fixed as its first argument |
| ActionHandler.SuccessCarriesActionValue | src/lib/server/action-handler.ts:92-97 | a success means validation let the call through and `fn` returned exactly the reported data |
| AuthHandlers.ValidationError | src/lib/actions/auth-handlers.ts:49-54 | the thrown validation error is an Error whose message starts with "유효성 검사 실패: " |
| AuthHandlers.Exit.AsOutcome | src/lib/actions/auth-handlers.ts:41-54 | an early exit is the action's outcome: a throw stays a throw of the same value, and a redirect stays a redirect to the same location |
| AuthHandlers.CheckInput | src/lib/actions/auth-handlers.ts:47-55 | admitted exactly when the schema parses, carrying the parsed data; a rejection throws the prefixed error; a non-Zod exception propagates unchanged |
| AuthHandlers.WithAuthGate | src/lib/actions/auth-handlers.ts:35-57 | an exception from `auth()` propagates; a missing session or user id redirects to /auth/signin before any validation; then validation decides |
| AuthHandlers.WithAuth | src/lib/actions/auth-handlers.ts:29-61 | the handler runs only on admitted calls, with the parsed data and the session's user id; every other call ends with the gate's exit |
| AuthHandlers.FromEntriesKeys | src/lib/actions/auth-handlers.ts:82-85 | the object made from form entries has one property per distinct entry name |
| AuthHandlers.FromEntries | src/lib/actions/auth-handlers.ts:82-85 | `Object.fromEntries(formData.entries())`; FromEntriesKeys and FromEntriesLastWins state its keys and values |
| AuthHandlers.FromEntriesLastWins | src/lib/actions/auth-handlers.ts:82-85 | each property holds the value of the last entry with that name |
| AuthHandlers.ToObject | src/lib/actions/auth-handlers.ts:82-85 | plain input passes through; a form submission becomes an object whose keys are exactly its entry names |
| AuthHandlers.WithoutAuth | src/lib/actions/auth-handlers.ts:69-107 | the converted input is validated: valid input reaches the handler with the parsed data; a rejection throws the prefixed error; a crash propagates |
| AuthHandlers.UnauthenticatedRedirects | src/lib/actions/auth-handlers.ts:35-44 | without a session user id the outcome is the redirect to /auth/signin, the same for every schema, handler and input |
| AuthHandlers.RejectedInputThrows | src/lib/actions/auth-handlers.ts:47-55 | an authenticated call with rejected input throws the prefixed Error, and the outcome does not depend on the handler |
| AuthHandlers.HandlerSeesValidatedData | src/lib/actions/auth-handlers.ts:57 | an admitted call is the handler applied to the parsed data and `session.user.id` |
| AuthHandlers.FormInputIsValidatedAsObject | src/lib/actions/auth-handlers.ts:82-88 | a form submission behaves exactly as the plain object of its entries |
| AuthWrappers.WithAuth | src/lib/actions/auth.ts:29-53 | a missing session or user id redirects to /auth/signin; rejected input throws the prefixed error; valid input reaches the handler with the data and the user id |
| AuthWrappers.WithoutAuth | src/lib/actions/auth.ts:61-78 | validation, then the handler with the parsed data only; a rejection throws the prefixed error; a crash propagates |
| AuthWrappers.WithAuthVariantsAgree | src/lib/actions/auth.ts:29-53 | this `withAuth` behaves as the one in auth-handlers.ts on every input |
| AuthWrappers.WithoutAuthVariantsAgree | src/lib/actions/auth.ts:61-78 | on plain values this `withoutAuth` behaves as the one in auth-handlers.ts |
| PostStore.Take | src/lib/actions/post.ts:182 | `take: n` keeps the first `min(n, length)` rows, as a prefix |
| PostStore.IndexOf | src/lib/actions/post.ts:183 | the cursor row's position holds that id, and no earlier position does |
| PostStore.Store.constructor | src/lib/actions/post.ts:3 | the table starts empty and consistent |
| PostStore.Store.FindOwner | src/lib/actions/post.ts:65-68 | `findUnique` yields the owner exactly when the id is in the table |
| PostStore.Store.FromCursor | src/lib/actions/post.ts:178-186 | the rows `findMany` starts from: every live row without a cursor, the live rows from the cursor's row on, or none for an unknown id. FromCursorRows and FromCursorResumes state its properties |
| PostStore.Store.FindMany | src/lib/actions/post.ts:178-197 | `findMany({ take, cursor })` yields the first `take` rows of the cursor's listing, or all of them when fewer exist |
| PostStore.Store.Insert | src/lib/actions/post.ts:30-37 | `create` adds a row under a fresh id, created and updated now and not deleted, at the end of the creation order; the table stays consistent |
| PostStore.Store.UpdateContent | src/lib/actions/post.ts:79-87 | `update` changes only content, HTML, preview and `updatedAt` of that row; owner, `createdAt`, `deletedAt` and every other row stay |
| PostStore.Store.MarkDeleted | src/lib/actions/post.ts:132-137 | the soft delete sets only `deletedAt` of that row, and the row stays in the table |
| PostStore.Store.FromCursorRows | src/lib/actions/post.ts:178-186 | for any cursor the listing is newest first, has no repeated id, and holds only live rows with their current fields |
| PostStore.Store.FromCursorResumes | src/lib/actions/post.ts:182-183 | starting at the id of the `j`-th listed row gives the listing from its `j`-th row on, and that id is never empty |
| PostStore.FreshId | src/lib/actions/post.ts:30-37 | the next generated id is not yet in the table |
| PostStore.AppendRow | src/lib/actions/post.ts:30-37 | appending a row created no earlier than the others keeps the table consistent |
| PostStore.OrderDistinct | src/lib/actions/post.ts:30-37 | no id is created twice |
| PostStore.LiveOf | src/lib/actions/post.ts:179-186 | the rows with `deletedAt == null` among the first `m` created, newest first; LiveRows, LiveNewestFirst and LiveDistinct state its properties |
| PostStore.FromCursorOf | src/lib/actions/post.ts:183 | `cursor ? { id: cursor } : undefined` applied to the live listing; CursorAtRow and CursorResumes state its properties |
| PostStore.LiveRows | src/lib/actions/post.ts:179-181 | every row listed is a row of the table with its current fields and `deletedAt == null` |
| PostStore.EarlierIds | src/lib/actions/post.ts:178-186 | rows created before a row have other ids than it |
| PostStore.NextOlder | src/lib/actions/post.ts:184-186 | the next listed row is no newer than the row before it |
| PostStore.LiveNewestFirst | src/lib/actions/post.ts:184-186 | the listing is ordered by `createdAt` descending |
| PostStore.LiveDistinct | src/lib/actions/post.ts:178-186 | no post is listed twice |
| PostStore.CursorAtRow | src/lib/actions/post.ts:183 | a cursor naming a row starts the listing at that row |
| PostStore.CursorResumes | src/lib/actions/post.ts:182-204 | restarting at a listed row's id lists exactly the rows from that one on, so paging neither skips nor repeats a row |
| PostStore.TailSuffix | src/lib/actions/post.ts:183 | past a prefix, indexing and slicing a concatenation only see its second part |
| PostStore.NewestFirstOrdered | src/lib/actions/post.ts:184-186 | along a newest-first listing, every earlier row is at least as new as every later one |
| PostStore.PrependDistinct | src/lib/actions/post.ts:178-186 | putting a row with a new id in front keeps the ids distinct |
| PostStore.PrependNewest | src/lib/actions/post.ts:184-186 | putting a row no older than the first in front keeps the order newest first |
| PostStore.SplitPage | src/lib/actions/post.ts:199-211 | with more than `limit` rows fetched the last is popped and its id is `nextCursor`; the page is the first `limit` rows; `nextCursor` is defined exactly when more than `limit` were fetched |
| PostActions.StoredHtml | src/lib/actions/post.ts:34 | `contentHtml \|\| "<p></p>"`: the empty string becomes "<p></p>", anything else is kept, and the stored value is never empty |
| PostActions.StoredPreview | src/lib/actions/post.ts:35 | `preview \|\| null`: a present preview object is stored, and an absent or null one becomes null |
| PostActions.NewPost | src/lib/actions/post.ts:30-37 | the row `create` inserts: the caller as owner, the content, `StoredHtml` and `StoredPreview` of the data, both timestamps `now`, not deleted. CreateFor and CreatePost state where it is stored |
| PostActions.CreateFor | src/lib/actions/post.ts:25-49 | a database error becomes the fixed "게시글을 생성하는 중 오류가 발생했습니다." and nothing is written; otherwise one new row owned by the caller is added under a fresh id |
| PostActions.UpdateFor | src/lib/actions/post.ts:62-102 | a failing `findUnique` rethrows its own message (or the fixed update text) before any check. Then a missing post fails "게시글을 찾을 수 없습니다.", then a non-owner fails "게시글을 수정할 권한이 없습니다.". A failing `update` rethrows its own message. None of these writes. Otherwise only the content fields and `updatedAt` of that row change |
| PostActions.DeleteFor | src/lib/actions/post.ts:115-151 | a failing `findUnique` rethrows before any check; then a missing post, then a non-owner, fails; a failing `update` rethrows; none of these writes. Otherwise the row stays and only `deletedAt` is set |
| PostActions.CreatePost | src/lib/actions/post.ts:20-53 | a redirect happens exactly for a signed-out caller; every early exit and a database error write nothing; an admitted call stores the caller's row with the defaulted HTML and preview, under a fresh id, at the advanced clock |
| PostActions.UpdatePost | src/lib/actions/post.ts:59-106 | `withAuth` around the update handler: a redirect happens exactly for a signed-out caller. For an admitted call, every case of `UpdateFor` holds: a failing lookup, a missing post, a non-owner and a failing write all throw with no write. The owner's update changes only the content fields, keeps the creation order and advances the clock |
| PostActions.DeletePost | src/lib/actions/post.ts:112-155 | `withAuth` around the delete handler: for an admitted call, a failing lookup, a missing post, a non-owner and a failing write all throw with no write; the owner's delete only sets `deletedAt` |
| PostActions.ParseListQuery | src/lib/actions/post.ts:162-165 | the query parses exactly when `limit` is absent or a number and `cursor` is absent or a string; the limit defaults to 10; a rejection lists issues |
| PostActions.EffectiveCursor | src/lib/actions/post.ts:183 | `cursor ? { id: cursor } : undefined`: an empty cursor means no cursor |
| PostActions.ListPage | src/lib/actions/post.ts:173-217 | a database error throws the fixed message. Otherwise the page has at most `limit` rows and is the prefix of the newest-first live listing from the cursor. `nextCursor` is defined exactly when more rows exist, is the next row's id, and is not on the page |
| PostActions.NextPageContinues | src/lib/actions/post.ts:199-211 | the listing from the returned `nextCursor` is exactly the rest of the listing, so the next page neither skips nor repeats a post |
| PostActions.ListInput | src/lib/actions/post.ts:168-171 | `{ limit: data.limit ?? 10, cursor: data.cursor }` always passes the query schema, with those values |
| PostActions.GetPosts | src/lib/actions/post.ts:161-220 | `getPosts(data)` pages the live rows newest first from the cursor, with `limit` defaulting to 10, and sets `nextCursor` as the popped row's id; a database error throws the fixed message |
| PostActionsLegacy.SessionUser | src/lib/actions/post-actions.ts:27-30 | the user id is admitted exactly when the session has one; otherwise a redirect to /auth/signin, or the exception from `auth()` |
| PostActionsLegacy.SafeParse | src/lib/actions/post-actions.ts:19-24 | accepted exactly when the schema parses; a rejection throws the prefixed error |
| PostActionsLegacy.CheckThenAuth | src/lib/actions/post-actions.ts:19-30 | rejected input throws the validation error whatever the session; valid input then goes through the session check |
| PostActionsLegacy.ValidationPrecedesAuth | src/lib/actions/post-actions.ts:19-30 | for invalid input the exit is a throw, the same for every `auth()` outcome, so a signed-out caller sees the validation error and not the redirect |
| PostActionsLegacy.OrdersAgreeOnValidInput | src/lib/actions/post-actions.ts:19-30 | on valid input the older order gives the same admission or exit as `withAuth` |
| PostActionsLegacy.CreatePost | src/lib/actions/post-actions.ts:17-51 | invalid input throws and writes nothing; a redirect happens exactly for valid input from a signed-out caller; otherwise the caller's row is stored with the defaulted HTML and preview |
| PostActionsLegacy.UpdatePost | src/lib/actions/post-actions.ts:56-110 | invalid input throws first; a redirect happens exactly for valid input from a signed-out caller. Then a failing lookup, a missing post, a non-owner and a failing write all throw with no write. The owner's update changes only the content fields and advances the clock |
| PostActionsLegacy.DeletePost | src/lib/actions/post-actions.ts:115-165 | invalid input throws first; then a failing lookup, a missing post, a non-owner and a failing write all throw with no write; the owner's delete only sets `deletedAt` |
| PostActionsLegacy.GetPosts | src/lib/actions/post-actions.ts:171-224 | an invalid query throws the prefixed error; otherwise a page of at most `limit` live rows newest first from the cursor, with `nextCursor` the id of the popped row |
| PostList.AsWritten | src/components/post/post-list.tsx:60-70 | read as an envelope, a returned page of `getPosts` has neither `serverError` nor `data` |
| PostList.Wrapped | src/components/post/post-list.tsx:60-70 | the intended reading: a returned page is the envelope's `data`, and a failure is a failed call |
| PostList.AsWrittenNeverCarriesData | src/lib/actions/post.ts:208-211 | as written, no reply of `getPosts` ever carries the `data` the component needs |
| PostList.Component.constructor | src/components/post/post-list.tsx:40-44 | no posts, loading, no cursor, no "more" button, refresh key 0 |
| PostList.Component.FetchPosts | src/components/post/post-list.tsx:47-92 | a page is appended when a cursor was given and replaces the list otherwise; `hasMore` follows the new cursor; a server error or missing data changes nothing; loading is false afterwards either way |
| PostList.Component.LoadAsWritten | src/components/post/post-list.tsx:52-70 | fetching with the reply read as written never changes the list, the cursor or `hasMore`, and ends loading |
| PostList.Component.Load | src/components/post/post-list.tsx:47-92 | fetching with the intended reading merges a returned page as above and leaves the state alone on a failure |
| PostList.Component.RefreshPosts | src/components/post/post-list.tsx:95-108 | with the intended reading: the refresh key goes up by one and the cursor-less fetch replaces the list |
| PostList.Component.RefreshPostsAsWritten | src/components/post/post-list.tsx:95-108 | as written, where the fetch reads the reply as lines 60-70 do: the refresh key goes up by one, loading ends, and the list, the cursor and `hasMore` stay as they were |
| PostList.Component.HandleLoadMore | src/components/post/post-list.tsx:110-115 | with the intended reading: without a next cursor nothing changes. With one, a returned page is appended and loading ends. A failed fetch leaves the list, the cursor and `hasMore` as they were, and also ends loading |
| PostList.Component.HandleLoadMoreAsWritten | src/components/post/post-list.tsx:110-115 | as written, where the fetch reads the reply as lines 60-70 do: the list, the cursor and `hasMore` never change; with a next cursor loading ends, without one it is left as it was |
| PostList.Component.Render | src/components/post/post-list.tsx:117-203 | the skeleton exactly while loading an empty list; the empty message exactly when it is idle and empty; otherwise the list, with the "more" button exactly when `hasMore` holds, disabled while loading |
| PostList.MountAsWritten | src/components/post/post-list.tsx:60-70 | as written, mounting shows the empty message whatever `getPosts` returns |
| PostList.MountIntended | src/components/post/post-list.tsx:47-147 | with the intended reading, mounting shows the first page, with the "more" button exactly when a next cursor came back |
| UrlMeta.FirstTruthy | src/app/api/url-meta/route.ts:30-46 | the `\|\|` chain yields the first non-empty candidate, and yields nothing exactly when none is non-empty |
| UrlMeta.Extract | src/app/api/url-meta/route.ts:29-53 | the metadata read from a parsed page, echoing the url; SuccessFields states each fallback chain |
| UrlMeta.Get | src/app/api/url-meta/route.ts:4-61 | a missing or empty `url` is 400 "URL is required"; a non-OK response is 500 "Failed to fetch URL"; a throw is 500 "Failed to fetch URL metadata"; status 200 exactly with metadata, which echoes the `url` |
| UrlMeta.MissingUrlSkipsFetch | src/app/api/url-meta/route.ts:5-9 | without a `url` the response is the same for every upstream |
| UrlMeta.NotOkSkipsParsing | src/app/api/url-meta/route.ts:18-23 | a non-OK response gives 500 "Failed to fetch URL" whatever its body |
| UrlMeta.SuccessFields | src/app/api/url-meta/route.ts:29-53 | title is the title text or ""; description is meta description, else og:description, else ""; image is og:image, else twitter:image, else null, and never "" |
| LinkPreviews.Classify | src/components/editor/link-previews.tsx:48-67 | YouTube exactly when the YouTube pattern matches; Threads exactly when only the Threads pattern matches; a site preview otherwise |
| LinkPreviews.IsYouTube | src/components/editor/link-previews.tsx:50-52 | the test `/^(https?:\/\/)?(www\.)?(youtube\.com\|youtu\.be)\/.+$/`, for each choice of its groups; TestsDisjoint, LeadAt and the example lemmas state its properties |
| LinkPreviews.IsThreads | src/components/editor/link-previews.tsx:55-56 | the same test with the Threads hosts `threads.net` and `threads.com` |
| LinkPreviews.Render | src/components/editor/link-previews.tsx:15-42 | nothing exactly for no links; otherwise a preview of the first link, and the remove button passes that link |
| LinkPreviews.OnlyFirstLinkMatters | src/components/editor/link-previews.tsx:19 | links after the first make no difference |
| LinkPreviews.TestsDisjoint | src/components/editor/link-previews.tsx:50-56 | no URL matches both patterns |
| LinkPreviews.CheckOrderIrrelevant | src/components/editor/link-previews.tsx:58-66 | testing Threads first would classify every URL in the same way |
| LinkPreviews.LeadAt | src/components/editor/link-previews.tsx:50 | a matched URL starts with its scheme and `www.` choice, followed by the host's first letter |
| LinkPreviews.LeadChars | src/components/editor/link-previews.tsx:50-56 | no scheme-and-`www.` lead contains a 'y', and none continues a shorter lead with a 't' |
| LinkPreviews.HeadThenTail | src/components/editor/link-previews.tsx:50-56 | a head of the pattern followed by one or more non-line-terminator characters matches |
| LinkPreviews.WatchUrlIsYouTube | src/components/editor/link-previews.tsx:50 | "https://www.youtube.com/watch?v=abc" is a YouTube link |
| LinkPreviews.ShortUrlIsYouTube | src/components/editor/link-previews.tsx:50 | "youtu.be/abc" is a YouTube link |
| LinkPreviews.ThreadsComIsThreads | src/components/editor/link-previews.tsx:55-56 | "https://www.threads.com/@user/post/1" is a Threads link |
| LinkPreviews.ThreadsNetIsThreads | src/components/editor/link-previews.tsx:55-56 | "http://threads.net/@user" is a Threads link |
| ThreadsPreview.GetThreadsData | src/components/editor/previews/threads-preview.tsx:44-60 | the url is kept. An unparseable URL yields only it. Otherwise: `username` is the second path piece without its first '@', present exactly when that piece exists; `postId` is the fourth piece when non-empty, else the second; `domain` is threads.com exactly when the host contains it, else threads.net |
| ThreadsPreview.PostUrlParts | src/components/editor/previews/threads-preview.tsx:47-53 | `/@user/post/id` yields the user name without '@', the post id and the domain |
| ThreadsPreview.PathParts | src/components/editor/previews/threads-preview.tsx:47 | `/@user/post/id` splits into "", "@user", "post" and the id |
| ThreadsPreview.ProfileUrlFallsBack | src/components/editor/previews/threads-preview.tsx:53 | a profile URL `/@user` has no fourth piece, so the post id falls back to "@user" |
| ThreadsPreview.ScriptSrc | src/components/editor/previews/threads-preview.tsx:220 | the embed script is served from the parsed domain, defaulting to threads.net |
| ThreadsPreview.Component.constructor | src/components/editor/previews/threads-preview.tsx:38-40 | script not loaded, loading, only the URL known |
| ThreadsPreview.Component.ReadUrl | src/components/editor/previews/threads-preview.tsx:43-68 | the data is replaced by `getThreadsData(url)`. When a post id was found, loading is set again and the embed waits for a new `process()`; otherwise loading and that wait are kept as they were. The script state is unchanged |
| ThreadsPreview.Component.InitEmbed | src/components/editor/previews/threads-preview.tsx:71-82 | loading ends exactly when the embed API is installed and `process()` returns; otherwise nothing changes |
| ThreadsPreview.Component.HandleScriptLoad | src/components/editor/previews/threads-preview.tsx:85-90 | marks the script loaded and changes nothing else |
| ThreadsPreview.Component.StyleEffect | src/components/editor/previews/threads-preview.tsx:108-111 | with the script loaded and a working API the embed initialises; otherwise loading is unchanged |
| ThreadsPreview.Component.Render | src/components/editor/previews/threads-preview.tsx:125-224 | the invalid-URL card exactly without a post id; the placeholder exactly while loading a valid one; the embed links the url with id `ig-tp-<postId>`; the script source follows the domain |
| ThreadsPreview.Component.EmbedAfterProcess | src/components/editor/previews/threads-preview.tsx:71-81 | the embed is shown only after `Embeds.process()` has succeeded since the current post's URL was read |
| ThreadsPreview.UnparseableShowsInvalidCard | src/components/editor/previews/threads-preview.tsx:56-59 | an unparseable URL shows the invalid-URL card, in every state of the embed |
| Sitemap.BaseUrl | src/app/sitemap.ts:4 | the environment URL when it is set and non-empty, otherwise "http://localhost:3000" |
| Sitemap.LocalePrefix | src/app/sitemap.ts:18 | the locale adds no path segment exactly for "en" |
| Sitemap.EntryFor | src/app/sitemap.ts:17-28 | the entry for one route and locale; UrlIsOwnAlternate, HomeEntries and SignInEntries state its values |
| Sitemap.Build | src/app/sitemap.ts:3-38 | exactly \|routes\| × \|locales\| entries; entry `k` is for route `k / \|locales\|` and locale `k % \|locales\|` (routes outer, locales inner); the four entries are the home page and the sign-in page in en and ko, daily, with their priorities and alternates |
| Sitemap.UrlIsOwnAlternate | src/app/sitemap.ts:18-27 | an entry's url is the alternate listed for its own locale |
| Sitemap.HomeEntries | src/app/sitemap.ts:18-27 | the home route's entries are `base` and `base/ko`, at the top priority, with alternates `base` and `base/ko` |
| Sitemap.SignInEntries | src/app/sitemap.ts:18-27 | the sign-in route's entries are `base/auth/signin` and `base/ko/auth/signin`, at the lower priority, with the matching alternates |
| Sitemap.SitemapEntries | src/app/sitemap.ts:15-30 | the generated list is exactly those four entries, in that order |
| Middleware.TrimStart | src/middleware.ts:24 | the result is no longer than the input, is shorter when the input starts with white space, and does not start with white space |
| Middleware.TrimStartShape | src/middleware.ts:24 | the result is a suffix of the input, and only white space was removed |
| Middleware.TrimEnd | src/middleware.ts:24 | the result is no longer than the input and does not end with white space |
| Middleware.TrimEndShape | src/middleware.ts:24 | the result is a prefix of the input, and only white space was removed |
| Middleware.Collapse | src/middleware.ts:23 | `replace(/\s{2,}/g, " ")` leaves the empty string empty and keeps whether the first character is white space, and which one it is when it is not |
| Middleware.CollapseNoAdjacent | src/middleware.ts:23 | after the collapse no two white-space characters are adjacent |
| Middleware.NoAdjacentSlice | src/middleware.ts:23-24 | a slice of a string without adjacent white space has none either |
| Middleware.NormalizedShape | src/middleware.ts:14-24 | the policy value has no leading or trailing white space and no two adjacent white-space characters |
| Middleware.NormalizePolicy | src/middleware.ts:23-24 | `replace(/\s{2,}/g, " ").trim()`; NormalizedShape, NormalizeIdempotent and NormalizeKeepsVisible state its properties |
| Middleware.PolicyTemplate | src/middleware.ts:14-22 | the policy template literal around `'nonce-<nonce>'`; PolicyCarriesNonce states that the nonce survives normalisation |
| Middleware.TrimKeepsNoAdjacent | src/middleware.ts:24 | trimming keeps the absence of adjacent white space |
| Middleware.TrimEnds | src/middleware.ts:24 | a trimmed string neither starts nor ends with white space |
| Middleware.CollapseFixed | src/middleware.ts:23 | a string without adjacent white space is left alone by the collapse |
| Middleware.TrimFixed | src/middleware.ts:24 | trimming a string with no white space at either end changes nothing |
| Middleware.NormalizeIdempotent | src/middleware.ts:23-24 | normalising twice is the same as normalising once |
| Middleware.VisibleConcat | src/middleware.ts:23-24 | the non-white-space characters of a concatenation are those of its parts |
| Middleware.VisibleAllWs | src/middleware.ts:24 | a string made only of white space has no visible characters |
| Middleware.CollapseKeepsVisible | src/middleware.ts:23 | the collapse keeps every character that is not white space, in order |
| Middleware.NormalizeKeepsVisible | src/middleware.ts:14-24 | normalising the policy keeps every character that is not white space, in order, so no directive text is lost |
| Middleware.TrimStartKeepsVisible | src/middleware.ts:24 | `trimStart` removes no visible character |
| Middleware.TrimEndKeepsVisible | src/middleware.ts:24 | `trimEnd` removes no visible character |
| Middleware.NonceSource | src/middleware.ts:16 | `'nonce-<nonce>'` is eight characters longer than the nonce, starts with a quote, and has no white space when the nonce has none |
| Middleware.CollapseSplits | src/middleware.ts:23 | the collapse works separately on the two sides of a point followed by a non-white-space character |
| Middleware.TrimStartAppend | src/middleware.ts:24 | trimming the start of `x + z` stops inside `x` when `x` has a visible character |
| Middleware.CollapseWord | src/middleware.ts:23 | a stretch without white space passes through the collapse unchanged |
| Middleware.TrimAround | src/middleware.ts:24 | trimming never cuts into a stretch without white space |
| Middleware.TrimStartBefore | src/middleware.ts:24 | `trimStart` stops at or before a stretch without white space |
| Middleware.TrimEndKeeps | src/middleware.ts:24 | `trimEnd` stops after a stretch without white space |
| Middleware.NonceSurvives | src/middleware.ts:14-24 | a nonce without white space survives normalisation, whatever surrounds it |
| Middleware.PolicyCarriesNonce | src/middleware.ts:13-24 | for such a nonce the policy sent names `'nonce-<nonce>'` as a script source |
| Middleware.Response.constructor | src/middleware.ts:10 | a response starts with exactly the headers its producer gives it; for `NextResponse.next()` these are Next.js's own headers, passed in |
| Middleware.Response.Set | src/middleware.ts:27-35 | `headers.set` replaces the value of that name and changes nothing else |
| Middleware.SetSecurityHeaders | src/middleware.ts:27-35 | the seven headers have their fixed values or the given policy and nonce; other headers are kept; no others are added |
| Middleware.Handle | src/middleware.ts:5-38 | the response is the auth result when there is one, with the seven headers added and its other headers kept; otherwise a new response holding the headers `NextResponse.next()` sets itself (a parameter, `nextHeaders`) plus the seven, with those of its own headers outside the seven kept. It carries the normalised policy, the fixed values and the nonce. For a nonce without white space the policy names the same nonce as `X-Nonce` |
| ErrorBoundary.Boundary.constructor | src/components/error-boundary.tsx:19-22 | the boundary starts without an error, with its props kept |
| ErrorBoundary.Boundary.Catch | src/components/error-boundary.tsx:24-26 | a caught error sets `hasError` and records that error |
| ErrorBoundary.Boundary.DidCatch | src/components/error-boundary.tsx:28-34 | `onError` receives the error exactly once when it was passed, and is not called otherwise |
| ErrorBoundary.Boundary.Reset | src/components/error-boundary.tsx:36-38 | reset clears `hasError` and the error |
| ErrorBoundary.Boundary.Render | src/components/error-boundary.tsx:46-135 | the children exactly when there is no error; the fallback exactly when there is an error and a fallback; otherwise the default screen, with error details exactly in development mode |
| ErrorBoundary.CatchThenReset | src/components/error-boundary.tsx:24-50 | a caught error replaces the children until reset, and after the reset the children are shown again |

## Left out

- Network, HTML parsing, database, identity provider: `fetch`, JSDOM, Prisma and NextAuth's `auth()` are oracles or parameters. Their internals are not modelled.
- Zod internals: the `.url()` check is the `isUrl` parameter and `error.format()` rendering is the `render` parameter. `error.flatten()` is kept as the issue list.
- Zod issue paths are strings. Numeric path elements (`[0]`) are not modelled.
- `revalidatePath` calls: cache invalidation has no effect on the state modelled.
- Console logging, everywhere.
- Clocks and randomness: timestamps are integers from the store clock advanced by `tick`; the sitemap's `new Date()` is one parameter `now` shared by all entries; the CSP nonce is a parameter, not `crypto.randomUUID` and base64.
- PostStore.Store.FromCursor: Prisma's cursor is modelled as "the live rows created at or before the cursor row"; rows with equal `createdAt` are ordered later-created first, which Prisma does not promise.
- PostStore.Store.FindMany: the `include: { user }` join is left out; rows carry `userId` only.
- PostActions.ListPage: requires a non-negative `limit`; JavaScript's `take` with a negative number is not modelled.
- PostActions.GetPosts: requires a non-negative `limit` for the same reason.
- PostActionsLegacy.GetPosts: requires a non-negative `limit` for the same reason.
- PostActions.ParseListQuery: JSON numbers are integers. A fractional, NaN or infinite `limit` is not modelled. `z.number()` accepts all but NaN, and Prisma then rejects a non-integer `take`.
- PostActions.GetPosts: numbers are integers, so a fractional or infinite `limit`, which ends in the fixed listing error, is not modelled.
- PostActionsLegacy.GetPosts: numbers are integers, so a fractional or infinite `limit` is not modelled.
- PostActions.GetPosts: takes `limit` and `cursor` as typed optional values, so a call with a non-number `limit` or a non-string `cursor`, which ends in the "유효성 검사 실패: …" throw, is not a call of this method; that rejection is stated on the JSON input by `PostActions.ParseListQuery`.
- The user-facing `id` of a created post is a decimal row number standing in for Prisma's generated id.
- FormData file entries: form values are strings only.
- Middleware.PolicyCarriesNonce: requires a nonce without white space; the base64 text the middleware produces never contains any, and that encoding is not modelled.
- Middleware.Handle: header names are kept as written, and the case-insensitivity of `Headers` is not modelled.
- Middleware.Handle: the headers `NextResponse.next()` adds itself (`x-middleware-next: 1` and any others of Next.js's internals) are the parameter `nextHeaders`, not a constant, since they belong to the framework.
- The middleware `matcher` configuration: this is routing configuration.
- ErrorBoundary.Boundary: only thrown `Error` values are represented. A thrown non-`Error` (`throw undefined`, a string) would set `hasError` with no usable error, which `Valid()` (`hasError` exactly when an error is recorded) excludes.
- ErrorBoundary: `handleRefresh` (`window.location.reload`) and the markup of the default screen are left out. The `fallback` prop is modelled as present-and-truthy or absent.
- ThreadsPreview: the 500 ms and 2000 ms timers are left out. Each firing is a call of `InitEmbed`, and the blockquote styling is not modelled.
- PostList.Component.FetchPosts: each fetch settles in the same step it starts. Overlapping fetches are not modelled, such as a `refreshPosts` through the ref while a load-more is in flight; there the last page to settle wins and the first to settle clears `loading`.
- PostList: the post cards' markup is left out (display name, relative time, preview link). A `getPosts` reply is a parameter of each fetch, not a call into the server model.
- String lengths are counted in Dafny characters, not UTF-16 code units; the content bound of 10000 is stated over characters.
- youtube-preview.tsx (`extractVideoId`), the tiptap editor, the UI pages, providers, configuration files and `robots.ts` are not part of this model.

## Findings

| source | as written | input that shows it | evidently intended | confidence | as-written member | corrected member |
|---|---|---|---|---|---|---|
| src/components/post/post-list.tsx:60-70, src/lib/actions/post.ts:208-211 | `fetchPosts` reads `result.serverError` and `result.data` from the reply of `getPosts`, which returns `{ posts, nextCursor }` directly, so `result.data` is always undefined and the fetch throws "게시글 데이터를 가져올 수 없습니다." | any call: a table with posts, mounted list, `getPosts` returns `{ posts: [p], nextCursor: undefined }` | the page is read from the reply itself (or `getPosts` wraps it as `{ data }`), so the list shows the posts | not executed | PostList.MountAsWritten | PostList.MountIntended |
