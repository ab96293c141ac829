/**
 * `PostList`: the client list of posts. `fetchPosts` asks `getPosts` for a page and merges
 * it into the state; `refreshPosts` and `handleLoadMore` start fetches; the render shows
 * a skeleton, an empty message or the list.
 *
 * The component reads `getPosts`' reply as an envelope `{ serverError, data }`, while
 * `getPosts` returns `{ posts, nextCursor }` itself. `AsWritten` is that reading;
 * `Wrapped` is the reading the component evidently expects, and the one `Load` uses.
 */
module PostList {
  import opened Wrappers
  import opened Runtime
  import opened PostStore

  /** The reply shape the component reads: `result.serverError` and `result.data`. */
  datatype Envelope = Envelope(serverError: Option<string>, data: Option<PageResult>)

  /** How the awaited call ended, as seen by `fetchPosts`: it threw, or it gave an envelope. */
  datatype Reply = Failed | Resolved(envelope: Envelope)

  /** A present, non-empty string: truthy for JavaScript. */
  predicate Truthy(v: Option<string>) {
    v.Some? && v.value != ""
  }

  /**
   * The reply as the component reads it from `getPosts` as written: a returned page has no
   * `serverError` and no `data` property, so both read as `undefined`.
   */
  function AsWritten(o: Outcome<PageResult>): (r: Reply)
    ensures o.Returned? ==> r == Resolved(Envelope(None, None))
    ensures !o.Returned? ==> r == Failed
  {
    if o.Returned? then Resolved(Envelope(None, None)) else Failed
  }

  /** The intended reading: a returned page is the envelope's `data`, and there is no server error. */
  function Wrapped(o: Outcome<PageResult>): (r: Reply)
    ensures o.Returned? <==> r.Resolved? && !Truthy(r.envelope.serverError) && r.envelope.data.Some?
    ensures o.Returned? ==> r.envelope.data.value == o.value
  {
    if o.Returned? then Resolved(Envelope(None, Some(o.value))) else Failed
  }

  /** As written, no reply of `getPosts` ever carries data. */
  lemma AsWrittenNeverCarriesData(o: Outcome<PageResult>)
    ensures !(AsWritten(o).Resolved? && AsWritten(o).envelope.data.Some?)
  {
  }

  /** The views `PostList` renders. */
  datatype View =
    | Skeleton                                         // three placeholder cards
    | EmptyMessage                                     // "아직 게시글이 없습니다."
    | Listing(posts: seq<Row>, moreButton: bool, moreDisabled: bool)

  class Component {
    var posts: seq<Row>
    var loading: bool
    var nextCursor: Option<PostId>
    var hasMore: bool
    var refreshKey: nat

    /** The "more" button is offered exactly when a next cursor is known. */
    ghost predicate Valid()
      reads this
    {
      hasMore <==> Truthy(nextCursor)
    }

    /** The initial state: no posts, loading, no cursor. */
    constructor ()
      ensures Valid()
      ensures posts == [] && loading && nextCursor.None? && !hasMore && refreshKey == 0
    {
      posts, loading, nextCursor, hasMore, refreshKey := [], true, None, false, 0;
    }

    /**
     * `fetchPosts(cursor)` once the call to `getPosts` has settled with `reply`: a page is
     * appended when a cursor was given and replaces the list otherwise; a failure, a server
     * error or a missing `data` changes nothing. Loading is over either way.
     */
    method FetchPosts(cursor: Option<PostId>, reply: Reply)
      requires Valid()
      modifies this
      ensures Valid()
      ensures !loading && refreshKey == old(refreshKey)
      ensures reply.Resolved? && !Truthy(reply.envelope.serverError) && reply.envelope.data.Some? ==>
        var page := reply.envelope.data.value;
        && posts == (if Truthy(cursor) then old(posts) + page.posts else page.posts)
        && nextCursor == page.nextCursor
        && (hasMore <==> Truthy(page.nextCursor))
      ensures !(reply.Resolved? && !Truthy(reply.envelope.serverError) && reply.envelope.data.Some?) ==>
        posts == old(posts) && nextCursor == old(nextCursor) && hasMore == old(hasMore)
    {
      loading := true;
      if reply.Resolved? && !Truthy(reply.envelope.serverError) && reply.envelope.data.Some? {
        var page := reply.envelope.data.value;
        if Truthy(cursor) {
          posts := posts + page.posts;
        } else {
          posts := page.posts;
        }
        nextCursor := page.nextCursor;
        hasMore := Truthy(page.nextCursor);
      }
      loading := false;
    }

    /** A fetch reading `getPosts`' reply as the component is written: the list never changes. */
    method LoadAsWritten(cursor: Option<PostId>, o: Outcome<PageResult>)
      requires Valid()
      modifies this
      ensures Valid()
      ensures posts == old(posts) && nextCursor == old(nextCursor) && hasMore == old(hasMore) && !loading
      ensures refreshKey == old(refreshKey)
    {
      FetchPosts(cursor, AsWritten(o));
    }

    /** A fetch reading `getPosts`' reply as intended. */
    method Load(cursor: Option<PostId>, o: Outcome<PageResult>)
      requires Valid()
      modifies this
      ensures Valid()
      ensures !loading && refreshKey == old(refreshKey)
      ensures o.Returned? ==>
        && posts == (if Truthy(cursor) then old(posts) + o.value.posts else o.value.posts)
        && nextCursor == o.value.nextCursor
      ensures !o.Returned? ==> posts == old(posts) && nextCursor == old(nextCursor) && hasMore == old(hasMore)
    {
      FetchPosts(cursor, Wrapped(o));
    }

    /**
     * `refreshPosts` with the intended reading: bump `refreshKey`; the effect on it then
     * fetches the first page, without a cursor, and that page replaces the list.
     */
    method RefreshPosts(o: Outcome<PageResult>)
      requires Valid()
      modifies this
      ensures Valid()
      ensures refreshKey == old(refreshKey) + 1 && !loading
      ensures o.Returned? ==> posts == o.value.posts && nextCursor == o.value.nextCursor
      ensures !o.Returned? ==> posts == old(posts) && nextCursor == old(nextCursor)
    {
      refreshKey := refreshKey + 1;
      Load(None, o);
    }

    /**
     * `refreshPosts` as written: the key goes up and the fetch runs, but its reply never
     * carries data, so the list, the cursor and the button stay as they were.
     */
    method RefreshPostsAsWritten(o: Outcome<PageResult>)
      requires Valid()
      modifies this
      ensures Valid()
      ensures refreshKey == old(refreshKey) + 1 && !loading
      ensures posts == old(posts) && nextCursor == old(nextCursor) && hasMore == old(hasMore)
    {
      refreshKey := refreshKey + 1;
      LoadAsWritten(None, o);
    }

    /**
     * `handleLoadMore` with the intended reading: without a next cursor nothing happens;
     * otherwise that page is fetched and appended.
     */
    method HandleLoadMore(o: Outcome<PageResult>)
      requires Valid()
      modifies this
      ensures Valid()
      ensures !Truthy(old(nextCursor)) ==>
        posts == old(posts) && loading == old(loading) && nextCursor == old(nextCursor) && hasMore == old(hasMore)
      ensures Truthy(old(nextCursor)) && o.Returned? ==>
        posts == old(posts) + o.value.posts && nextCursor == o.value.nextCursor && !loading
      ensures Truthy(old(nextCursor)) && !o.Returned? ==>
        posts == old(posts) && nextCursor == old(nextCursor) && hasMore == old(hasMore) && !loading
    {
      if Truthy(nextCursor) {
        loading := true;
        Load(nextCursor, o);
      }
    }

    /**
     * `handleLoadMore` as written: without a next cursor nothing happens; with one, loading
     * starts and the fetch ends it, but nothing is ever appended.
     */
    method HandleLoadMoreAsWritten(o: Outcome<PageResult>)
      requires Valid()
      modifies this
      ensures Valid()
      ensures posts == old(posts) && nextCursor == old(nextCursor) && hasMore == old(hasMore)
      ensures refreshKey == old(refreshKey)
      ensures !Truthy(old(nextCursor)) ==> loading == old(loading)
      ensures Truthy(old(nextCursor)) ==> !loading
    {
      if Truthy(nextCursor) {
        loading := true;
        LoadAsWritten(nextCursor, o);
      }
    }

    /** The render choice: skeleton while the first page loads, the empty message, or the list. */
    function Render(): (v: View)
      reads this
      ensures v == Skeleton <==> loading && posts == []
      ensures v == EmptyMessage <==> !loading && posts == []
      ensures v.Listing? <==> posts != []
      ensures v.Listing? ==> v.posts == posts && v.moreButton == hasMore && v.moreDisabled == loading
    {
      if loading && |posts| == 0 then Skeleton
      else if |posts| == 0 then EmptyMessage
      else Listing(posts, hasMore, loading)
    }
  }

  /**
   * Mounting the list as written: whatever `getPosts` replies, even a page full of posts,
   * the first fetch leaves the list empty and the empty message is shown.
   */
  method MountAsWritten(o: Outcome<PageResult>) returns (v: View)
    ensures v == EmptyMessage
  {
    var c := new Component();
    c.LoadAsWritten(None, o);
    v := c.Render();
  }

  /** Mounting the list with the intended reading: the first page is shown, with the button iff a next cursor came back. */
  method MountIntended(o: Outcome<PageResult>) returns (v: View)
    ensures o.Returned? && o.value.posts != [] ==> v == Listing(o.value.posts, Truthy(o.value.nextCursor), false)
    ensures !(o.Returned? && o.value.posts != []) ==> v == EmptyMessage
  {
    var c := new Component();
    c.Load(None, o);
    v := c.Render();
  }
}
