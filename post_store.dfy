/**
 * The posts table as the post actions use it through Prisma: rows keyed by id, created,
 * updated and soft-deleted in place, and listed newest first with cursor pagination.
 */
module PostStore {
  import opened Wrappers
  import Strings
  import PostSchemas

  type PostId = string
  /** A timestamp; only its order matters here. */
  type Time = int

  /** One row of the posts table. `deletedAt` is set by a soft delete and never cleared. */
  datatype Post = Post(
    userId: string,
    content: string,
    contentHtml: string,
    preview: Option<PostSchemas.Preview>,
    createdAt: Time,
    updatedAt: Time,
    deletedAt: Option<Time>)

  /** A row as `findMany` returns it: its id with its fields. */
  datatype Row = Row(id: PostId, post: Post)

  /** What `getPosts` returns: one page of rows and the id the next page starts at, if any. */
  datatype PageResult = PageResult(posts: seq<Row>, nextCursor: Option<PostId>)

  /** The id the database gives the `n`-th post created (a stand-in for its generated ids). */
  function IdFor(n: nat): PostId {
    Strings.Digits(n)
  }

  /** `s[..n]`, or all of `s` when it is shorter: what Prisma's `take: n` keeps. */
  function Take<T>(s: seq<T>, n: nat): (r: seq<T>)
    ensures |r| == if n < |s| then n else |s|
    ensures r == s[..|r|]
  {
    if n < |s| then s[..n] else s
  }

  /** The position of `x` in `s`. */
  function IndexOf<T(==)>(s: seq<T>, x: T): (k: nat)
    requires x in s
    ensures k < |s| && s[k] == x && x !in s[..k]
  {
    if s[0] == x then 0 else 1 + IndexOf(s[1..], x)
  }

  class Store {
    /** The rows, by id. */
    var posts: map<PostId, Post>
    /** The ids in the order the rows were created. */
    var order: seq<PostId>
    /** The database clock: the `new Date()` of the next write is read from it. */
    var clock: Time

    ghost predicate Valid()
      reads this
    {
      && TableOk(posts, order)
      && (forall id :: id in posts ==> posts[id].createdAt <= clock)
    }

    constructor (start: Time)
      ensures Valid() && posts == map[] && order == [] && clock == start
    {
      posts, order, clock := map[], [], start;
    }

    /** `prisma.post.findUnique({ where: { id }, select: { userId: true } })`. */
    function FindOwner(id: PostId): (owner: Option<string>)
      reads this
      ensures owner.Some? <==> id in posts
      ensures owner.Some? ==> owner.value == posts[id].userId
    {
      if id in posts then Some(posts[id].userId) else None
    }

    /** `prisma.post.create`: a new row with a fresh id, created and updated now, not deleted. */
    method Insert(userId: string, content: string, contentHtml: string, preview: Option<PostSchemas.Preview>, tick: nat)
      returns (id: PostId)
      requires Valid()
      modifies this
      ensures Valid()
      ensures id !in old(posts)
      ensures clock == old(clock) + tick
      ensures posts == old(posts)[id := Post(userId, content, contentHtml, preview, clock, clock, None)]
      ensures order == old(order) + [id]
    {
      id := IdFor(|order|);
      FreshId(posts, order);
      clock := clock + tick;
      var post := Post(userId, content, contentHtml, preview, clock, clock, None);
      AppendRow(posts, order, post);
      posts := posts[id := post];
      order := order + [id];
    }

    /** `prisma.post.update` of the content fields: content, HTML, preview and `updatedAt` change. */
    method UpdateContent(id: PostId, content: string, contentHtml: string, preview: Option<PostSchemas.Preview>, tick: nat)
      requires Valid() && id in posts
      modifies this
      ensures Valid()
      ensures clock == old(clock) + tick && order == old(order)
      ensures posts == old(posts)[id := old(posts)[id].(content := content, contentHtml := contentHtml,
                                                         preview := preview, updatedAt := clock)]
    {
      clock := clock + tick;
      posts := posts[id := posts[id].(content := content, contentHtml := contentHtml, preview := preview, updatedAt := clock)];
    }

    /** `prisma.post.update({ data: { deletedAt: new Date() } })`: only `deletedAt` changes. */
    method MarkDeleted(id: PostId, tick: nat)
      requires Valid() && id in posts
      modifies this
      ensures Valid()
      ensures clock == old(clock) + tick && order == old(order)
      ensures posts == old(posts)[id := old(posts)[id].(deletedAt := Some(clock))]
    {
      clock := clock + tick;
      posts := posts[id := posts[id].(deletedAt := Some(clock))];
    }

    /** The rows not soft-deleted among the first `m` created, newest first. */
    function Live(m: nat): seq<Row>
      requires m <= |order|
      reads this
    {
      LiveOf(posts, order, m)
    }

    /**
     * The rows a `findMany` with the given cursor starts from: all live rows without a
     * cursor; with one, the live rows from the cursor's row on (the cursor row included);
     * nothing when no row has the cursor's id.
     */
    function FromCursor(cursor: Option<PostId>): seq<Row>
      reads this
    {
      FromCursorOf(posts, order, cursor)
    }

    /** `findMany({ …, take, cursor })`. */
    function FindMany(cursor: Option<PostId>, take: nat): (r: seq<Row>)
      reads this
      ensures |r| <= take && |r| <= |FromCursor(cursor)| && r == FromCursor(cursor)[..|r|]
      ensures |FromCursor(cursor)| >= take ==> |r| == take
    {
      Take(FromCursor(cursor), take)
    }

    /**
     * Whatever the cursor, `findMany` lists distinct live rows of the table with their
     * current fields, newest first.
     */
    lemma FromCursorRows(cursor: Option<PostId>)
      requires Valid()
      ensures NewestFirst(FromCursor(cursor))
      ensures DistinctIds(FromCursor(cursor))
      ensures forall r :: r in FromCursor(cursor) ==> r.id in posts && r.post == posts[r.id] && r.post.deletedAt.None?
    {
      var m := if cursor.None? then |order| else if cursor.value in order then IndexOf(order, cursor.value) + 1 else 0;
      assert FromCursor(cursor) == LiveOf(posts, order, m);
      LiveNewestFirst(posts, order, m);
      LiveDistinct(posts, order, m);
      LiveRows(posts, order, m);
    }

    /**
     * Starting a listing at the id of the `j`-th row of any listing gives that listing from
     * its `j`-th row on; that id is never empty, so it always counts as a cursor.
     */
    lemma FromCursorResumes(cursor: Option<PostId>, j: nat)
      requires Valid() && j < |FromCursor(cursor)|
      ensures FromCursor(cursor)[j].id != ""
      ensures FromCursor(Some(FromCursor(cursor)[j].id)) == FromCursor(cursor)[j..]
    {
      var m := if cursor.None? then |order| else IndexOf(order, cursor.value) + 1;
      assert FromCursor(cursor) == LiveOf(posts, order, m);
      LiveRows(posts, order, m);
      assert FromCursor(cursor)[j] in LiveOf(posts, order, m);
      var k :| 0 <= k < m && order[k] == FromCursor(cursor)[j].id;
      CursorResumes(posts, order, m, j);
    }
  }

  /**
   * The table's shape: the `k`-th created row has id `IdFor(k)`, the ids in `order` are
   * exactly the rows, and `createdAt` does not decrease in creation order.
   */
  ghost predicate TableOk(posts: map<PostId, Post>, order: seq<PostId>) {
    && (forall k :: 0 <= k < |order| ==> order[k] == IdFor(k))
    && (forall id :: id in posts <==> id in order)
    && (forall i, j :: 0 <= i < j < |order| ==> posts[order[i]].createdAt <= posts[order[j]].createdAt)
  }

  /** The id the next row gets is not taken. */
  lemma FreshId(posts: map<PostId, Post>, order: seq<PostId>)
    requires TableOk(posts, order)
    ensures IdFor(|order|) !in order && IdFor(|order|) !in posts
  {
    if IdFor(|order|) in order {
      var k := IndexOf(order, IdFor(|order|));
      Strings.DigitsInjective(k, |order|);
    }
  }

  /** Appending a row created no earlier than every other keeps the table's shape. */
  lemma AppendRow(posts: map<PostId, Post>, order: seq<PostId>, post: Post)
    requires TableOk(posts, order) && IdFor(|order|) !in posts
    requires forall id :: id in posts ==> posts[id].createdAt <= post.createdAt
    ensures TableOk(posts[IdFor(|order|) := post], order + [IdFor(|order|)])
  {
    var id := IdFor(|order|);
    var posts', order' := posts[id := post], order + [id];
    forall i, j | 0 <= i < j < |order'|
      ensures posts'[order'[i]].createdAt <= posts'[order'[j]].createdAt
    {
      assert order'[i] == order[i] && order'[i] in posts;
      if j < |order| {
        assert order'[j] == order[j];
      }
    }
  }

  /** No id is created twice. */
  lemma OrderDistinct(posts: map<PostId, Post>, order: seq<PostId>, i: nat, j: nat)
    requires TableOk(posts, order) && i < j < |order|
    ensures order[i] != order[j]
  {
    if order[i] == order[j] {
      Strings.DigitsInjective(i, j);
    }
  }

  /**
   * The rows not soft-deleted among the first `m` created, newest first: what
   * `findMany({ where: { deletedAt: null }, orderBy: { createdAt: "desc" } })` lists
   * (rows created at the same instant come later-created first).
   */
  function LiveOf(posts: map<PostId, Post>, order: seq<PostId>, m: nat): seq<Row>
    requires m <= |order|
  {
    if m == 0 then []
    else
      var id := order[m - 1];
      (if id in posts && posts[id].deletedAt.None? then [Row(id, posts[id])] else []) + LiveOf(posts, order, m - 1)
  }

  /** The start rows of a `findMany` with the given cursor. */
  function FromCursorOf(posts: map<PostId, Post>, order: seq<PostId>, cursor: Option<PostId>): seq<Row> {
    if cursor.None? then LiveOf(posts, order, |order|)
    else if cursor.value in order then LiveOf(posts, order, IndexOf(order, cursor.value) + 1)
    else []
  }

  /** Every listed row is a live row of the table, with its current fields, created among the first `m`. */
  lemma {:induction false} LiveRows(posts: map<PostId, Post>, order: seq<PostId>, m: nat)
    requires m <= |order|
    ensures forall r :: r in LiveOf(posts, order, m) ==>
      r.id in posts && r.post == posts[r.id] && r.post.deletedAt.None? && r.id in order[..m]
  {
    if m > 0 {
      LiveRows(posts, order, m - 1);
      assert order[..m - 1] <= order[..m];
    }
  }

  /** The rows listed before the `m`-th was created have other ids than it. */
  lemma EarlierIds(posts: map<PostId, Post>, order: seq<PostId>, m: nat)
    requires TableOk(posts, order) && 0 < m <= |order|
    ensures forall r :: r in LiveOf(posts, order, m - 1) ==> r.id != order[m - 1]
  {
    LiveRows(posts, order, m - 1);
    forall r | r in LiveOf(posts, order, m - 1) ensures r.id != order[m - 1] {
      var k :| 0 <= k < m - 1 && order[k] == r.id;
      OrderDistinct(posts, order, k, m - 1);
    }
  }

  /** The newest row listed before the `m`-th was created is no newer than it. */
  lemma NextOlder(posts: map<PostId, Post>, order: seq<PostId>, m: nat)
    requires TableOk(posts, order) && 0 < m <= |order|
    ensures var rest := LiveOf(posts, order, m - 1);
      rest != [] ==> rest[0].post.createdAt <= posts[order[m - 1]].createdAt
  {
    var rest := LiveOf(posts, order, m - 1);
    if rest != [] {
      LiveRows(posts, order, m - 1);
      assert rest[0] in rest;
      var k :| 0 <= k < m - 1 && order[k] == rest[0].id;
    }
  }

  /** The listing is newest first: `createdAt` never increases along it. */
  lemma {:induction false} LiveNewestFirst(posts: map<PostId, Post>, order: seq<PostId>, m: nat)
    requires TableOk(posts, order) && m <= |order|
    ensures NewestFirst(LiveOf(posts, order, m))
  {
    if m > 0 {
      LiveNewestFirst(posts, order, m - 1);
      var id := order[m - 1];
      if id in posts && posts[id].deletedAt.None? {
        NextOlder(posts, order, m);
        PrependNewest(Row(id, posts[id]), LiveOf(posts, order, m - 1));
      }
    }
  }

  /** No id is listed twice. */
  lemma {:induction false} LiveDistinct(posts: map<PostId, Post>, order: seq<PostId>, m: nat)
    requires TableOk(posts, order) && m <= |order|
    ensures DistinctIds(LiveOf(posts, order, m))
  {
    if m > 0 {
      LiveDistinct(posts, order, m - 1);
      var id := order[m - 1];
      if id in posts && posts[id].deletedAt.None? {
        EarlierIds(posts, order, m);
        PrependDistinct(Row(id, posts[id]), LiveOf(posts, order, m - 1));
      }
    }
  }

  /** A cursor naming the row created `m`-th lists the live rows among the first `m`. */
  lemma CursorAtRow(posts: map<PostId, Post>, order: seq<PostId>, m: nat)
    requires TableOk(posts, order) && 0 < m <= |order|
    ensures FromCursorOf(posts, order, Some(order[m - 1])) == LiveOf(posts, order, m)
  {
    var id := order[m - 1];
    assert id in order;
    var k := IndexOf(order, id);
    if k < m - 1 { OrderDistinct(posts, order, k, m - 1); }
    assert k + 1 == m;
  }

  /**
   * Starting a listing at the id of its `j`-th row lists exactly the rows from the
   * `j`-th on: cursor pagination neither skips nor repeats rows.
   */
  lemma {:induction false} CursorResumes(posts: map<PostId, Post>, order: seq<PostId>, m: nat, j: nat)
    requires TableOk(posts, order) && m <= |order| && j < |LiveOf(posts, order, m)|
    ensures FromCursorOf(posts, order, Some(LiveOf(posts, order, m)[j].id)) == LiveOf(posts, order, m)[j..]
  {
    var id := order[m - 1];
    var rest := LiveOf(posts, order, m - 1);
    if id !in posts || posts[id].deletedAt.Some? {
      TailSuffix([], rest, j);
      CursorResumes(posts, order, m - 1, j);
    } else if j == 0 {
      CursorAtRow(posts, order, m);
    } else {
      TailSuffix([Row(id, posts[id])], rest, j);
      CursorResumes(posts, order, m - 1, j - 1);
    }
  }

  /** Past a prefix, indexing and slicing a concatenation only see its second part. */
  lemma TailSuffix<T>(head: seq<T>, rest: seq<T>, j: nat)
    requires |head| <= j < |head| + |rest|
    ensures (head + rest)[j] == rest[j - |head|] && (head + rest)[j..] == rest[j - |head|..]
  {
  }

  /** `createdAt` never increases along `rows`. */
  ghost predicate NewestFirst(rows: seq<Row>) {
    forall i :: 0 <= i < |rows| - 1 ==> rows[i].post.createdAt >= rows[i + 1].post.createdAt
  }

  /** Along a newest-first listing, any earlier row is at least as new as any later one. */
  lemma {:induction false} NewestFirstOrdered(rows: seq<Row>, i: nat, j: nat)
    requires NewestFirst(rows) && i <= j < |rows|
    decreases j - i
    ensures rows[i].post.createdAt >= rows[j].post.createdAt
  {
    if i < j {
      NewestFirstOrdered(rows, i + 1, j);
    }
  }

  /** No id occurs twice in `rows`. */
  ghost predicate DistinctIds(rows: seq<Row>) {
    forall i, j :: 0 <= i < j < |rows| ==> rows[i].id != rows[j].id
  }

  lemma PrependDistinct(r: Row, rows: seq<Row>)
    requires DistinctIds(rows)
    requires forall x :: x in rows ==> x.id != r.id
    ensures DistinctIds([r] + rows)
  {
    var s := [r] + rows;
    forall i, j | 0 <= i < j < |s| ensures s[i].id != s[j].id {
      assert s[j] == rows[j - 1];
      if i > 0 { assert s[i] == rows[i - 1]; }
    }
  }

  lemma PrependNewest(r: Row, rows: seq<Row>)
    requires NewestFirst(rows)
    requires rows != [] ==> rows[0].post.createdAt <= r.post.createdAt
    ensures NewestFirst([r] + rows)
  {
    var s := [r] + rows;
    forall i | 0 <= i < |s| - 1 ensures s[i].post.createdAt >= s[i + 1].post.createdAt {
      assert s[i + 1] == rows[i];
      if i > 0 { assert s[i] == rows[i - 1]; }
    }
  }


  /**
   * The page step of `getPosts`: with more than `limit` rows fetched, the extra last row
   * is popped and its id becomes `nextCursor`.
   */
  method SplitPage(fetched: seq<Row>, limit: nat) returns (page: PageResult)
    requires |fetched| <= limit + 1
    ensures page.posts == Take(fetched, limit)
    ensures page.nextCursor.Some? <==> |fetched| > limit
    ensures page.nextCursor.Some? ==> page.nextCursor.value == fetched[limit].id
  {
    var posts := fetched;
    var nextCursor: Option<PostId> := None;
    if |posts| > limit {
      var nextItem := posts[|posts| - 1];
      posts := posts[..|posts| - 1];
      nextCursor := Some(nextItem.id);
    }
    page := PageResult(posts, nextCursor);
  }
}
