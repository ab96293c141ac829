/**
 * The post schemas (`createPostSchema`, `updatePostSchema`, `deletePostSchema`) as the
 * functions Zod makes of them: from an input value to the parsed data or the issues found.
 * Keys the schemas do not mention are stripped, as Zod objects do by default.
 */
module PostSchemas {
  import opened Wrappers
  import opened Runtime
  import opened Validations

  const ContentMinLength := 1
  const ContentMaxLength := 10000
  const DefaultContentHtml := "<p></p>"
  const ContentTooShort := "내용을 입력해주세요."
  const ContentTooLong := "내용은 최대 10000자까지 입력 가능합니다."
  /** Zod's default messages. */
  const RequiredMessage := "Required"
  const InvalidUrlMessage := "Invalid url"

  /** A link preview attached to a post; every field is optional, `image` may also be null. */
  datatype Preview = Preview(url: Option<string>, title: Option<string>, description: Option<string>, image: Nullish<string>)

  datatype CreatePostData = CreatePostData(content: string, contentHtml: string, preview: Nullish<Preview>)
  datatype UpdatePostData = UpdatePostData(id: string, content: string, contentHtml: string, preview: Nullish<Preview>)
  datatype DeletePostData = DeletePostData(id: string)

  /** The result of checking one property of an object. A failure lists at least one issue. */
  datatype Field<+T> = FieldOk(value: T) | FieldErr(issues: seq<Issue>) {
    function Issues(): seq<Issue> {
      if FieldOk? then [] else issues
    }
  }

  /** The type name Zod reports in "Expected …, received …". */
  function TypeName(v: Json): string {
    match v
    case JNull => "null"
    case JBool(_) => "boolean"
    case JNum(_) => "number"
    case JStr(_) => "string"
    case JArr(_) => "array"
    case JObj(_) => "object"
  }

  /** The issue Zod reports when a value (or `undefined`) does not have the expected type. */
  function TypeIssue(path: seq<string>, expected: string, got: Option<Json>): Issue {
    if got.None? then Issue(path, RequiredMessage)
    else Issue(path, "Expected " + expected + ", received " + TypeName(got.value))
  }

  /** `z.string()`: a string, anything else (`undefined` included) is an issue. */
  function StringField(path: seq<string>, v: Option<Json>): (f: Field<string>)
    ensures f.FieldOk? <==> v.Some? && v.value.JStr?
    ensures f.FieldOk? ==> f.value == v.value.s
    ensures f.FieldErr? ==> f.issues == [TypeIssue(path, "string", v)]
  {
    if v.Some? && v.value.JStr? then FieldOk(v.value.s) else FieldErr([TypeIssue(path, "string", v)])
  }

  /**
   * The `content` rule: a string of 1 to 10000 characters. Both length checks run, so a
   * string reports each bound it breaks.
   */
  function ContentField(path: seq<string>, v: Option<Json>): (f: Field<string>)
    ensures f.FieldOk? <==> v.Some? && v.value.JStr? && ContentMinLength <= |v.value.s| <= ContentMaxLength
    ensures f.FieldOk? ==> f.value == v.value.s
    ensures f.FieldErr? ==> |f.issues| > 0 && forall k :: 0 <= k < |f.issues| ==> f.issues[k].path == path
  {
    match StringField(path, v)
    case FieldErr(issues) => FieldErr(issues)
    case FieldOk(s) =>
      var issues :=
        (if |s| < ContentMinLength then [Issue(path, ContentTooShort)] else [])
        + (if |s| > ContentMaxLength then [Issue(path, ContentTooLong)] else []);
      if issues == [] then FieldOk(s) else FieldErr(issues)
  }

  /** `z.string().optional().default(d)`: `undefined` becomes `d`; a string is kept as it is. */
  function DefaultedStringField(path: seq<string>, v: Option<Json>, default: string): (f: Field<string>)
    ensures v.None? ==> f == FieldOk(default)
    ensures v.Some? && v.value.JStr? ==> f == FieldOk(v.value.s)
    ensures v.Some? && !v.value.JStr? ==> f.FieldErr?
  {
    if v.None? then FieldOk(default) else StringField(path, v)
  }

  /** `z.string().optional()`, with an optional extra check on a present string. */
  function OptionalStringField(path: seq<string>, v: Option<Json>, check: string -> bool, failure: string): (f: Field<Option<string>>)
    ensures v.None? ==> f == FieldOk(None)
    ensures f.FieldOk? && v.Some? ==> v.value.JStr? && check(v.value.s) && f.value == Some(v.value.s)
    ensures v.Some? && v.value.JStr? && check(v.value.s) ==> f == FieldOk(Some(v.value.s))
  {
    if v.None? then FieldOk(None)
    else if !v.value.JStr? then FieldErr([TypeIssue(path, "string", v)])
    else if check(v.value.s) then FieldOk(Some(v.value.s))
    else FieldErr([Issue(path, failure)])
  }

  /** `z.string().optional().nullable()`: absent, `null`, or a string. */
  function NullishStringField(path: seq<string>, v: Option<Json>): (f: Field<Nullish<string>>)
    ensures f.FieldOk? <==> v.None? || v.value.JNull? || v.value.JStr?
    ensures v.None? ==> f == FieldOk(Undefined)
    ensures v.Some? && v.value.JNull? ==> f == FieldOk(Null)
    ensures v.Some? && v.value.JStr? ==> f == FieldOk(Present(v.value.s))
  {
    if v.None? then FieldOk(Undefined)
    else if v.value.JNull? then FieldOk(Null)
    else if v.value.JStr? then FieldOk(Present(v.value.s))
    else FieldErr([TypeIssue(path, "string", v)])
  }

  function AnyString(s: string): bool { true }

  /** The nested preview object: every field optional, `url` checked by Zod's `.url()` rule. */
  function PreviewObject(isUrl: string -> bool, path: seq<string>, fields: map<string, Json>): Field<Preview> {
    var v := JObj(fields);
    var url := OptionalStringField(path + ["url"], Property(v, "url"), isUrl, InvalidUrlMessage);
    var title := OptionalStringField(path + ["title"], Property(v, "title"), AnyString, "");
    var description := OptionalStringField(path + ["description"], Property(v, "description"), AnyString, "");
    var image := NullishStringField(path + ["image"], Property(v, "image"));
    if url.FieldOk? && title.FieldOk? && description.FieldOk? && image.FieldOk? then
      FieldOk(Preview(url.value, title.value, description.value, image.value))
    else
      FieldErr(url.Issues() + title.Issues() + description.Issues() + image.Issues())
  }

  /** The `preview` rule: `.optional().nullable()` around the preview object. */
  function PreviewField(isUrl: string -> bool, path: seq<string>, v: Option<Json>): (f: Field<Nullish<Preview>>)
    ensures v.None? ==> f == FieldOk(Undefined)
    ensures v.Some? && v.value.JNull? ==> f == FieldOk(Null)
    ensures f.FieldOk? && f.value.Present? ==> v.Some? && v.value.JObj?
    ensures v == Some(JObj(map[])) ==> f == FieldOk(Present(Preview(None, None, None, Undefined)))
  {
    if v.None? then FieldOk(Undefined)
    else if v.value.JNull? then FieldOk(Null)
    else if v.value.JObj? then
      match PreviewObject(isUrl, path, v.value.fields)
      case FieldOk(p) => FieldOk(Present(p))
      case FieldErr(issues) => FieldErr(issues)
    else FieldErr([TypeIssue(path, "object", v)])
  }

  /** The issue reported when the whole input is not an object. */
  function NotAnObject(v: Json): seq<Issue> {
    [TypeIssue([], "object", Some(v))]
  }

  /** `createPostSchema.safeParse(v)`. */
  function ParseCreatePost(isUrl: string -> bool, v: Json): (r: SchemaOutcome<CreatePostData>)
    ensures !r.Crashed?
    ensures r.Parsed? ==> v.JObj?
  {
    if !v.JObj? then Rejected(NotAnObject(v))
    else
      var content := ContentField(["content"], Property(v, "content"));
      var html := DefaultedStringField(["contentHtml"], Property(v, "contentHtml"), DefaultContentHtml);
      var preview := PreviewField(isUrl, ["preview"], Property(v, "preview"));
      if content.FieldOk? && html.FieldOk? && preview.FieldOk? then
        Parsed(CreatePostData(content.value, html.value, preview.value))
      else
        Rejected(content.Issues() + html.Issues() + preview.Issues())
  }

  /** `updatePostSchema.safeParse(v)`: an `id` string, then the same rules as for creation. */
  function ParseUpdatePost(isUrl: string -> bool, v: Json): (r: SchemaOutcome<UpdatePostData>)
    ensures !r.Crashed?
    ensures r.Parsed? ==> v.JObj?
  {
    if !v.JObj? then Rejected(NotAnObject(v))
    else
      var id := StringField(["id"], Property(v, "id"));
      var content := ContentField(["content"], Property(v, "content"));
      var html := DefaultedStringField(["contentHtml"], Property(v, "contentHtml"), DefaultContentHtml);
      var preview := PreviewField(isUrl, ["preview"], Property(v, "preview"));
      if id.FieldOk? && content.FieldOk? && html.FieldOk? && preview.FieldOk? then
        Parsed(UpdatePostData(id.value, content.value, html.value, preview.value))
      else
        Rejected(id.Issues() + content.Issues() + html.Issues() + preview.Issues())
  }

  /** `deletePostSchema.safeParse(v)`: only an `id` string. */
  function ParseDeletePost(v: Json): (r: SchemaOutcome<DeletePostData>)
    ensures !r.Crashed?
    ensures r.Parsed? ==> v.JObj?
  {
    if !v.JObj? then Rejected(NotAnObject(v))
    else
      match StringField(["id"], Property(v, "id"))
      case FieldOk(id) => Parsed(DeletePostData(id))
      case FieldErr(issues) => Rejected(issues)
  }

  // ---- Properties of the schemas ----

  /** Accepted post content is always between 1 and 10000 characters and is the input's `content`. */
  lemma CreateContentBounds(isUrl: string -> bool, v: Json)
    requires ParseCreatePost(isUrl, v).Parsed?
    ensures v.JObj? && "content" in v.fields && v.fields["content"].JStr?
    ensures ParseCreatePost(isUrl, v).data.content == v.fields["content"].s
    ensures ContentMinLength <= |ParseCreatePost(isUrl, v).data.content| <= ContentMaxLength
  {
  }

  /**
   * Content outside the bounds is rejected whatever the other fields hold, with an issue
   * on the `content` path.
   */
  lemma CreateRejectsBadContent(isUrl: string -> bool, fields: map<string, Json>, s: string)
    requires "content" in fields && fields["content"] == JStr(s)
    requires |s| < ContentMinLength || |s| > ContentMaxLength
    ensures ParseCreatePost(isUrl, JObj(fields)).Rejected?
    ensures exists k ::
              && 0 <= k < |ParseCreatePost(isUrl, JObj(fields)).issues|
              && ParseCreatePost(isUrl, JObj(fields)).issues[k].path == ["content"]
  {
    var c := ContentField(["content"], Property(JObj(fields), "content"));
    assert c.FieldErr? && c.issues[0].path == ["content"];
    var r := ParseCreatePost(isUrl, JObj(fields));
    assert r.issues[0] == c.issues[0];
  }

  /**
   * An object with in-bounds content, no `contentHtml` and no (or a null) preview is
   * accepted: `contentHtml` becomes "<p></p>" and the preview keeps its absence or null.
   */
  lemma CreateDefaults(isUrl: string -> bool, fields: map<string, Json>, s: string)
    requires "content" in fields && fields["content"] == JStr(s)
    requires ContentMinLength <= |s| <= ContentMaxLength
    requires "contentHtml" !in fields
    requires "preview" !in fields || fields["preview"] == JNull
    ensures ParseCreatePost(isUrl, JObj(fields)) ==
      Parsed(CreatePostData(s, DefaultContentHtml, if "preview" in fields then Null else Undefined))
  {
  }

  /** An empty preview object is accepted, with every preview field left absent. */
  lemma EmptyPreviewAccepted(isUrl: string -> bool, fields: map<string, Json>, s: string, html: string)
    requires "content" in fields && fields["content"] == JStr(s)
    requires ContentMinLength <= |s| <= ContentMaxLength
    requires "contentHtml" in fields && fields["contentHtml"] == JStr(html)
    requires "preview" in fields && fields["preview"] == JObj(map[])
    ensures ParseCreatePost(isUrl, JObj(fields)) ==
      Parsed(CreatePostData(s, html, Present(Preview(None, None, None, Undefined))))
  {
  }

  /**
   * The update schema is the create schema plus a string `id`: it accepts exactly the
   * inputs the create schema accepts that also carry a string `id`, with the same content,
   * HTML and preview.
   */
  lemma UpdateIsCreateWithId(isUrl: string -> bool, v: Json)
    ensures ParseUpdatePost(isUrl, v).Parsed? <==>
      ParseCreatePost(isUrl, v).Parsed? && Property(v, "id").Some? && Property(v, "id").value.JStr?
    ensures ParseUpdatePost(isUrl, v).Parsed? ==>
      var u, c := ParseUpdatePost(isUrl, v).data, ParseCreatePost(isUrl, v).data;
      u.id == v.fields["id"].s && u.content == c.content && u.contentHtml == c.contentHtml && u.preview == c.preview
  {
  }

  /** The delete schema accepts exactly the objects whose `id` is a string. */
  lemma DeleteAcceptsIffStringId(v: Json)
    ensures ParseDeletePost(v).Parsed? <==> v.JObj? && "id" in v.fields && v.fields["id"].JStr?
    ensures ParseDeletePost(v).Parsed? ==> ParseDeletePost(v).data.id == v.fields["id"].s
  {
  }

  /** Every rejection by the three schemas lists at least one issue. */
  lemma RejectionsHaveIssues(isUrl: string -> bool, v: Json)
    ensures ParseCreatePost(isUrl, v).Rejected? ==> |ParseCreatePost(isUrl, v).issues| > 0
    ensures ParseUpdatePost(isUrl, v).Rejected? ==> |ParseUpdatePost(isUrl, v).issues| > 0
    ensures ParseDeletePost(v).Rejected? ==> |ParseDeletePost(v).issues| > 0
  {
  }
}
