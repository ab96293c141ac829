/**
 * The `GET /api/url-meta?url=…` route: fetch a page and report its title, description
 * and image. The fetch and the HTML parse are abstract: `fetch` gives, for a URL, how the
 * request went, and a parsed page is a lookup from selector to the value found.
 */
module UrlMeta {
  import opened Wrappers
  import opened Runtime

  const UrlRequired := "URL is required"
  const FetchFailed := "Failed to fetch URL"
  const MetadataFailed := "Failed to fetch URL metadata"
  const BadRequest := 400
  const ServerError := 500
  const Ok := 200

  /** The selectors the route queries. */
  datatype Selector =
    | TitleElement    // `title`, its text content
    | MetaDescription // `meta[name="description"]`, its `content`
    | OgDescription   // `meta[property="og:description"]`, its `content`
    | OgImage         // `meta[property="og:image"]`, its `content`
    | TwitterImage    // `meta[name="twitter:image"]`, its `content`

  /**
   * A parsed document: the value a selector yields, or `None` when no element matches
   * or the attribute is missing (both are falsy for the route).
   */
  type Page = Selector -> Option<string>

  /** Reading the body and parsing it gives a document, or throws. */
  datatype Parse = Parsed(page: Page) | ParseThrew(error: Exception)

  /** How the upstream request went: `fetch` threw, or a response arrived. */
  datatype Upstream = FetchThrew(error: Exception) | Responded(ok: bool, body: Parse)

  datatype Body =
    | ErrorBody(error: string)
    | Metadata(title: string, description: string, image: Option<string>, url: string)

  datatype Response = Response(status: int, body: Body)

  /** A value is truthy for `||`: present and not the empty string. */
  predicate Truthy(v: Option<string>) {
    v.Some? && v.value != ""
  }

  /** The chain `a || b || …`: the first truthy candidate, if any. */
  function FirstTruthy(candidates: seq<Option<string>>): (r: Option<string>)
    ensures r.None? <==> forall i :: 0 <= i < |candidates| ==> !Truthy(candidates[i])
    ensures r.Some? ==> exists i :: 0 <= i < |candidates| && candidates[i] == r && Truthy(r)
                                    && forall j :: 0 <= j < i ==> !Truthy(candidates[j])
  {
    if candidates == [] then None
    else if Truthy(candidates[0]) then candidates[0]
    else
      var r := FirstTruthy(candidates[1..]);
      assert forall i :: 1 <= i < |candidates| ==> candidates[i] == candidates[1..][i - 1];
      r
  }

  /** The metadata extracted from a parsed page. */
  function Extract(page: Page, url: string): Body {
    Metadata(
      FirstTruthy([page(TitleElement)]).GetOr(""),
      FirstTruthy([page(MetaDescription), page(OgDescription)]).GetOr(""),
      FirstTruthy([page(OgImage), page(TwitterImage)]),
      url)
  }

  /** The route handler; `url` is the `url` search parameter (`None` when absent). */
  function Get(url: Option<string>, fetch: string -> Upstream): (r: Response)
    ensures !Truthy(url) ==> r == Response(BadRequest, ErrorBody(UrlRequired))
    ensures Truthy(url) && fetch(url.value).FetchThrew? ==> r == Response(ServerError, ErrorBody(MetadataFailed))
    ensures Truthy(url) && fetch(url.value).Responded? && !fetch(url.value).ok ==>
      r == Response(ServerError, ErrorBody(FetchFailed))
    ensures Truthy(url) && fetch(url.value).Responded? && fetch(url.value).ok && fetch(url.value).body.ParseThrew? ==>
      r == Response(ServerError, ErrorBody(MetadataFailed))
    ensures r.status == Ok <==> r.body.Metadata?
    ensures r.body.Metadata? ==> Truthy(url) && r.body.url == url.value
  {
    if !Truthy(url) then Response(BadRequest, ErrorBody(UrlRequired))
    else
      match fetch(url.value)
      case FetchThrew(_) => Response(ServerError, ErrorBody(MetadataFailed))
      case Responded(ok, body) =>
        if !ok then Response(ServerError, ErrorBody(FetchFailed))
        else
          match body
          case ParseThrew(_) => Response(ServerError, ErrorBody(MetadataFailed))
          case Parsed(page) => Response(Ok, Extract(page, url.value))
  }

  // ---- Properties of the route ----

  /** A missing or empty `url` is answered without any request: the outcome is the same for every upstream. */
  lemma MissingUrlSkipsFetch(url: Option<string>, fetch1: string -> Upstream, fetch2: string -> Upstream)
    requires !Truthy(url)
    ensures Get(url, fetch1) == Get(url, fetch2)
  {
  }

  /** A non-OK response is reported without reading its body: the outcome does not depend on it. */
  lemma NotOkSkipsParsing(url: string, fetch1: string -> Upstream, fetch2: string -> Upstream)
    requires url != ""
    requires fetch1(url).Responded? && fetch2(url).Responded? && !fetch1(url).ok && !fetch2(url).ok
    ensures Get(Some(url), fetch1) == Get(Some(url), fetch2) == Response(ServerError, ErrorBody(FetchFailed))
  {
  }

  /**
   * On success the metadata is drawn from the page: the title is the title text or "";
   * the description is the meta description, else og:description, else ""; the image is
   * og:image, else twitter:image, else null, and never the empty string.
   */
  lemma SuccessFields(url: string, fetch: string -> Upstream)
    requires url != "" && fetch(url).Responded? && fetch(url).ok && fetch(url).body.Parsed?
    ensures var page := fetch(url).body.page;
      var m := Get(Some(url), fetch).body;
      && Get(Some(url), fetch).status == Ok
      && m.url == url
      && (Truthy(page(TitleElement)) ==> m.title == page(TitleElement).value)
      && (!Truthy(page(TitleElement)) ==> m.title == "")
      && (Truthy(page(MetaDescription)) ==> m.description == page(MetaDescription).value)
      && (!Truthy(page(MetaDescription)) && Truthy(page(OgDescription)) ==> m.description == page(OgDescription).value)
      && (!Truthy(page(MetaDescription)) && !Truthy(page(OgDescription)) ==> m.description == "")
      && (Truthy(page(OgImage)) ==> m.image == page(OgImage))
      && (!Truthy(page(OgImage)) && Truthy(page(TwitterImage)) ==> m.image == page(TwitterImage))
      && (!Truthy(page(OgImage)) && !Truthy(page(TwitterImage)) ==> m.image.None?)
      && m.image != Some("")
  {
    var page := fetch(url).body.page;
    var images := [page(OgImage), page(TwitterImage)];
    assert images[1..] == [page(TwitterImage)];
    assert Truthy(page(TwitterImage)) ==> FirstTruthy([page(TwitterImage)]) == page(TwitterImage);
    var descriptions := [page(MetaDescription), page(OgDescription)];
    assert descriptions[1..] == [page(OgDescription)];
    assert Truthy(page(OgDescription)) ==> FirstTruthy([page(OgDescription)]) == page(OgDescription);
  }
}
