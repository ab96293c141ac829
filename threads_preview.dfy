/**
 * `ThreadsPreview`: the embed card for a Threads post. `GetThreadsData` takes a post URL
 * apart; the component's state (`scriptLoaded`, `loading`, `threadsData`) changes as the
 * URL is read, the embed script loads and the embed API is called. The host's `URL`
 * parser is a parameter, as is the embed API the script installs.
 */
module ThreadsPreview {
  import opened Wrappers
  import Strings

  /** What `new URL(url)` gives: its host name and path, or `None` when it throws. */
  datatype ParsedUrl = ParsedUrl(hostname: string, pathname: string)
  type UrlParser = string -> Option<ParsedUrl>

  /** The parts of a Threads URL; an absent field is `undefined`. */
  datatype ThreadsData = ThreadsData(url: string, username: Option<string>, postId: Option<string>, domain: Option<string>)

  const ComDomain := "threads.com"
  const NetDomain := "threads.net"

  /** A present, non-empty string: truthy for JavaScript. */
  predicate Truthy(v: Option<string>) {
    v.Some? && v.value != ""
  }

  /** `pathParts[k]`, `undefined` past the end. */
  function Part(parts: seq<string>, k: nat): Option<string> {
    if k < |parts| then Some(parts[k]) else None
  }

  /**
   * `getThreadsData(url)`: the path split on '/', the user name from the second piece with
   * its first '@' removed, the post id from the fourth piece or else the second, and the
   * domain from the host name. An unparseable URL yields only `{ url }`.
   */
  function GetThreadsData(url: string, parse: UrlParser): (d: ThreadsData)
    ensures d.url == url
    ensures parse(url).None? ==> d == ThreadsData(url, None, None, None)
    ensures parse(url).Some? ==>
      var parts := Strings.Split(parse(url).value.pathname, '/');
      && (d.username.Some? <==> |parts| > 1)
      && (d.username.Some? ==> d.username.value == Strings.RemoveFirst(parts[1], '@'))
      && (Truthy(Part(parts, 3)) ==> d.postId == Some(parts[3]))
      && (!Truthy(Part(parts, 3)) ==> d.postId == Part(parts, 1))
      && (d.domain == Some(ComDomain) <==> Strings.Includes(parse(url).value.hostname, ComDomain))
      && (d.domain == Some(NetDomain) <==> !Strings.Includes(parse(url).value.hostname, ComDomain))
  {
    match parse(url)
    case None => ThreadsData(url, None, None, None)
    case Some(u) =>
      var pathParts := Strings.Split(u.pathname, '/');
      var domain := if Strings.Includes(u.hostname, ComDomain) then ComDomain else NetDomain;
      var username := if |pathParts| > 1 then Some(Strings.RemoveFirst(pathParts[1], '@')) else None;
      var postId := if Truthy(Part(pathParts, 3)) then Part(pathParts, 3) else Part(pathParts, 1);
      ThreadsData(url, username, postId, Some(domain))
  }

  /**
   * A post URL `…/@user/post/id` is taken apart as intended: the user name without its '@',
   * the post id, and the domain.
   */
  lemma PostUrlParts(url: string, parse: UrlParser, host: string, user: string, id: string)
    requires parse(url) == Some(ParsedUrl(host, "/@" + user + "/post/" + id))
    requires '/' !in user && '/' !in id && id != ""
    ensures GetThreadsData(url, parse) ==
      ThreadsData(url, Some(user), Some(id), Some(if Strings.Includes(host, ComDomain) then ComDomain else NetDomain))
  {
    var path := "/@" + user + "/post/" + id;
    var tail := "post" + ['/'] + id;
    var rest := ("@" + user) + ['/'] + tail;
    assert path == [] + ['/'] + rest;
    var parts := PathParts(user, id, tail, rest, path);
    assert Strings.FirstIndex("@" + user, '@') == 0;
    assert ("@" + user)[1..] == user;
  }

  /** The pieces of `/@user/post/id`. */
  lemma PathParts(user: string, id: string, tail: string, rest: string, path: string) returns (parts: seq<string>)
    requires '/' !in user && '/' !in id
    requires tail == "post" + ['/'] + id && rest == ("@" + user) + ['/'] + tail && path == [] + ['/'] + rest
    ensures parts == Strings.Split(path, '/') == [[], "@" + user, "post", id]
  {
    Strings.SplitAround("post", '/', id);
    Strings.SplitNoSeparator("post", '/');
    Strings.SplitNoSeparator(id, '/');
    assert Strings.Split(tail, '/') == ["post", id];
    Strings.SplitAround("@" + user, '/', tail);
    Strings.SplitNoSeparator("@" + user, '/');
    assert Strings.Split(rest, '/') == ["@" + user, "post", id];
    Strings.SplitAround([], '/', rest);
    Strings.SplitNoSeparator([], '/');
    parts := Strings.Split(path, '/');
  }

  /**
   * A profile URL `…/@user` has no fourth piece, so its post id falls back to the second
   * piece, '@' included.
   */
  lemma ProfileUrlFallsBack(url: string, parse: UrlParser, host: string, user: string)
    requires parse(url) == Some(ParsedUrl(host, "/@" + user))
    requires '/' !in user
    ensures GetThreadsData(url, parse).postId == Some("@" + user)
  {
    var path := "/@" + user;
    assert path == [] + ['/'] + ("@" + user);
    Strings.SplitAround([], '/', "@" + user);
    Strings.SplitNoSeparator([], '/');
    Strings.SplitNoSeparator("@" + user, '/');
  }

  /** The embed API the script installs as `window.instgrm`: missing, or present with a `process` that may throw. */
  datatype EmbedApi = NotInstalled | Installed(processThrows: bool)

  /** What the component renders. */
  datatype View =
    | InvalidCard                                           // "올바르지 않은 Threads URL입니다"
    | Placeholder(scriptSrc: string)                        // the skeleton while loading
    | Embed(permalink: string, elementId: string, scriptSrc: string)

  /** The embed script's address: the parsed domain, or threads.net. */
  function ScriptSrc(domain: Option<string>): (src: string)
    ensures Truthy(domain) ==> src == "https://www." + domain.value + "/embed.js"
    ensures !Truthy(domain) ==> src == "https://www.threads.net/embed.js"
  {
    "https://www." + (if Truthy(domain) then domain.value else NetDomain) + "/embed.js"
  }

  class Component {
    var url: string
    var scriptLoaded: bool
    var loading: bool
    var threadsData: ThreadsData
    /** Whether `Embeds.process()` has returned normally since the current post's URL was read. */
    ghost var processed: bool

    /** The embed is shown only after the embed API has processed it. */
    ghost predicate Valid()
      reads this
    {
      !loading ==> processed
    }

    /** The initial state: script not loaded, loading, only the URL known. */
    constructor (url: string)
      ensures Valid()
      ensures this.url == url && !scriptLoaded && loading && !processed
      ensures threadsData == ThreadsData(url, None, None, None)
    {
      this.url := url;
      scriptLoaded := false;
      loading := true;
      threadsData := ThreadsData(url, None, None, None);
      processed := false;
    }

    /**
     * The effect on `[url]`: take the URL apart; with a post id, show the placeholder again,
     * and the embed waits for a new `process()`.
     */
    method ReadUrl(newUrl: string, parse: UrlParser)
      requires Valid()
      modifies this
      ensures Valid()
      ensures url == newUrl && threadsData == GetThreadsData(newUrl, parse)
      ensures loading == (Truthy(threadsData.postId) || old(loading))
      ensures processed == (old(processed) && !Truthy(threadsData.postId))
      ensures scriptLoaded == old(scriptLoaded)
    {
      url := newUrl;
      var data := GetThreadsData(newUrl, parse);
      threadsData := data;
      if Truthy(data.postId) {
        loading := true;
        processed := false;
      }
    }

    /** `initEmbed`: when the API is installed and `process()` returns, loading ends. */
    method InitEmbed(api: EmbedApi)
      requires Valid()
      modifies this
      ensures Valid()
      ensures api == Installed(false) ==> !loading && processed
      ensures api != Installed(false) ==> loading == old(loading) && processed == old(processed)
      ensures url == old(url) && scriptLoaded == old(scriptLoaded) && threadsData == old(threadsData)
    {
      if api.Installed? {
        if !api.processThrows {
          processed := true;
          loading := false;
        }
      }
    }

    /** `handleScriptLoad`: the script has loaded; `initEmbed` follows when its timer fires. */
    method HandleScriptLoad()
      requires Valid()
      modifies this
      ensures Valid()
      ensures scriptLoaded
      ensures url == old(url) && loading == old(loading) && processed == old(processed) && threadsData == old(threadsData)
    {
      scriptLoaded := true;
    }

    /** The effect on `[url, initEmbed, scriptLoaded]`: initialise at once if the script is loaded and the API present. */
    method StyleEffect(api: EmbedApi)
      requires Valid()
      modifies this
      ensures Valid()
      ensures scriptLoaded && api == Installed(false) ==> !loading
      ensures !(scriptLoaded && api == Installed(false)) ==> loading == old(loading) && processed == old(processed)
      ensures url == old(url) && scriptLoaded == old(scriptLoaded) && threadsData == old(threadsData)
    {
      if scriptLoaded && api.Installed? {
        InitEmbed(api);
      }
    }

    /** The rendered card. */
    function Render(): (v: View)
      reads this
      ensures v == InvalidCard <==> !Truthy(threadsData.postId)
      ensures v.Placeholder? <==> Truthy(threadsData.postId) && loading
      ensures v.Embed? ==> v.permalink == url && v.elementId == "ig-tp-" + threadsData.postId.value
      ensures !v.InvalidCard? ==> v.scriptSrc == ScriptSrc(threadsData.domain)
    {
      if !Truthy(threadsData.postId) then InvalidCard
      else if loading then Placeholder(ScriptSrc(threadsData.domain))
      else Embed(url, "ig-tp-" + threadsData.postId.value, ScriptSrc(threadsData.domain))
    }

    /** The embed is rendered only once `Embeds.process()` has succeeded for the current post. */
    lemma EmbedAfterProcess()
      requires Valid() && Render().Embed?
      ensures processed
    {
    }
  }

  /** An unparseable URL shows the invalid-URL card, whatever the state of the embed. */
  lemma UnparseableShowsInvalidCard(c: Component, parse: UrlParser)
    requires parse(c.url).None? && c.threadsData == GetThreadsData(c.url, parse)
    ensures c.Render() == InvalidCard
  {
  }
}
