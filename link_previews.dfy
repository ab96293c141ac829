/**
 * `LinkPreviews` and `LinkPreview`: which embed the editor shows for the links in a post.
 * The two URL tests are the regular expressions
 * `^(https?:\/\/)?(www\.)?(HOST1|HOST2)\/.+$`, whose language is a fixed, finite set of
 * heads followed by at least one character other than a line terminator.
 */
module LinkPreviews {
  import opened Wrappers

  const YouTubeHosts := ["youtube.com", "youtu.be"]
  const ThreadsHosts := ["threads.net", "threads.com"]
  const Schemes := ["", "http://", "https://"]
  const WwwPrefixes := ["", "www."]

  /** The characters `.` does not match in a JavaScript regular expression without the `s` flag. */
  predicate IsLineTerminator(c: char) {
    c == '\n' || c == '\r' || c == '\U{2028}' || c == '\U{2029}'
  }

  /** `.+$`: one or more characters, none a line terminator, up to the end of the input. */
  predicate DotPlus(s: string) {
    |s| >= 1 && forall i :: 0 <= i < |s| ==> !IsLineTerminator(s[i])
  }

  /** The string the expression requires before `.+`, for one choice of each group. */
  function Head(scheme: string, www: string, host: string): string {
    scheme + www + host + "/"
  }

  /** The URL starts with the head of choices `i`, `j`, `l` and continues with `.+` to its end. */
  predicate MatchesWith(url: string, i: nat, j: nat, hosts: seq<string>, l: nat)
    requires i < |Schemes| && j < |WwwPrefixes| && l < |hosts|
  {
    var head := Head(Schemes[i], WwwPrefixes[j], hosts[l]);
    head <= url && DotPlus(url[|head|..])
  }

  /** `regex.test(url)`: the URL matches for some choice of scheme, `www.` and host. */
  predicate Test(url: string, hosts: seq<string>) {
    exists i: nat, j: nat, l: nat :: i < |Schemes| && j < |WwwPrefixes| && l < |hosts| && MatchesWith(url, i, j, hosts, l)
  }

  predicate IsYouTube(url: string) {
    Test(url, YouTubeHosts)
  }

  predicate IsThreads(url: string) {
    Test(url, ThreadsHosts)
  }

  datatype PreviewKind = YouTubePreview | ThreadsPreview | SitePreview

  /** `LinkPreview`: the YouTube test first, then the Threads test, otherwise a site preview. */
  function Classify(url: string): (k: PreviewKind)
    ensures k == YouTubePreview <==> IsYouTube(url)
    ensures k == ThreadsPreview <==> !IsYouTube(url) && IsThreads(url)
    ensures k == SitePreview <==> !IsYouTube(url) && !IsThreads(url)
  {
    if IsYouTube(url) then YouTubePreview
    else if IsThreads(url) then ThreadsPreview
    else SitePreview
  }

  /** What `LinkPreviews` renders: one preview, and the link its remove button passes to `onRemove`. */
  datatype Rendered = Rendered(kind: PreviewKind, url: string, removes: string)

  /** `LinkPreviews({ links })`: nothing for no links, otherwise a preview of the first link only. */
  function Render(links: seq<string>): (r: Option<Rendered>)
    ensures r.None? <==> links == []
    ensures r.Some? ==> r.value.url == links[0] && r.value.removes == links[0] && r.value.kind == Classify(links[0])
  {
    if |links| == 0 then None
    else
      var firstLink := links[0];
      Some(Rendered(Classify(firstLink), firstLink, firstLink))
  }

  /** Links after the first make no difference to what is rendered. */
  lemma OnlyFirstLinkMatters(links1: seq<string>, links2: seq<string>)
    requires links1 != [] && links2 != [] && links1[0] == links2[0]
    ensures Render(links1) == Render(links2)
  {
  }

  /** No URL passes both tests, so the order of the two checks never decides the outcome. */
  lemma TestsDisjoint(url: string)
    ensures !(IsYouTube(url) && IsThreads(url))
  {
    if IsYouTube(url) && IsThreads(url) {
      var i: nat, j: nat, l: nat :| i < |Schemes| && j < |WwwPrefixes| && l < |YouTubeHosts| &&
        MatchesWith(url, i, j, YouTubeHosts, l);
      var i2: nat, j2: nat, l2: nat :| i2 < |Schemes| && j2 < |WwwPrefixes| && l2 < |ThreadsHosts| &&
        MatchesWith(url, i2, j2, ThreadsHosts, l2);
      var p := LeadAt(url, i, j, YouTubeHosts[l]);
      var q := LeadAt(url, i2, j2, ThreadsHosts[l2]);
      assert url[|p|] == 'y' && url[|q|] == 't';
      if |p| < |q| {
        assert q[|p|] == url[|p|];
        LeadChars(j2, i2);
      } else if |q| < |p| {
        assert q == p[..|q|];
        assert p[|q|] == url[|q|];
        LeadChars(j, i);
      }
    }
  }

  /** Testing Threads first would classify every URL the same way. */
  lemma CheckOrderIrrelevant(url: string)
    ensures Classify(url) == if IsThreads(url) then ThreadsPreview else if IsYouTube(url) then YouTubePreview else SitePreview
  {
    TestsDisjoint(url);
  }

  /** A matched URL starts with its lead (scheme and `www.`), and the host's first letter follows it. */
  lemma LeadAt(url: string, i: nat, j: nat, h: string) returns (p: string)
    requires i < |Schemes| && j < |WwwPrefixes| && h != []
    requires Head(Schemes[i], WwwPrefixes[j], h) <= url
    ensures p == Schemes[i] + WwwPrefixes[j]
    ensures p <= url && |p| < |url| && url[|p|] == h[0]
  {
    p := Schemes[i] + WwwPrefixes[j];
    assert Head(Schemes[i], WwwPrefixes[j], h) == p + h + "/";
    assert url[|p|] == Head(Schemes[i], WwwPrefixes[j], h)[|p|];
  }

  /** No lead holds a 'y', and no lead continues a shorter lead with a 't'. */
  lemma LeadChars(j: nat, i: nat)
    requires i < |Schemes| && j < |WwwPrefixes|
    ensures forall k :: 0 <= k < |Schemes[i] + WwwPrefixes[j]| ==> (Schemes[i] + WwwPrefixes[j])[k] != 'y'
    ensures forall i2, j2 :: 0 <= i2 < |Schemes| && 0 <= j2 < |WwwPrefixes| ==>
      var p, q := Schemes[i] + WwwPrefixes[j], Schemes[i2] + WwwPrefixes[j2];
      |q| < |p| && q == p[..|q|] ==> p[|q|] != 't'
  {
  }

  /** A URL made of a head and a `.+` tail passes the test. */
  lemma HeadThenTail(url: string, i: nat, j: nat, hosts: seq<string>, l: nat, tail: string)
    requires i < |Schemes| && j < |WwwPrefixes| && l < |hosts|
    requires url == Head(Schemes[i], WwwPrefixes[j], hosts[l]) + tail && DotPlus(tail)
    ensures Test(url, hosts)
  {
    var head := Head(Schemes[i], WwwPrefixes[j], hosts[l]);
    assert url[..|head|] == head && url[|head|..] == tail;
    assert MatchesWith(url, i, j, hosts, l);
  }

  /** A watch URL with scheme and `www.` is a YouTube link. */
  lemma WatchUrlIsYouTube()
    ensures IsYouTube("https://www.youtube.com/watch?v=abc")
  {
    HeadThenTail("https://www.youtube.com/watch?v=abc", 2, 1, YouTubeHosts, 0, "watch?v=abc");
  }

  /** A short link without a scheme is a YouTube link. */
  lemma ShortUrlIsYouTube()
    ensures IsYouTube("youtu.be/abc")
  {
    HeadThenTail("youtu.be/abc", 0, 0, YouTubeHosts, 1, "abc");
  }

  /** The `.com` Threads domain passes the Threads test. */
  lemma ThreadsComIsThreads()
    ensures IsThreads("https://www.threads.com/@user/post/1")
  {
    HeadThenTail("https://www.threads.com/@user/post/1", 2, 1, ThreadsHosts, 1, "@user/post/1");
  }

  /** The `.net` Threads domain passes the Threads test. */
  lemma ThreadsNetIsThreads()
    ensures IsThreads("http://threads.net/@user")
  {
    HeadThenTail("http://threads.net/@user", 1, 0, ThreadsHosts, 0, "@user");
  }
}
