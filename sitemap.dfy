/**
 * The sitemap: one entry per route and locale, routes in the outer loop and locales in
 * the inner one. The `new Date()` stamp is the parameter `now`, the environment value
 * `NEXT_PUBLIC_APP_URL` the parameter `env`.
 */
module Sitemap {
  import opened Wrappers

  type Time = int

  const DefaultBaseUrl := "http://localhost:3000"
  const Routes := ["", "/auth/signin"]
  const Locales := ["en", "ko"]
  const Daily := "daily"

  /** The two priorities the sitemap uses: 1 for the home route, 0.8 otherwise. */
  datatype Priority = Top | Lower

  datatype Entry = Entry(
    url: string,
    lastModified: Time,
    changeFrequency: string,
    priority: Priority,
    alternateEn: string,
    alternateKo: string)

  /** `process.env.NEXT_PUBLIC_APP_URL || "http://localhost:3000"`. */
  function BaseUrl(env: Option<string>): (b: string)
    ensures env.Some? && env.value != "" ==> b == env.value
    ensures env.None? || env.value == "" ==> b == DefaultBaseUrl
  {
    if env.Some? && env.value != "" then env.value else DefaultBaseUrl
  }

  /** The path segment a locale adds: none for English, `/<locale>` otherwise. */
  function LocalePrefix(locale: string): (p: string)
    ensures locale == "en" <==> p == []
  {
    if locale == "en" then "" else "/" + locale
  }

  /** The entry pushed for one route and one locale. */
  function EntryFor(base: string, route: string, locale: string, now: Time): Entry {
    Entry(base + LocalePrefix(locale) + route, now, Daily,
      if route == "" then Top else Lower,
      base + route, base + "/ko" + route)
  }

  /**
   * `sitemap()`: the nested loops, routes outer and locales inner, push entry `k` for
   * route `k / |Locales|` and locale `k % |Locales|`; there is one per route and locale.
   */
  method Build(env: Option<string>, now: Time) returns (entries: seq<Entry>)
    ensures |entries| == |Routes| * |Locales|
    ensures forall k :: 0 <= k < |entries| ==>
      entries[k] == EntryFor(BaseUrl(env), Routes[k / |Locales|], Locales[k % |Locales|], now)
    ensures var b := BaseUrl(env);
      entries == [
        Entry(b, now, Daily, Top, b, b + "/ko"),
        Entry(b + "/ko", now, Daily, Top, b, b + "/ko"),
        Entry(b + "/auth/signin", now, Daily, Lower, b + "/auth/signin", b + "/ko/auth/signin"),
        Entry(b + "/ko/auth/signin", now, Daily, Lower, b + "/auth/signin", b + "/ko/auth/signin")]
  {
    var base := BaseUrl(env);
    entries := [];
    var i := 0;
    while i < |Routes|
      invariant 0 <= i <= |Routes|
      invariant |entries| == i * |Locales|
      invariant forall k :: 0 <= k < |entries| ==>
        entries[k] == EntryFor(base, Routes[k / |Locales|], Locales[k % |Locales|], now)
    {
      var j := 0;
      while j < |Locales|
        invariant 0 <= j <= |Locales|
        invariant |entries| == i * |Locales| + j
        invariant forall k :: 0 <= k < |entries| ==>
          entries[k] == EntryFor(base, Routes[k / |Locales|], Locales[k % |Locales|], now)
      {
        entries := entries + [EntryFor(base, Routes[i], Locales[j], now)];
        j := j + 1;
      }
      i := i + 1;
    }
    SitemapEntries(env, now, entries);
  }

  /** Each entry's own url is the alternate listed for its locale. */
  lemma UrlIsOwnAlternate(b: string, route: string, now: Time)
    ensures EntryFor(b, route, "en", now).url == EntryFor(b, route, "en", now).alternateEn
    ensures EntryFor(b, route, "ko", now).url == EntryFor(b, route, "ko", now).alternateKo
  {
    assert b + "" == b;
    assert LocalePrefix("ko") == "/ko";
  }

  /** The home page in English and Korean, at the top priority. */
  lemma HomeEntries(b: string, now: Time)
    ensures EntryFor(b, "", "en", now) == Entry(b, now, Daily, Top, b, b + "/ko")
    ensures EntryFor(b, "", "ko", now) == Entry(b + "/ko", now, Daily, Top, b, b + "/ko")
  {
    assert b + "" + "" == b && b + "" == b;
    assert LocalePrefix("ko") == "/ko";
    assert b + "/ko" + "" == b + "/ko";
  }

  /** The sign-in page in English and Korean, at the lower priority. */
  lemma SignInEntries(b: string, now: Time)
    ensures EntryFor(b, "/auth/signin", "en", now)
      == Entry(b + "/auth/signin", now, Daily, Lower, b + "/auth/signin", b + "/ko/auth/signin")
    ensures EntryFor(b, "/auth/signin", "ko", now)
      == Entry(b + "/ko/auth/signin", now, Daily, Lower, b + "/auth/signin", b + "/ko/auth/signin")
  {
    assert "/auth/signin" != "";
    assert b + "" + "/auth/signin" == b + "/auth/signin";
    assert LocalePrefix("ko") == "/ko";
    assert b + "/ko" + "/auth/signin" == b + ("/ko" + "/auth/signin");
    assert "/ko" + "/auth/signin" == "/ko/auth/signin";
  }

  /** The four entries of the sitemap, in order. */
  lemma SitemapEntries(env: Option<string>, now: Time, entries: seq<Entry>)
    requires |entries| == |Routes| * |Locales|
    requires forall k :: 0 <= k < |entries| ==>
      entries[k] == EntryFor(BaseUrl(env), Routes[k / |Locales|], Locales[k % |Locales|], now)
    ensures var b := BaseUrl(env);
      entries == [
        Entry(b, now, Daily, Top, b, b + "/ko"),
        Entry(b + "/ko", now, Daily, Top, b, b + "/ko"),
        Entry(b + "/auth/signin", now, Daily, Lower, b + "/auth/signin", b + "/ko/auth/signin"),
        Entry(b + "/ko/auth/signin", now, Daily, Lower, b + "/auth/signin", b + "/ko/auth/signin")]
  {
    var b := BaseUrl(env);
    HomeEntries(b, now);
    SignInEntries(b, now);
    assert entries[0] == EntryFor(b, "", "en", now);
    assert entries[1] == EntryFor(b, "", "ko", now);
    assert entries[2] == EntryFor(b, "/auth/signin", "en", now);
    assert entries[3] == EntryFor(b, "/auth/signin", "ko", now);
  }
}
