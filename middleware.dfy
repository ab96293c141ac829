/**
 * The request middleware: after the authentication middleware it builds the
 * Content-Security-Policy value from a template, normalising its white space
 * (`.replace(/\s{2,}/g, " ").trim()`), and sets the security headers on the response.
 * The nonce (`crypto.randomUUID()` in base64) is a parameter.
 */
module Middleware {
  import opened Wrappers
  import Strings

  predicate Ws(c: char) {
    Strings.IsWhitespace(c)
  }

  /** No character of `s` is white space. */
  predicate NoWs(s: string) {
    forall i :: 0 <= i < |s| ==> !Ws(s[i])
  }

  /** No two white-space characters of `s` are adjacent. */
  predicate NoAdjacentWs(s: string) {
    forall i :: 0 <= i < |s| - 1 ==> !(Ws(s[i]) && Ws(s[i + 1]))
  }

  /** `s.trimStart()`: `s` without its leading white space. */
  function TrimStart(s: string): (r: string)
    ensures |r| <= |s|
    ensures s != [] && Ws(s[0]) ==> |r| < |s|
    ensures r == [] || !Ws(r[0])
  {
    if s == [] || !Ws(s[0]) then s else TrimStart(s[1..])
  }

  /** What `TrimStart` leaves is a suffix of its argument, and only white space goes. */
  lemma {:induction false} TrimStartShape(s: string)
    ensures TrimStart(s) == s[|s| - |TrimStart(s)|..]
    ensures forall i :: 0 <= i < |s| - |TrimStart(s)| ==> Ws(s[i])
  {
    if s != [] && Ws(s[0]) {
      TrimStartShape(s[1..]);
    }
  }

  /** `s.trimEnd()`: `s` without its trailing white space. */
  function TrimEnd(s: string): (r: string)
    ensures |r| <= |s|
    ensures r == [] || !Ws(r[|r| - 1])
  {
    if s == [] || !Ws(s[|s| - 1]) then s else TrimEnd(s[..|s| - 1])
  }

  /** What `TrimEnd` leaves is a prefix of its argument, and only white space goes. */
  lemma {:induction false} TrimEndShape(s: string)
    ensures TrimEnd(s) == s[..|TrimEnd(s)|]
    ensures forall i :: |TrimEnd(s)| <= i < |s| ==> Ws(s[i])
  {
    if s != [] && Ws(s[|s| - 1]) {
      TrimEndShape(s[..|s| - 1]);
    }
  }

  /**
   * `s.replace(/\s{2,}/g, " ")`: scanning from the left, each maximal run of two or more
   * white-space characters becomes one space; a lone white-space character is kept.
   */
  function Collapse(s: string): (r: string)
    decreases |s|
    ensures r == [] <==> s == []
    ensures s != [] ==> (Ws(r[0]) <==> Ws(s[0]))
    ensures s != [] && !Ws(s[0]) ==> r[0] == s[0]
  {
    if s == [] then []
    else if Ws(s[0]) && |s| >= 2 && Ws(s[1]) then " " + Collapse(TrimStart(s))
    else [s[0]] + Collapse(s[1..])
  }

  /** After the collapse no two white-space characters are adjacent. */
  lemma {:induction false} CollapseNoAdjacent(s: string)
    decreases |s|
    ensures NoAdjacentWs(Collapse(s))
  {
    if s != [] {
      var r := Collapse(s);
      if Ws(s[0]) && |s| >= 2 && Ws(s[1]) {
        var rest := Collapse(TrimStart(s));
        CollapseNoAdjacent(TrimStart(s));
        assert forall i :: 1 <= i < |r| ==> r[i] == rest[i - 1];
      } else {
        var rest := Collapse(s[1..]);
        CollapseNoAdjacent(s[1..]);
        assert forall i :: 1 <= i < |r| ==> r[i] == rest[i - 1];
      }
    }
  }

  /** `s.trim()`. */
  function Trim(s: string): string {
    TrimEnd(TrimStart(s))
  }

  /** The policy value the middleware sends: the template collapsed and trimmed. */
  function NormalizePolicy(s: string): string {
    Trim(Collapse(s))
  }

  /** A substring of a string without adjacent white space has none either. */
  lemma NoAdjacentSlice(s: string, i: nat, j: nat)
    requires NoAdjacentWs(s) && i <= j <= |s|
    ensures NoAdjacentWs(s[i..j])
  {
    assert forall k :: 0 <= k < j - i ==> s[i..j][k] == s[i + k];
  }

  /**
   * The normalised policy has no leading or trailing white space and no two adjacent
   * white-space characters.
   */
  lemma NormalizedShape(s: string)
    ensures var r := NormalizePolicy(s);
      NoAdjacentWs(r) && (r != [] ==> !Ws(r[0]) && !Ws(r[|r| - 1]))
  {
    CollapseNoAdjacent(s);
    TrimKeepsNoAdjacent(Collapse(s));
    TrimEnds(Collapse(s));
  }

  lemma TrimKeepsNoAdjacent(c: string)
    requires NoAdjacentWs(c)
    ensures NoAdjacentWs(Trim(c))
  {
    var t := TrimStart(c);
    TrimStartShape(c);
    NoAdjacentSlice(c, |c| - |t|, |c|);
    TrimEndShape(t);
    NoAdjacentSlice(t, 0, |TrimEnd(t)|);
  }

  /** A trimmed string neither starts nor ends with white space. */
  lemma TrimEnds(c: string)
    ensures var r := Trim(c); r != [] ==> !Ws(r[0]) && !Ws(r[|r| - 1])
  {
    var t := TrimStart(c);
    var r := TrimEnd(t);
    TrimEndShape(t);
    if r != [] {
      assert r[0] == t[0];
    }
  }

  /** A string without adjacent white space is left alone by the collapse. */
  lemma {:induction false} CollapseFixed(s: string)
    requires NoAdjacentWs(s)
    ensures Collapse(s) == s
  {
    if s != [] {
      NoAdjacentSlice(s, 1, |s|);
      CollapseFixed(s[1..]);
    }
  }

  /** Trimming a string with no white space at either end changes nothing. */
  lemma TrimFixed(s: string)
    requires s != [] ==> !Ws(s[0]) && !Ws(s[|s| - 1])
    ensures Trim(s) == s
  {
  }

  /** Normalising twice is normalising once. */
  lemma NormalizeIdempotent(s: string)
    ensures NormalizePolicy(NormalizePolicy(s)) == NormalizePolicy(s)
  {
    var r := NormalizePolicy(s);
    NormalizedShape(s);
    CollapseFixed(r);
    TrimFixed(r);
  }

  /** The characters of `s` that are not white space, in order. */
  function Visible(s: string): string {
    if s == [] then [] else (if Ws(s[0]) then [] else [s[0]]) + Visible(s[1..])
  }

  lemma {:induction false} VisibleConcat(a: string, b: string)
    ensures Visible(a + b) == Visible(a) + Visible(b)
  {
    if a != [] {
      assert (a + b)[0] == a[0];
      assert (a + b)[1..] == a[1..] + b;
      VisibleConcat(a[1..], b);
    } else {
      assert a + b == b;
    }
  }

  lemma {:induction false} VisibleAllWs(s: string)
    requires forall i :: 0 <= i < |s| ==> Ws(s[i])
    ensures Visible(s) == []
  {
    if s != [] {
      VisibleAllWs(s[1..]);
    }
  }

  /** The collapse only rewrites white space: the other characters stay, in order. */
  lemma {:induction false} CollapseKeepsVisible(s: string)
    decreases |s|
    ensures Visible(Collapse(s)) == Visible(s)
  {
    if s != [] {
      if Ws(s[0]) && |s| >= 2 && Ws(s[1]) {
        var rest := TrimStart(s);
        TrimStartShape(s);
        CollapseKeepsVisible(rest);
        assert s == s[..|s| - |rest|] + rest;
        VisibleConcat(s[..|s| - |rest|], rest);
        VisibleAllWs(s[..|s| - |rest|]);
        VisibleConcat(" ", Collapse(rest));
      } else {
        CollapseKeepsVisible(s[1..]);
        VisibleConcat([s[0]], Collapse(s[1..]));
        assert s == [s[0]] + s[1..];
        VisibleConcat([s[0]], s[1..]);
      }
    }
  }

  /** Normalising the policy keeps every character that is not white space, in order. */
  lemma NormalizeKeepsVisible(s: string)
    ensures Visible(NormalizePolicy(s)) == Visible(s)
  {
    CollapseKeepsVisible(s);
    TrimStartKeepsVisible(Collapse(s));
    TrimEndKeepsVisible(TrimStart(Collapse(s)));
  }

  lemma TrimStartKeepsVisible(c: string)
    ensures Visible(TrimStart(c)) == Visible(c)
  {
    var t := TrimStart(c);
    TrimStartShape(c);
    var w := c[..|c| - |t|];
    assert c == w + t;
    VisibleConcat(w, t);
    VisibleAllWs(w);
  }

  lemma TrimEndKeepsVisible(t: string)
    ensures Visible(TrimEnd(t)) == Visible(t)
  {
    var r := TrimEnd(t);
    TrimEndShape(t);
    var w := t[|r|..];
    assert t == r + w;
    VisibleConcat(r, w);
    VisibleAllWs(w);
  }

  // ---- The policy template and the nonce ----

  const Indent := "\n    "

  /** The template literal up to the nonce source of `script-src`. */
  const BeforeNonce := Indent + "default-src 'self';"
    + Indent + "script-src 'self' 'unsafe-eval' 'unsafe-inline' https://accounts.google.com https://apis.google.com "

  /** The template literal after the nonce source. */
  const AfterNonce := ";"
    + Indent + "style-src 'self' 'unsafe-inline' https://fonts.googleapis.com;"
    + Indent + "img-src 'self' blob: data: https: http:;"
    + Indent + "font-src 'self' https://fonts.gstatic.com;"
    + Indent + "connect-src 'self' https://accounts.google.com https://oauth2.googleapis.com;"
    + Indent + "frame-src 'self' https://accounts.google.com;"
    + "\n  "

  /** The `'nonce-…'` source expression of `script-src`. */
  function NonceSource(nonce: string): (r: string)
    ensures |r| == |nonce| + 8 && r[0] == '\''
    ensures NoWs(nonce) ==> NoWs(r)
  {
    var r := "'nonce-" + nonce + "'";
    assert NoWs(nonce) ==> NoWs(r) by {
      if NoWs(nonce) {
        forall i | 0 <= i < |r| ensures !Ws(r[i]) {
          if i < 7 { assert r[i] == "'nonce-"[i]; }
          else if i < 7 + |nonce| { assert r[i] == nonce[i - 7]; }
          else { assert r[i] == '\''; }
        }
      }
    }
    r
  }

  /** The template literal, before normalisation. */
  function PolicyTemplate(nonce: string): string {
    BeforeNonce + NonceSource(nonce) + AfterNonce
  }

  /** Collapsing splits at a point followed by a character that is not white space. */
  lemma {:induction false} CollapseSplits(x: string, z: string)
    requires z != [] && !Ws(z[0])
    decreases |x|
    ensures Collapse(x + z) == Collapse(x) + Collapse(z)
  {
    if x != [] {
      var s := x + z;
      assert s[0] == x[0];
      assert |x| >= 2 ==> s[1] == x[1];
      if Ws(x[0]) && |x| >= 2 && Ws(x[1]) {
        var dx := TrimStart(x);
        TrimStartAppend(x, z);
        CollapseSplits(dx, z);
      } else if Ws(x[0]) && |x| == 1 {
        assert s[1..] == z;
        assert Collapse(x) == [x[0]];
      } else {
        assert s[1..] == x[1..] + z;
        CollapseSplits(x[1..], z);
      }
    } else {
      assert x + z == z;
    }
  }

  lemma {:induction false} TrimStartAppend(x: string, z: string)
    requires z != [] && !Ws(z[0])
    ensures TrimStart(x + z) == TrimStart(x) + z
  {
    if x != [] && Ws(x[0]) {
      assert (x + z)[1..] == x[1..] + z;
      TrimStartAppend(x[1..], z);
    }
  }

  /** A stretch without white space passes through the collapse unchanged. */
  lemma {:induction false} CollapseWord(t: string, y: string)
    requires NoWs(t)
    ensures Collapse(t + y) == t + Collapse(y)
  {
    if t != [] {
      assert (t + y)[0] == t[0];
      assert (t + y)[1..] == t[1..] + y;
      CollapseWord(t[1..], y);
    } else {
      assert t + y == y;
    }
  }

  /** Trimming never reaches past a stretch without white space. */
  lemma TrimAround(p: string, t: string, q: string) returns (a: string, b: string)
    requires t != [] && NoWs(t)
    ensures Trim(p + t + q) == a + t + b
  {
    a := TrimStartBefore(p, t, q);
    assert (a + t)[|a + t| - 1] == t[|t| - 1];
    b := TrimEndKeeps(a + t, q);
  }

  lemma TrimStartBefore(p: string, t: string, q: string) returns (a: string)
    requires t != [] && !Ws(t[0])
    ensures TrimStart(p + t + q) == a + t + q
  {
    var tq := t + q;
    assert tq[0] == t[0];
    TrimStartAppend(p, tq);
    a := TrimStart(p);
    assert p + t + q == p + tq;
    assert a + tq == a + t + q;
  }

  lemma {:induction false} TrimEndKeeps(v: string, q: string) returns (b: string)
    requires v != [] && !Ws(v[|v| - 1])
    decreases |q|
    ensures TrimEnd(v + q) == v + b
  {
    if q == [] {
      assert v + q == v;
      b := [];
    } else if !Ws(q[|q| - 1]) {
      b := q;
    } else {
      assert (v + q)[..|v + q| - 1] == v + q[..|q| - 1];
      b := TrimEndKeeps(v, q[..|q| - 1]);
    }
  }

  /** A nonce without white space survives normalisation whatever surrounds it. */
  lemma NonceSurvives(before: string, nonce: string, after: string)
    requires NoWs(nonce)
    ensures Strings.Includes(NormalizePolicy(before + NonceSource(nonce) + after), NonceSource(nonce))
  {
    var t := NonceSource(nonce);
    assert before + t + after == before + (t + after);
    assert (t + after)[0] == t[0];
    CollapseSplits(before, t + after);
    CollapseWord(t, after);
    assert Collapse(before + t + after) == Collapse(before) + t + Collapse(after);
    var a, b := TrimAround(Collapse(before), t, Collapse(after));
    assert Strings.OccursAt(a + t + b, t, |a|) by {
      assert (a + t + b)[|a|..|a| + |t|] == t;
    }
  }

  /** When the nonce has no white space, the normalised policy names it as a script source. */
  lemma PolicyCarriesNonce(nonce: string)
    requires NoWs(nonce)
    ensures Strings.Includes(NormalizePolicy(PolicyTemplate(nonce)), NonceSource(nonce))
  {
    NonceSurvives(BeforeNonce, nonce, AfterNonce);
  }

  // ---- The response headers ----

  /** A response whose header map the middleware sets entries in. */
  class Response {
    var headers: map<string, string>

    /** A response carrying the headers its producer gives it. */
    constructor (initial: map<string, string>)
      ensures headers == initial
    {
      headers := initial;
    }

    /** `response.headers.set(name, value)`. */
    method Set(name: string, value: string)
      modifies this
      ensures headers == old(headers)[name := value]
    {
      headers := headers[name := value];
    }
  }

  /** The names of the headers the middleware sets. */
  const SecurityNames: set<string> := {"Content-Security-Policy", "X-Frame-Options",
    "X-Content-Type-Options", "Referrer-Policy", "X-DNS-Prefetch-Control", "X-Nonce", "X-Robots-Tag"}

  /** The header assignments, in the order the middleware makes them. */
  method SetSecurityHeaders(response: Response, nonce: string, policy: string)
    modifies response
    ensures forall k :: k in response.headers <==> k in old(response.headers) || k in SecurityNames
    ensures forall k :: k in old(response.headers) && k !in SecurityNames ==>
      response.headers[k] == old(response.headers[k])
    ensures response.headers["Content-Security-Policy"] == policy
    ensures response.headers["X-Frame-Options"] == "DENY"
    ensures response.headers["X-Content-Type-Options"] == "nosniff"
    ensures response.headers["Referrer-Policy"] == "strict-origin-when-cross-origin"
    ensures response.headers["X-DNS-Prefetch-Control"] == "off"
    ensures response.headers["X-Nonce"] == nonce
    ensures response.headers["X-Robots-Tag"] == "index, follow"
  {
    response.Set("Content-Security-Policy", policy);
    response.Set("X-Frame-Options", "DENY");
    response.Set("X-Content-Type-Options", "nosniff");
    response.Set("Referrer-Policy", "strict-origin-when-cross-origin");
    response.Set("X-DNS-Prefetch-Control", "off");
    response.Set("X-Nonce", nonce);
    response.Set("X-Robots-Tag", "index, follow");
  }

  /**
   * The middleware: the response is the authentication middleware's result when there is
   * one, otherwise a fresh pass-through response carrying `nextHeaders`, the headers
   * `NextResponse.next()` sets itself (such as `x-middleware-next`); the security headers are
   * then set on it, replacing values of the same names and keeping the others. When the nonce
   * has no white space, the policy sent allows scripts carrying the nonce sent in `X-Nonce`.
   */
  method Handle(authResult: Option<Response>, nextHeaders: map<string, string>, nonce: string)
    returns (response: Response)
    modifies if authResult.Some? then {authResult.value} else {}
    ensures authResult.Some? ==> response == authResult.value
    ensures authResult.None? ==> fresh(response)
    ensures authResult.None? ==> forall k :: k in response.headers <==> k in nextHeaders || k in SecurityNames
    ensures authResult.None? ==> forall k :: k in nextHeaders && k !in SecurityNames ==>
      response.headers[k] == nextHeaders[k]
    ensures authResult.Some? ==> forall k :: k in response.headers <==> k in old(authResult.value.headers) || k in SecurityNames
    ensures authResult.Some? ==> forall k :: k in old(authResult.value.headers) && k !in SecurityNames ==>
      response.headers[k] == old(authResult.value.headers[k])
    ensures response.headers["Content-Security-Policy"] == NormalizePolicy(PolicyTemplate(nonce))
    ensures response.headers["X-Frame-Options"] == "DENY"
    ensures response.headers["X-Content-Type-Options"] == "nosniff"
    ensures response.headers["Referrer-Policy"] == "strict-origin-when-cross-origin"
    ensures response.headers["X-DNS-Prefetch-Control"] == "off"
    ensures response.headers["X-Nonce"] == nonce
    ensures response.headers["X-Robots-Tag"] == "index, follow"
    ensures NoWs(nonce) ==>
      Strings.Includes(response.headers["Content-Security-Policy"], NonceSource(response.headers["X-Nonce"]))
  {
    if authResult.Some? {
      response := authResult.value;
    } else {
      response := new Response(nextHeaders);
    }
    var policy := NormalizePolicy(PolicyTemplate(nonce));
    SetSecurityHeaders(response, nonce, policy);
    if NoWs(nonce) {
      PolicyCarriesNonce(nonce);
    }
  }
}
