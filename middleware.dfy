/**
 * middleware.ts: serves the CV on its own sub-domain. On
 * `cv.georgeyiakoumi.com` the root is rewritten to `/cv`, any other page
 * is sent to the main domain with a 301 (Moved Permanently, section 15.4.2
 * of RFC 9110), and everything else passes through.
 */
module Middleware {
  import opened Common

  const CvHost := "cv.georgeyiakoumi.com"
  const MainHost := "georgeyiakoumi.com"
  const MovedPermanently := 301

  /** The parts of a request URL the decision touches. */
  datatype Url = Url(scheme: string, hostname: string, port: string, path: string, search: string)

  /** The incoming request: the `host` header (possibly missing) and the URL. */
  datatype Request = Request(host: Option<string>, url: Url)

  datatype Outcome =
    | Rewrite(target: Url)
    | Redirect(target: Url, status: int)
    | Next

  /** Paths on the CV host that are served there rather than redirected. */
  predicate KeptOnCvHost(path: string) {
    StartsWith(path, "/cv") || StartsWith(path, "/_next") || StartsWith(path, "/api")
  }

  /** `middleware`: the routing decision for one request. */
  function Decide(r: Request): (o: Outcome)
    ensures o.Rewrite? <==> r.host == Some(CvHost) && r.url.path == "/"
    ensures o.Redirect? <==> r.host == Some(CvHost) && r.url.path != "/" && !KeptOnCvHost(r.url.path)
    ensures o.Next? <==> r.host != Some(CvHost) || (r.url.path != "/" && KeptOnCvHost(r.url.path))
    ensures o.Rewrite? ==> o.target == r.url.(path := "/cv", search := "")
    ensures o.Redirect? ==> o.status == MovedPermanently && o.target == r.url.(hostname := MainHost)
  {
    var hostname := OrString(r.host, "");
    if hostname == CvHost then
      if r.url.path == "/" then Rewrite(r.url.(path := "/cv", search := ""))
      else if !KeptOnCvHost(r.url.path) then Redirect(r.url.(hostname := MainHost), MovedPermanently)
      else Next
    else Next
  }

  /** A request without a `host` header is treated as host `''` and passes through. */
  lemma MissingHostPassesThrough(url: Url)
    ensures Decide(Request(None, url)) == Next
  {
  }

  /** The prefix test is plain `startsWith`: `/cvx` is served on the CV host too. */
  lemma PrefixIsNotASegment(url: Url)
    requires url.path == "/cvx"
    ensures Decide(Request(Some(CvHost), url)) == Next
  {
    assert StartsWith("/cvx", "/cv");
  }

  /** The `host` header a browser sends for a URL. */
  function HostHeader(u: Url): (h: string) {
    if u.port == "" then u.hostname else u.hostname + ":" + u.port
  }

  lemma MainHostHeaderIsNotCvHost(u: Url)
    requires u.hostname == MainHost
    ensures HostHeader(u) != CvHost
  {
    var h := HostHeader(u);
    assert h[0] == MainHost[0] == 'g';
    assert CvHost[0] == 'c';
  }

  /** Following a redirect cannot redirect again: the target is on the main host, which always passes through. */
  lemma RedirectDoesNotLoop(r: Request)
    requires Decide(r).Redirect?
    ensures var t := Decide(r).target; Decide(Request(Some(HostHeader(t)), t)) == Next
  {
    MainHostHeaderIsNotCvHost(Decide(r).target);
  }

  /** The rewritten request for `/cv` is itself served on the CV host. */
  lemma RewriteTargetIsServed(r: Request)
    requires Decide(r).Rewrite?
    ensures Decide(Request(r.host, Decide(r).target)) == Next
  {
    assert StartsWith("/cv", "/cv");
  }

  /**
   * The matcher `/((?!_next/static|_next/image|favicon.ico).*)` as written:
   * the `.` in `favicon.ico` is a regular-expression wildcard, so any
   * character may stand between `favicon` and `ico`.
   */
  function MatcherAsWritten(path: string): (m: bool)
    ensures m <==> (StartsWith(path, "/") &&
      !StartsWith(path, "/_next/static") && !StartsWith(path, "/_next/image") &&
      !(|path| >= 12 && path[1..8] == "favicon" && path[9..12] == "ico"))
  {
    if !StartsWith(path, "/") then false
    else
      var rest := path[1..];
      SlashPrefix(path, "_next/static");
      assert "/" + "_next/static" == "/_next/static";
      SlashPrefix(path, "_next/image");
      assert "/" + "_next/image" == "/_next/image";
      assert |rest| >= 11 ==> rest[..7] == path[1..8] && rest[8..11] == path[9..12];
      !StartsWith(rest, "_next/static") && !StartsWith(rest, "_next/image") &&
      !(|rest| >= 11 && rest[..7] == "favicon" && rest[8..11] == "ico")
  }

  /** The matcher as evidently intended: the favicon exclusion is for the literal file name. */
  function Matcher(path: string): (m: bool)
    ensures m <==> (StartsWith(path, "/") &&
      !StartsWith(path, "/_next/static") && !StartsWith(path, "/_next/image") && !StartsWith(path, "/favicon.ico"))
  {
    if !StartsWith(path, "/") then false
    else
      var rest := path[1..];
      SlashPrefix(path, "_next/static");
      assert "/" + "_next/static" == "/_next/static";
      SlashPrefix(path, "_next/image");
      assert "/" + "_next/image" == "/_next/image";
      SlashPrefix(path, "favicon.ico");
      assert "/" + "favicon.ico" == "/favicon.ico";
      !StartsWith(rest, "_next/static") && !StartsWith(rest, "_next/image") && !StartsWith(rest, "favicon.ico")
  }

  /** Below the leading `/`, a path starts with `p` iff the whole path starts with `/` followed by `p`. */
  lemma SlashPrefix(path: string, p: string)
    requires StartsWith(path, "/")
    ensures StartsWith(path[1..], p) <==> StartsWith(path, "/" + p)
  {
    if |p| + 1 <= |path| {
      assert path[..|p| + 1] == [path[0]] + path[1..][..|p|];
      assert path[0] == '/';
    }
  }

  /** The wildcard lets `/faviconXico` skip the middleware, so on the CV host it is not redirected. */
  lemma WildcardSkipsOtherPaths()
    ensures !MatcherAsWritten("/faviconXico") && Matcher("/faviconXico")
    ensures Decide(Request(Some(CvHost), Url("https", CvHost, "", "/faviconXico", ""))).Redirect?
  {
    assert "faviconXico"[..7] == "favicon" && "faviconXico"[8..11] == "ico";
    assert "/faviconXico"[1..] == "faviconXico";
    assert "faviconXico"[7] == 'X' && "favicon.ico"[7] == '.';
    assert "/faviconXico"[..3][1] == 'f' && "/cv"[1] == 'c';
    assert "/faviconXico"[..6][1] == 'f' && "/_next"[1] == '_';
    assert "/faviconXico"[..4][1] == 'f' && "/api"[1] == 'a';
  }

  /** The literal favicon name is one of the names the wildcard matches. */
  lemma FaviconNameMatchesWildcard(rest: string)
    ensures StartsWith(rest, "favicon.ico") ==> |rest| >= 11 && rest[..7] == "favicon" && rest[8..11] == "ico"
  {
    if StartsWith(rest, "favicon.ico") {
      assert rest[..7] == rest[..11][..7];
      assert rest[8..11] == rest[..11][8..11];
    }
  }

  /** So the intended matcher selects every path the written one does. */
  lemma {:induction false} IntendedSelectsMore(path: string)
    requires MatcherAsWritten(path)
    ensures Matcher(path)
  {
    FaviconNameMatchesWildcard(path[1..]);
  }

  /** Static assets, optimised images and the favicon never reach the middleware, under either matcher. */
  lemma MatcherExcludesAssets(path: string)
    requires StartsWith(path, "/_next/static") || StartsWith(path, "/_next/image") || StartsWith(path, "/favicon.ico")
    ensures !Matcher(path) && !MatcherAsWritten(path)
  {
    assert path[1..][..|path| - 1] == path[1..];
    if StartsWith(path, "/_next/static") {
      assert path[1..][..12] == path[1..13];
    } else if StartsWith(path, "/_next/image") {
      assert path[1..][..11] == path[1..12];
    } else {
      assert path[1..][..11] == path[1..12];
      FaviconNameMatchesWildcard(path[1..]);
    }
  }

  /** What a request gets end to end: the middleware's decision if the written matcher selects it, else nothing is done. */
  function Handle(r: Request): (o: Outcome)
    ensures !MatcherAsWritten(r.url.path) ==> o == Next
    ensures MatcherAsWritten(r.url.path) ==> o == Decide(r)
  {
    if MatcherAsWritten(r.url.path) then Decide(r) else Next
  }

  /** The same with the intended matcher. */
  function HandleIntended(r: Request): (o: Outcome)
    ensures !Matcher(r.url.path) ==> o == Next
    ensures Matcher(r.url.path) ==> o == Decide(r)
  {
    if Matcher(r.url.path) then Decide(r) else Next
  }

  /**
   * The two differ only on paths the wildcard wrongly skips: there the
   * request passes through as written and gets the middleware's decision
   * as intended.
   */
  lemma {:induction false} HandleDiffersOnlyOnSkippedPaths(r: Request)
    ensures Handle(r) != HandleIntended(r) ==>
      !MatcherAsWritten(r.url.path) && Matcher(r.url.path) && Handle(r) == Next
  {
    if MatcherAsWritten(r.url.path) {
      IntendedSelectsMore(r.url.path);
    }
  }

  /** On the CV host, `/faviconXico` passes through as written and is redirected as intended. */
  lemma FaviconLookalikeOnCvHost()
    ensures Handle(Request(Some(CvHost), Url("https", CvHost, "", "/faviconXico", ""))) == Next
    ensures HandleIntended(Request(Some(CvHost), Url("https", CvHost, "", "/faviconXico", ""))).Redirect?
  {
    WildcardSkipsOtherPaths();
  }
}
