/**
 * The gateway that runs before every matched page request: it normalises the path,
 * reads the token cookie, and decides between letting the request through and one of
 * three redirects. The request to the profile endpoint is not performed here: its
 * parsed answer (or the failure to parse it) is an input.
 */
module Middleware {
  import opened Wrappers
  import opened Strings
  import opened Js
  import opened ProfileTypes
  import opened AccessCheck

  datatype Verdict =
    | Next               // NextResponse.next()
    | RedirectDashboard  // to /dashboard
    | RedirectLogin      // to /login
    | RedirectDenied     // to /access-not-allowed

  /** What `await res.json()` produced for the profile endpoint's answer. */
  datatype ProfileBody = Unparseable | Parsed(data: ProfileResponse)

  /** The route of the denial page, as the normalised path compares it. */
  const DeniedRoute := "access-not-allowed"

  const Slash: set<char> := {'/'}

  /** `s.replace(/^\/+|\/+$/g, "")`: every leading and every trailing slash removed. */
  function TrimSlashes(s: string): (r: string)
    ensures r == [] || (r[0] != '/' && r[|r| - 1] != '/')
    ensures var i := LeadingCount(s, Slash);
            i + |r| <= |s| && r == s[i..i + |r|]
            && (forall k :: 0 <= k < i ==> s[k] == '/')
            && (forall k :: i + |r| <= k < |s| ==> s[k] == '/')
  {
    Strip(s, Slash)
  }

  lemma TrimSlashesIdempotent(s: string)
    ensures TrimSlashes(TrimSlashes(s)) == TrimSlashes(s)
  {
    StripIdempotent(s, Slash);
  }

  /** A path that neither starts nor ends with a slash is left as it is. */
  lemma TrimSlashesKeepsInner(s: string)
    requires s == [] || (s[0] != '/' && s[|s| - 1] != '/')
    ensures TrimSlashes(s) == s
  {
    StripIsIdentity(s, Slash);
  }

  /** `trimSlashes(pathname).toLowerCase().trim()`: the path without its outer slashes,
      lower-cased, and then without its outer white space (`CurrentUrlNormalises`). */
  function CurrentUrl(pathname: string): (r: string)
    ensures r == [] || (r[0] !in JsWhitespace && r[|r| - 1] !in JsWhitespace)
    ensures forall k :: 0 <= k < |r| ==> !IsAsciiUpper(r[k])
  {
    TrimKeepsLowerCase(Lower(TrimSlashes(pathname)));
    Trim(Lower(TrimSlashes(pathname)))
  }

  /** The normalised route is exactly the lower-cased slash-trimmed path with its leading and
      trailing white space removed. */
  lemma CurrentUrlNormalises(pathname: string)
    ensures IsStripped(CurrentUrl(pathname), Lower(TrimSlashes(pathname)), JsWhitespace)
  {
  }

  /** The part of the decision taken before any profile is fetched. */
  datatype Gate = Decided(verdict: Verdict) | FetchProfile(currentUrl: string)

  /** The first three early returns: public routes and missing tokens never cause a fetch. */
  function Gatekeep(pathname: string, tokenCookie: Option<string>, publicRoutes: seq<string>): (g: Gate)
    ensures var url := CurrentUrl(pathname);
            var loggedIn := Truthy(tokenCookie);
            && (g.FetchProfile? <==> (url !in publicRoutes && loggedIn))
            && (g.FetchProfile? ==> g.currentUrl == url)
            && (url in publicRoutes && !loggedIn ==> g == Decided(Next))
            && (url in publicRoutes && loggedIn ==> g == Decided(RedirectDashboard))
            && (url !in publicRoutes && !loggedIn ==> g == Decided(RedirectLogin))
  {
    var currentUrl := CurrentUrl(pathname);
    var token := OrEmpty(tokenCookie);
    var isPublic := currentUrl in publicRoutes;
    if isPublic && token == "" then Decided(Next)
    else if isPublic && token != "" then Decided(RedirectDashboard)
    else if token == "" then Decided(RedirectLogin)
    else FetchProfile(currentUrl)
  }

  /** The early returns after the profile was fetched. Only a subscribed success, or any
      answer but a 401/403 error or an unsubscribed success while already on the denial
      page, lets the request through; a 401/403 error, an unsubscribed success or an
      unreadable body sends to login; every other error sends to the denial page. */
  function Judge(currentUrl: string, body: ProfileBody): (v: Verdict)
    ensures v != RedirectDashboard
    ensures v == RedirectLogin <==>
              (|| body.Unparseable?
               || (body.data.ProfileError? && body.data.statusCode in {401, 403})
               || (body.data.ProfileSuccess? && !body.data.isSubscribed))
    ensures v == RedirectDenied <==>
              (&& body.Parsed? && body.data.ProfileError? && body.data.statusCode !in {401, 403}
               && currentUrl != DeniedRoute)
    ensures v == Next ==> body.Parsed? && (body.data.ProfileSuccess? || currentUrl == DeniedRoute)
  {
    match body
    case Unparseable => RedirectLogin
    case Parsed(data) =>
      if !data.ProfileSuccess? && (data.StatusCode() == 401 || data.StatusCode() == 403) then RedirectLogin
      else if data.ProfileSuccess? && data.isSubscribed == false then RedirectLogin
      else if !CheckAccess(data.WithCurrentUrl(currentUrl)) && currentUrl != DeniedRoute then RedirectDenied
      else Next
  }

  /** `middleware(request)`, with the token cookie, the public routes and the profile
      endpoint's parsed answer as inputs. */
  function Decide(pathname: string, tokenCookie: Option<string>, publicRoutes: seq<string>, body: ProfileBody): (v: Verdict)
    ensures Gatekeep(pathname, tokenCookie, publicRoutes).Decided? ==>
              v == Gatekeep(pathname, tokenCookie, publicRoutes).verdict
    ensures Gatekeep(pathname, tokenCookie, publicRoutes).FetchProfile? ==>
              v == Judge(CurrentUrl(pathname), body)
  {
    match Gatekeep(pathname, tokenCookie, publicRoutes)
    case Decided(verdict) => verdict
    case FetchProfile(currentUrl) => Judge(currentUrl, body)
  }

  /** Fail closed: a request is let through only to a public route without a token, or with
      a token, a parsed answer, and either a subscribed success or the denial page itself. */
  lemma NextOnlyWhenEntitled(pathname: string, tokenCookie: Option<string>, publicRoutes: seq<string>, body: ProfileBody)
    requires Decide(pathname, tokenCookie, publicRoutes, body) == Next
    ensures var url := CurrentUrl(pathname);
            || (url in publicRoutes && !Truthy(tokenCookie))
            || (&& url !in publicRoutes && Truthy(tokenCookie) && body.Parsed?
                && ((body.data.ProfileSuccess? && body.data.isSubscribed) || url == DeniedRoute))
  {
  }

  /** The answer is irrelevant whenever the first three checks already decide. */
  lemma NoFetchNoDependence(pathname: string, tokenCookie: Option<string>, publicRoutes: seq<string>, b1: ProfileBody, b2: ProfileBody)
    requires Gatekeep(pathname, tokenCookie, publicRoutes).Decided?
    ensures Decide(pathname, tokenCookie, publicRoutes, b1) == Decide(pathname, tokenCookie, publicRoutes, b2)
  {
  }

  /** A missing cookie and an empty cookie are both "logged out". */
  lemma MissingTokenIsEmptyToken(pathname: string, publicRoutes: seq<string>, body: ProfileBody)
    ensures Decide(pathname, None, publicRoutes, body) == Decide(pathname, Some(""), publicRoutes, body)
  {
  }

  /** Slashes placed around a slash-free-ended route are exactly what `TrimSlashes` removes. */
  lemma TrimSlashesUnwraps(route: string)
    requires route == [] || (route[0] != '/' && route[|route| - 1] != '/')
    ensures TrimSlashes("/" + route + "/") == route
  {
    var p := "/" + route + "/";
    var r := TrimSlashes(p);
    var i := LeadingCount(p, Slash);
    if route != [] {
      assert p[0] == '/' && p[1] == route[0];
      assert i == 1;
      assert p[|route| + 1] == '/' && p[|route|] == route[|route| - 1];
      assert |r| == |route|;
      assert r == p[1..1 + |route|];
    }
  }

  /** The route is matched case-insensitively (for ASCII letters) and without its outer
      slashes: any spelling of a public route that lower-cases to it is matched. */
  lemma RouteMatchingIgnoresCaseAndSlashes(spelling: string, route: string, publicRoutes: seq<string>)
    requires route in publicRoutes && Lower(spelling) == route
    requires route == [] || (route[0] != '/' && route[|route| - 1] != '/')
    requires route == [] || (route[0] !in JsWhitespace && route[|route| - 1] !in JsWhitespace)
    ensures CurrentUrl("/" + spelling + "/") in publicRoutes
  {
    assert spelling == [] || (spelling[0] != '/' && spelling[|spelling| - 1] != '/') by {
      if spelling != [] {
        assert LowerChar(spelling[0]) == route[0];
        assert LowerChar(spelling[|spelling| - 1]) == route[|route| - 1];
      }
    }
    TrimSlashesUnwraps(spelling);
    LowerOfLower(route);
    StripIsIdentity(route, JsWhitespace);
  }
}
