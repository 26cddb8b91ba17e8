/**
 * The logout endpoint (`POST /api/logout`): it forgets the caller's cached profile, under
 * the same key the profile endpoint uses, and answers `{ success: true }` while clearing
 * the three authentication cookies.
 */
module LogoutRoute {
  import opened Wrappers
  import opened Js
  import opened ProfileCache
  import ProfileRoute

  /** One `res.cookies.set(name, value, { path, maxAge })` call. */
  datatype CookieSet = CookieSet(name: string, value: string, path: string, maxAge: int)

  /** A clearing cookie: empty value, expired at once, for the whole site. */
  function Clear(name: string): (c: CookieSet)
    ensures c.name == name && c.value == "" && c.maxAge == 0 && c.path == "/"
  {
    CookieSet(name, "", "/", 0)
  }

  /** The cookies logout clears, in the order it sets them: the token cookie, then "user",
      then "refresh_token". */
  function ClearedCookies(tokenName: string): (cs: seq<CookieSet>)
    ensures |cs| == 3
    ensures forall i :: 0 <= i < 3 ==> cs[i].value == "" && cs[i].maxAge == 0 && cs[i].path == "/"
    ensures cs[0].name == tokenName && cs[1].name == "user" && cs[2].name == "refresh_token"
  {
    [Clear(tokenName), Clear("user"), Clear("refresh_token")]
  }

  /** The response `NextResponse.json({ success: true }, { status: 200 })` and the cookie
      writes made on it, in order. */
  class Response {
    var status: int
    var success: bool
    var cookies: seq<CookieSet>

    constructor Json(success: bool, status: int)
      ensures this.success == success && this.status == status && cookies == []
    {
      this.success, this.status, cookies := success, status, [];
    }

    method SetCookie(name: string, value: string, path: string, maxAge: int)
      modifies this
      ensures cookies == old(cookies) + [CookieSet(name, value, path, maxAge)]
      ensures status == old(status) && success == old(success)
    {
      cookies := cookies + [CookieSet(name, value, path, maxAge)];
    }
  }

  /** `POST(req)`: with a truthy token, `invalidateProfile(CacheKey(token))`; without one the
      cache is not touched. The answer is always 200 `{ success: true }` with the three
      clearing cookies. */
  method Post(cache: Cache<ProfileRoute.Upstream>, cookies: map<string, string>, tokenNameEnv: Option<string>)
    returns (res: Response)
    requires cache.Valid()
    modifies cache
    ensures cache.Valid() && fresh(res)
    ensures res.status == 200 && res.success
    ensures res.cookies == ClearedCookies(TokenName(tokenNameEnv))
    ensures var token := CookieValue(cookies, TokenName(tokenNameEnv));
            && (Truthy(token) ==> cache.Model() == old(cache.Model()).Invalidate(ProfileRoute.CacheKey(token.value)))
            && (!Truthy(token) ==> cache.Model() == old(cache.Model()))
  {
    var tokenName := TokenName(tokenNameEnv);
    var token := CookieValue(cookies, tokenName);
    if Truthy(token) {
      var cacheKey := ProfileRoute.CacheKey(token.value);
      cache.Invalidate(cacheKey);
    }
    res := new Response.Json(true, 200);
    res.SetCookie(tokenName, "", "/", 0);
    res.SetCookie("user", "", "/", 0);
    res.SetCookie("refresh_token", "", "/", 0);
  }

  /** After logging out with a token, the next profile request carrying that token misses
      the cache and goes upstream (unless another request re-registers it first). */
  lemma LogoutForcesRefetch(s: State<ProfileRoute.Upstream>, token: string, ttlMs: int, now: int,
                            fetched: Outcome<ProfileRoute.Upstream>, completedAt: int,
                            joined: Outcome<ProfileRoute.Upstream>)
    ensures var key := ProfileRoute.CacheKey(token);
            var (outcome, s') := Call(s.Invalidate(key), key, ttlMs, now, fetched, completedAt, joined);
            outcome == fetched && s'.started == s.started + 1
  {
  }
}
