/**
 * The profile endpoint (`GET /api/profile`), of which the repository has two live copies
 * that differ only in the cache TTL. It reads the token cookie, asks the profile cache
 * (keyed by a prefix of the token) for the upstream `/auth/me/` answer, and shapes that
 * answer into a `ProfileResponse` with a matching HTTP status. The upstream request and
 * its JSON decoding are inputs.
 */
module ProfileRoute {
  import opened Wrappers
  import opened Js
  import opened ProfileTypes
  import opened ProfileCache

  /** Which of the two route files. */
  datatype RouteFile =
    | SrcRoute  // src/app/api/profile/route.ts
    | AppRoute  // app/api/profile/route.ts

  /** `TTL_MS` of each route file. */
  function TtlMs(f: RouteFile): (ttl: int)
    ensures f == SrcRoute ==> ttl == 10_000
    ensures f == AppRoute ==> ttl == 60_000
  {
    match f
    case SrcRoute => 1000 * 10
    case AppRoute => 1000 * 60
  }

  const KeyPrefix := "profile:"

  /** `profile:${token.slice(0, 16)}`: the prefix, then the token's first 16 characters
      (all of it when it is shorter). The logout route derives its key with this very function. */
  function CacheKey(token: string): (key: string)
    ensures |key| == |KeyPrefix| + (if |token| < 16 then |token| else 16)
    ensures key[..|KeyPrefix|] == KeyPrefix
    ensures key[|KeyPrefix|..] == token[..|key| - |KeyPrefix|]
  {
    KeyPrefix + (if |token| <= 16 then token else token[..16])
  }

  /** Two tokens share a cache line exactly when they agree on their first 16 characters. */
  lemma CacheKeyCollision(a: string, b: string)
    ensures CacheKey(a) == CacheKey(b) <==>
              (var n := if |a| < 16 then |a| else 16;
               var m := if |b| < 16 then |b| else 16;
               a[..n] == b[..m])
  {
    var ka, kb := CacheKey(a), CacheKey(b);
    if ka == kb {
      assert ka[|KeyPrefix|..] == kb[|KeyPrefix|..];
    }
  }

  // ---------------------------------------------------------------- the upstream answer

  /** `json.data` of `/auth/me/`. `id` is already the outcome of `Number(...)`: `None` when
      that is NaN (an absent or non-numeric id), `Some(0)` for a null id. Every other absent
      or null field is `None`. */
  datatype BackendUser = BackendUser(
    id: Option<int>,
    firstName: Option<string>,
    email: Option<string>,
    profilePicture: Option<string>)

  /** `json.current_subscription` of `/auth/me/`. */
  datatype BackendSubscription = BackendSubscription(
    planName: Option<string>,
    isTrial: Option<bool>,
    status: Option<string>,
    isActive: Option<bool>)

  /** The decoded `/auth/me/` body; `isSubscribed` is the truthiness of `json.is_subscribed`. */
  datatype BackendMe = BackendMe(
    data: Option<BackendUser>,
    isSubscribed: bool,
    currentSubscription: Option<BackendSubscription>)

  /** What the fetcher resolves with: `{ ok, status, json }`, `json` being `None` when the
      body did not decode (`res.json().catch(() => null)`). */
  datatype Upstream = Upstream(ok: bool, status: int, json: Option<BackendMe>)

  /** The HTTP status and the JSON body of the route's response. */
  datatype Reply = Reply(status: int, body: ProfileResponse)

  function Failure(status: int, message: string): Reply {
    Reply(status, ProfileError(status, message, None, None))
  }

  /** The `user` object built from a decoded (or null) body: absent name and email become
      "", every absent subscription field becomes null, permissions are read and write. */
  function ShapeUser(json: Option<BackendMe>): (u: ProfileResponse)
    ensures u.ProfileSuccess? && u.StatusCode() == 200
    ensures u.permissions == [Read, Write] && u.currentUrl == None
    ensures u.isSubscribed <==> json.Some? && json.value.isSubscribed
    ensures json.None? || json.value.data.None? ==>
              u.id == None && u.name == "" && u.email == "" && u.profilePicture == None
    ensures json.None? || json.value.currentSubscription.None? ==>
              u.planName == None && u.isTrial == None && u.status == None && u.isActive == None
    ensures json.Some? && json.value.currentSubscription.Some? ==>
              var sub := json.value.currentSubscription.value;
              u.planName == sub.planName && u.isTrial == sub.isTrial && u.status == sub.status && u.isActive == sub.isActive
    ensures json.Some? && json.value.data.Some? ==>
              var d := json.value.data.value;
              u.id == d.id && u.name == d.firstName.GetOr("") && u.email == d.email.GetOr("")
              && u.profilePicture == d.profilePicture
  {
    var user := if json.Some? then json.value.data else None;
    var sub := if json.Some? then json.value.currentSubscription else None;
    ProfileSuccess(
      id := if user.Some? then user.value.id else None,
      name := if user.Some? then user.value.firstName.GetOr("") else "",
      email := if user.Some? then user.value.email.GetOr("") else "",
      profilePicture := if user.Some? then user.value.profilePicture else None,
      isSubscribed := json.Some? && json.value.isSubscribed,
      planName := if sub.Some? then sub.value.planName else None,
      isTrial := if sub.Some? then sub.value.isTrial else None,
      status := if sub.Some? then sub.value.status else None,
      isActive := if sub.Some? then sub.value.isActive else None,
      permissions := [Read, Write],
      currentUrl := None)
  }

  /** The part of `GET` after the token check: the reply for what `cachedProfile` produced.
      A rejection (a thrown exception) is a 500; a non-ok upstream answer passes its status
      through; an ok answer that is not subscribed (an undecodable body included) is a 403;
      otherwise the shaped user with 200. The HTTP status always equals `statusCode`, and
      only a subscribed user ever comes back as a success. */
  function Respond(outcome: Outcome<Upstream>): (r: Reply)
    ensures r.status == r.body.StatusCode()
    ensures r.body.ProfileSuccess? ==> r.body.isSubscribed && r.body.permissions == [Read, Write]
    ensures outcome.Rejected? ==> r == Failure(500, "Server error")
    ensures outcome.Fulfilled? && !outcome.value.ok ==>
              r == Failure(outcome.value.status, "Backend auth failed")
    ensures outcome.Fulfilled? && outcome.value.ok ==>
              var json := outcome.value.json;
              if json.Some? && json.value.isSubscribed then r == Reply(200, ShapeUser(json))
              else r == Failure(403, "NOT_SUBSCRIBED")
  {
    match outcome
    case Rejected(_) => Failure(500, "Server error")
    case Fulfilled(res) =>
      if !res.ok then Failure(res.status, "Backend auth failed")
      else
        var user := ShapeUser(res.json);
        if !user.isSubscribed then Failure(403, "NOT_SUBSCRIBED")
        else Reply(200, user)
  }

  const Unauthorized := Failure(401, "Unauthorized")

  /** `GET(req)` of either route file. The cookies and the token-name setting are the request
      and the environment; `fetched`, `completedAt` and `joined` are as for `ProfileCache.Call`.
      Without a truthy token the answer is 401 and the cache is not touched; otherwise the
      cache is consulted under `CacheKey(token)` with the file's TTL and its outcome shaped. */
  method Get(route: RouteFile, cache: Cache<Upstream>, cookies: map<string, string>, tokenNameEnv: Option<string>,
             now: int, fetched: Outcome<Upstream>, completedAt: int, joined: Outcome<Upstream>)
    returns (reply: Reply)
    requires cache.Valid()
    modifies cache
    ensures cache.Valid()
    ensures var token := CookieValue(cookies, TokenName(tokenNameEnv));
            !Truthy(token) ==> reply == Unauthorized && cache.Model() == old(cache.Model())
    ensures var token := CookieValue(cookies, TokenName(tokenNameEnv));
            Truthy(token) ==>
              var (outcome, after) := Call(old(cache.Model()), CacheKey(token.value), TtlMs(route),
                                           now, fetched, completedAt, joined);
              reply == Respond(outcome) && cache.Model() == after
  {
    var token := CookieValue(cookies, TokenName(tokenNameEnv));
    if !Truthy(token) {
      return Unauthorized;
    }
    var cacheKey := CacheKey(token.value);
    var outcome := cache.CachedProfile(cacheKey, TtlMs(route), now, fetched, completedAt, joined);
    reply := Respond(outcome);
  }

  /** A non-ok upstream answer is resolved, not thrown, so it is cached like a success: a
      second request within the TTL gets the same failure without a new upstream request. */
  lemma NonOkAnswerIsCached(route: RouteFile, s: State<Upstream>, token: string, now: int, u: Upstream,
                            completedAt: int, joined: Outcome<Upstream>, later: int,
                            fetched2: Outcome<Upstream>, completedAt2: int, joined2: Outcome<Upstream>)
    requires !u.ok && token != ""
    requires !s.IsFresh(CacheKey(token), now) && CacheKey(token) !in s.inflight
    requires later < completedAt + TtlMs(route)
    ensures var key := CacheKey(token);
            var (o1, s1) := Call(s, key, TtlMs(route), now, Fulfilled(u), completedAt, joined);
            var (o2, s2) := Call(s1, key, TtlMs(route), later, fetched2, completedAt2, joined2);
            && Respond(o1) == Failure(u.status, "Backend auth failed")
            && Respond(o2) == Respond(o1)
            && s2 == s1
  {
  }
}
