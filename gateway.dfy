/**
 * The gateway and the profile endpoint together: the middleware forwards the request's
 * cookies to the profile endpoint and judges the JSON that endpoint replies with. These
 * lemmas follow each kind of cached upstream outcome through both.
 */
module Gateway {
  import opened Wrappers
  import opened Js
  import opened ProfileCache
  import opened ProfileRoute
  import opened Middleware

  /** The verdict the middleware reaches on the profile endpoint's reply to an outcome of
      the profile cache: a thrown upstream request or an upstream error other than 401/403
      lands on the denial page (or passes when already there); an upstream 401 or 403 and an
      unsubscribed user go to login; a subscribed user passes. */
  lemma VerdictOnProfileReply(currentUrl: string, outcome: Outcome<Upstream>)
    ensures var v := Judge(currentUrl, Parsed(Respond(outcome).body));
            var elsewhere := if currentUrl == DeniedRoute then Next else RedirectDenied;
            && (outcome.Rejected? ==> v == elsewhere)
            && (outcome.Fulfilled? && !outcome.value.ok ==>
                  v == if outcome.value.status in {401, 403} then RedirectLogin else elsewhere)
            && (outcome.Fulfilled? && outcome.value.ok ==>
                  v == if outcome.value.json.Some? && outcome.value.json.value.isSubscribed
                       then Next else RedirectLogin)
  {
    var r := Respond(outcome);
    if outcome.Fulfilled? && outcome.value.ok {
      var json := outcome.value.json;
      if json.Some? && json.value.isSubscribed {
        assert r.body.ProfileSuccess? && r.body.isSubscribed;
      }
    }
  }

  /** Whenever the middleware goes on to fetch the profile, the cookies it forwards carry a
      truthy token under the cookie name the profile endpoint reads. */
  lemma FetchCarriesToken(pathname: string, cookies: map<string, string>, tokenNameEnv: Option<string>,
                          publicRoutes: seq<string>)
    ensures Gatekeep(pathname, CookieValue(cookies, TokenName(tokenNameEnv)), publicRoutes).FetchProfile? ==>
              Truthy(CookieValue(cookies, TokenName(tokenNameEnv)))
  {
  }
}
