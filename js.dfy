/** JavaScript value conventions shared by the routes, the middleware and the HTTP client. */
module Js {
  import opened Wrappers

  /** A possibly absent string is truthy when it is present and not empty. */
  predicate Truthy(s: Option<string>) {
    s.Some? && s.value != ""
  }

  /** `s || ""`: the string when it is truthy, the empty string otherwise. */
  function OrEmpty(s: Option<string>): (r: string)
    ensures r == "" <==> !Truthy(s)
    ensures Truthy(s) ==> r == s.value
  {
    if Truthy(s) then s.value else ""
  }

  /** `cookies.get(name)?.value`: the value of a request cookie, if the request carries it. */
  function CookieValue(cookies: map<string, string>, name: string): (r: Option<string>)
    ensures r.Some? <==> name in cookies
    ensures r.Some? ==> r.value == cookies[name]
  {
    if name in cookies then Some(cookies[name]) else None
  }

  const DefaultTokenName := "access_token"

  /** `process.env.NEXT_PUBLIC_TOKEN_NAME || "access_token"`: the name of the token cookie. */
  function TokenName(env: Option<string>): (r: string)
    ensures r != ""
    ensures Truthy(env) ==> r == env.value
    ensures !Truthy(env) ==> r == DefaultTokenName
  {
    if Truthy(env) then env.value else DefaultTokenName
  }
}
