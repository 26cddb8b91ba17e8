/**
 * The server-side HTTP client's request decoration and the error-message helper: which
 * methods count as unsafe, the headers the request interceptor adds from the cookies,
 * and the fallback chain that turns a thrown value into a message.
 */
module AxiosClient {
  import opened Wrappers
  import opened Strings
  import opened Js

  const UnsafeMethods: seq<string> := ["POST", "PUT", "PATCH", "DELETE"]

  /** `isUnsafeMethod(method)`: the upper-cased method (GET when there is none) is one of
      POST, PUT, PATCH and DELETE; that is, the method equals one of them up to ASCII case. */
  function IsUnsafeMethod(verb: Option<string>): (r: bool)
    ensures verb.None? ==> !r
    ensures verb.Some? ==>
              (r <==> exists u :: u in UnsafeMethods && EqualsIgnoreCase(verb.value, u))
  {
    UnsafeUpToCase(verb.GetOr("GET"));
    assert Upper("GET") == "GET";
    var m := Upper(verb.GetOr("GET"));
    m == "POST" || m == "PUT" || m == "PATCH" || m == "DELETE"
  }

  /** Comparing the upper-cased method with the upper-case names is comparing without case. */
  lemma UnsafeUpToCase(m: string)
    ensures Upper(m) in UnsafeMethods <==> exists u :: u in UnsafeMethods && EqualsIgnoreCase(m, u)
  {
    forall u | u in UnsafeMethods ensures Upper(m) == u <==> EqualsIgnoreCase(m, u) {
      UpperEqualIff(m, u);
      assert Upper(u) == u;
    }
  }

  /** The check reads lower-case spellings as their upper-case names: "post" and "Delete"
      are unsafe, "get" and an absent method are not. */
  lemma UnsafeMethodExamples()
    ensures IsUnsafeMethod(Some("post")) && IsUnsafeMethod(Some("Delete"))
    ensures !IsUnsafeMethod(Some("get")) && !IsUnsafeMethod(None)
  {
    assert Upper("post") == "POST";
    assert Upper("Delete") == "DELETE";
    assert Upper("get") == "GET";
  }

  const AuthorizationHeader := "Authorization"
  const CsrfHeader := "X-CSRFToken"
  const TokenCookie := "access_token"
  const CsrfCookie := "csrftoken"

  /** The headers after the interceptor, given the headers before it (empty when there were
      none), the request method, and the two cookie values. Authorization is set to
      "Bearer <token>" exactly when the token is truthy; X-CSRFToken is set to the CSRF
      cookie exactly when that cookie is truthy and the method is unsafe; every other
      header, and each of these two when it is not set, stays as it was. */
  function Decorate(headers: map<string, string>, verb: Option<string>, token: Option<string>, csrf: Option<string>)
    : (r: map<string, string>)
    ensures forall k :: k != AuthorizationHeader && k != CsrfHeader ==>
              (k in r <==> k in headers) && (k in headers ==> r[k] == headers[k])
    ensures Truthy(token) ==> AuthorizationHeader in r && r[AuthorizationHeader] == "Bearer " + token.value
    ensures !Truthy(token) ==>
              (AuthorizationHeader in r <==> AuthorizationHeader in headers)
              && (AuthorizationHeader in headers ==> r[AuthorizationHeader] == headers[AuthorizationHeader])
    ensures Truthy(csrf) && IsUnsafeMethod(verb) ==> CsrfHeader in r && r[CsrfHeader] == csrf.value
    ensures !(Truthy(csrf) && IsUnsafeMethod(verb)) ==>
              (CsrfHeader in r <==> CsrfHeader in headers)
              && (CsrfHeader in headers ==> r[CsrfHeader] == headers[CsrfHeader])
  {
    var withAuth := if Truthy(token) then headers[AuthorizationHeader := "Bearer " + token.value] else headers;
    if Truthy(csrf) && IsUnsafeMethod(verb) then withAuth[CsrfHeader := csrf.value] else withAuth
  }

  /** The part of an axios request configuration the interceptor reads and writes. */
  class RequestConfig {
    var verb: Option<string>  // `config.method`
    var headers: Option<map<string, string>>

    constructor (verb: Option<string>, headers: Option<map<string, string>>)
      ensures this.verb == verb && this.headers == headers
    {
      this.verb, this.headers := verb, headers;
    }
  }

  /** The request interceptor of `axiosServer(getCookie)`, with the cookies `getCookie`
      reads as a map. It updates the configuration's headers in place and returns the
      same configuration. */
  method Intercept(config: RequestConfig, cookies: map<string, string>) returns (result: RequestConfig)
    modifies config
    ensures result == config
    ensures config.verb == old(config.verb)
    ensures config.headers == Some(Decorate(old(config.headers).GetOr(map[]), config.verb,
                                            CookieValue(cookies, TokenCookie), CookieValue(cookies, CsrfCookie)))
  {
    config.headers := Some(config.headers.GetOr(map[]));
    var token := CookieValue(cookies, TokenCookie);
    if Truthy(token) {
      config.headers := Some(config.headers.value[AuthorizationHeader := "Bearer " + token.value]);
    }
    var csrf := CookieValue(cookies, CsrfCookie);
    if Truthy(csrf) && IsUnsafeMethod(config.verb) {
      config.headers := Some(config.headers.value[CsrfHeader := csrf.value]);
    }
    result := config;
  }

  /** What `getAxiosErrorMessage` can be handed. An axios error carries `message` and, when
      there was a response with data, its `detail` and `error` fields. */
  datatype Thrown =
    | AxiosError(detail: Option<string>, error: Option<string>, message: string)
    | PlainError(message: string)  // any other `Error`
    | NotAnError                   // any other thrown value

  /** `a || b || ... || fallback` over possibly absent strings: the first truthy candidate,
      or the fallback when none is. */
  function FirstTruthy(candidates: seq<Option<string>>, fallback: string): (r: string)
    ensures (forall i :: 0 <= i < |candidates| ==> !Truthy(candidates[i])) ==> r == fallback
    ensures forall i :: (&& 0 <= i < |candidates| && Truthy(candidates[i])
                         && (forall j :: 0 <= j < i ==> !Truthy(candidates[j])))
                        ==> r == candidates[i].value
  {
    if candidates == [] then fallback
    else if Truthy(candidates[0]) then candidates[0].value
    else FirstTruthy(candidates[1..], fallback)
  }

  /** `getAxiosErrorMessage(err)`: for an axios error the first truthy of `detail`, `error`,
      and then `message` whatever it is; the message of any other `Error`; otherwise
      "Unknown error". */
  function ErrorMessage(err: Thrown): (r: string)
    ensures err.AxiosError? && Truthy(err.detail) ==> r == err.detail.value
    ensures err.AxiosError? && !Truthy(err.detail) && Truthy(err.error) ==> r == err.error.value
    ensures err.AxiosError? && !Truthy(err.detail) && !Truthy(err.error) ==> r == err.message
    ensures err.PlainError? ==> r == err.message
    ensures err.NotAnError? ==> r == "Unknown error"
  {
    match err
    case AxiosError(detail, error, message) =>
      var r := FirstTruthy([detail, error], message);
      assert [detail, error][0] == detail && [detail, error][1] == error;
      r
    case PlainError(message) => message
    case NotAnError => "Unknown error"
  }
}
