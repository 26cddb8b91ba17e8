/** The access decision for an authenticated, subscribed user, and the name normaliser beside it. */
module AccessCheck {
  import opened Wrappers
  import opened Strings
  import opened ProfileTypes

  /** `toLowerCase(name)`: lower-cased (ASCII only), then trimmed of white space. The
      result is the middle of the lower-cased name left once its leading and trailing white
      space is removed. */
  function ToLowerCase(name: string): (r: string)
    ensures |r| <= |name|
    ensures r == [] || (r[0] !in JsWhitespace && r[|r| - 1] !in JsWhitespace)
    ensures forall k :: 0 <= k < |r| ==> !IsAsciiUpper(r[k])
    ensures IsStripped(r, Lower(name), JsWhitespace)
  {
    TrimKeepsLowerCase(Lower(name));
    Trim(Lower(name))
  }

  /** Trimming a string without upper-case letters leaves none. */
  lemma TrimKeepsLowerCase(l: string)
    requires forall k :: 0 <= k < |l| ==> !IsAsciiUpper(l[k])
    ensures forall k :: 0 <= k < |Trim(l)| ==> !IsAsciiUpper(Trim(l)[k])
  {
    var r := Trim(l);
    var i := LeadingCount(l, JsWhitespace);
    forall k | 0 <= k < |r| ensures !IsAsciiUpper(r[k]) {
      assert r[k] == l[i + k];
    }
  }

  lemma ToLowerCaseIdempotent(name: string)
    ensures ToLowerCase(ToLowerCase(name)) == ToLowerCase(name)
  {
    var r := ToLowerCase(name);
    LowerOfLower(r);
    StripIsIdentity(r, JsWhitespace);
  }

  /** `checkAccess`: every success is allowed, every error refused. The plan-based rule of
      the source is commented out, so neither the plan nor the route plays a part. */
  function CheckAccess(user: ProfileResponse): (r: bool)
    ensures r <==> IsProfileSuccess(user)
  {
    if !IsProfileSuccess(user) then false else true
  }

  /** The decision is blind to the plan name and to the route a success is attached to. */
  lemma CheckAccessIgnoresPlanAndRoute(user: ProfileResponse, plan: Option<string>, url: string)
    requires user.ProfileSuccess?
    ensures CheckAccess(user.(planName := plan).WithCurrentUrl(url))
  {
  }
}
