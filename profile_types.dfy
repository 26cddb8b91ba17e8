/**
 * The shape of the answer the profile endpoint gives and the middleware consumes:
 * a success carrying the user and their subscription, or an error carrying a status code.
 */
module ProfileTypes {
  import opened Wrappers

  /** The permissions a profile can grant; there are no others. */
  datatype Permission = Read | Write {

    /** The wire name of the permission. */
    function Name(): (r: string)
      ensures r == "read" || r == "write"
      ensures r == "read" <==> this == Read
    {
      match this
      case Read => "read"
      case Write => "write"
    }
  }

  /** A profile answer. A success has no status-code field of its own: its status code is
      always 200 (see `StatusCode`). `id` is `None` where the upstream identifier is not a number.
      Every nullable field of the source is an `Option`. Plan names and subscription statuses
      admit any string besides the named ones, so those fields are plain strings. `currentUrl` is the optional field
      the middleware adds before asking for an access decision. */
  datatype ProfileResponse =
    | ProfileSuccess(
        id: Option<int>,
        name: string,
        email: string,
        profilePicture: Option<string>,
        isSubscribed: bool,
        planName: Option<string>,
        isTrial: Option<bool>,
        status: Option<string>,
        isActive: Option<bool>,
        permissions: seq<Permission>,
        currentUrl: Option<string>)
    | ProfileError(
        statusCode: int,
        message: string,
        reason: Option<string>,
        currentUrl: Option<string>)
  {

    /** The `statusCode` field: the literal 200 on a success, whatever was set on an error. */
    function StatusCode(): (r: int)
      ensures ProfileSuccess? ==> r == 200
      ensures ProfileError? ==> r == statusCode
    {
      if ProfileSuccess? then 200 else statusCode
    }

    /** `{ ...this, currentUrl }`: the same answer with the requested route attached. */
    function WithCurrentUrl(url: string): (r: ProfileResponse)
      ensures r.currentUrl == Some(url)
      ensures r.ProfileSuccess? <==> ProfileSuccess?
      ensures r.StatusCode() == StatusCode()
      ensures r.(currentUrl := currentUrl) == this
    {
      this.(currentUrl := Some(url))
    }
  }

  /** `isProfileSuccess`: the type guard on the `success` discriminant. */
  predicate IsProfileSuccess(x: ProfileResponse)
    ensures IsProfileSuccess(x) ==> x.StatusCode() == 200
  {
    x.ProfileSuccess?
  }
}
