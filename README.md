# Auth gateway with a single-flight profile cache

A Dafny model of a Next.js application's authentication core:

- the **middleware** that runs before every matched page request. It normalises the requested path, reads the token cookie, asks the profile endpoint about the user, and decides between letting the request through and redirecting it to `/dashboard`, `/login` or `/access-not-allowed`;
- the **profile endpoint** (`GET /api/profile`, in two live copies that differ in their cache TTL; the copy under `src/` also writes log lines). It checks the token, asks a process-wide cache for the upstream `/auth/me/` answer, and shapes that answer into a `ProfileResponse`;
- the **profile cache**:
  - a TTL store of settled values;
  - a registry of in-flight computations that lets concurrent callers for one key share one upstream request (single flight);
  - an explicit invalidation;
- the **logout endpoint**, which invalidates the caller's cache line under the same key and clears the authentication cookies;
- the **access check**, its name normaliser, and the **profile answer types**;
- the **server HTTP client**'s request decoration (Authorization and CSRF headers) and its error-message helper;
- the **data logic of the account form**:
  - the date formatter;
  - the digit filter of the age field;
  - adding and removing roles;
  - the field validators;
  - the plan-label lookup.

Modules:

- `Wrappers`, `Js`, `Strings`: the JavaScript conventions the code relies on.
  - Truthiness, `||`, `??`, cookies as a map.
  - ASCII case mapping.
  - `trim` and the `\s` class as the ECMAScript white-space set.
  - Decimal formatting and `padStart`.
  - String order as code-unit lexicographic order.
- `ProfileTypes`, `AccessCheck`, `Middleware`: the gateway. The middleware splits into:
  - `Gatekeep`, the checks made before any request;
  - `Judge`, the checks on the parsed profile answer;
  - `Decide`, which composes the two.
- `ProfileCache`: `State` is the specification as a value; `Cache` is the mutable object.
  - `State`'s member functions are:
    - `Lookup`, the synchronous part of a call up to its `await`: hit, join the computation in flight, or start one and register it;
    - `Settle`, what happens when the started fetcher settles: store on success, then the `finally` drops the registration;
    - `Invalidate`.
  - `Call` is one whole call.
  - `Cache` has the two maps as fields, and each of its methods is proved to move its state exactly as `State` says.
  - Promise identity is a counter of fetcher invocations.
- `ProfileRoute`, `LogoutRoute`: the two endpoints. The cache key is defined once (`CacheKey`), so the two endpoints agree on it by construction.
- `AxiosClient`: the request interceptor and `getAxiosErrorMessage`.
- `AddProduct`: the account form's logic.
- `Gateway`: cross-module lemmas that follow each cached upstream outcome through the endpoint and the middleware.

Behaviour worth knowing, as the code has it:

- **Upstream errors other than 401/403.** Such an error answer fails `checkAccess`, so the middleware redirects to the denial page, not to login; on the denial page itself it lets the request through (middleware.ts:110-115). `Judge` and `Gateway.VerdictOnProfileReply` state this.
- **The capability rule.** The plan-based rule is commented out, so `checkAccess` allows every success (src/lib/checkAccess.ts:4-10).
- **When an entry expires.** Expiry is measured from the moment the fetch completes (`Date.now()` inside the fetcher wrapper), not from the lookup (src/lib/profileCache.ts:17-19).
- **Non-ok upstream answers are cached.** Only a thrown fetcher counts as a failure. A non-ok upstream answer, like an undecodable body that `res.json().catch(() => null)` turns into `null`, is a resolved value, so it is cached like a success (`ProfileRoute.NonOkAnswerIsCached`).

Two consequences of the cache's unconditional `store.set` and `inflight.delete` are proved at the level of `Lookup`/`Settle` steps:

- a fetch started before a logout still stores its value when it settles (`InvalidateDuringFlight`);
- an older call's `finally` removes a newer call's registration, so a third fetch can start while the second is running (`StaleSettleDropsNewerRegistration`).

## Model

| member | source | states |
|---|---|---|
| Js.Truthy | middleware.ts:72 | (definition) a possibly absent string is truthy exactly when present and not empty; `OrEmpty` and `TokenName` connect it to `\|\|` |
| Js.OrEmpty | middleware.ts:72 | `x \|\| ""` is empty exactly when `x` is absent or empty, and is `x` otherwise |
| Js.CookieValue | src/app/api/logout/route.ts:6 | a cookie's value is present exactly when the request carries that cookie, and is then its value |
| Js.TokenName | middleware.ts:71 | the token cookie's name is the configured name when that is non-empty, else "access_token"; never empty |
| Strings.LowerChar | middleware.ts:69 | a capital becomes the small letter at the same place in the alphabet; every other character is kept (so no capital remains, and white space stays white space) |
| Strings.UpperChar | src/lib/axiosClient.ts:12 | a small letter becomes the capital at the same place in the alphabet; every other character is kept (so no small letter remains) |
| Strings.Lower | middleware.ts:69 | `toLowerCase` keeps the length and maps each character on its own |
| Strings.Upper | src/lib/axiosClient.ts:12 | `toUpperCase` keeps the length and maps each character on its own |
| Strings.UpperEqualIff | src/lib/axiosClient.ts:12-13 | two strings have equal upper-case forms exactly when they are equal up to ASCII case |
| Strings.LowerOfLower | middleware.ts:69 | a string with no upper-case letters is its own lower-case form |
| Strings.LeadingCount | middleware.ts:66 | every character before the returned index is in the set, and the character at it (if any) is not |
| Strings.TrailingStop | middleware.ts:66 | every character from the returned index on is in the set, and the one just before it (if any) is not |
| Strings.Strip | middleware.ts:66 | the result is the contiguous middle of the input (`IsStripped`); only characters of the set flank it, and neither of its ends is in the set |
| Strings.StripIsIdentity | middleware.ts:66 | stripping changes nothing exactly when neither end of the input is in the set |
| Strings.StripIdempotent | middleware.ts:66 | stripping twice is stripping once |
| Strings.IsStripped | middleware.ts:66 | (definition) the result is the slice of the input that starts where the leading run of set characters ends, with only set characters after it |
| Strings.Trim | src/lib/checkAccess.ts:2 | `trim` yields the input with its leading and trailing white space removed and nothing else: the middle slice after the leading white space, with only white space after it, and neither end white space |
| Strings.Decimal | app/add-product/page.tsx:68 | `String(n)` is a non-empty digit string; it starts with '0' only for 0, and is one digit exactly below 10 |
| Strings.DecimalRoundTrip | app/add-product/page.tsx:68 | reading `String(n)` back as a number gives `n` |
| Strings.DecimalInjective | app/add-product/page.tsx:68 | distinct numbers have distinct decimal forms, and conversely |
| Strings.DecimalOfFourDigits | app/add-product/page.tsx:68 | the years 1000 to 9999 have four digits |
| Strings.LeadingZero | app/add-product/page.tsx:68 | a leading '0' does not change the value of a digit string |
| Strings.PadStart | app/add-product/page.tsx:68 | `padStart(width, fill)` reaches the width (or keeps a longer string), ends with the input and fills the front with `fill` |
| Strings.LexLess | app/add-product/page.tsx:262 | (definition) JavaScript's `<` on strings: the first differing character decides, and a proper prefix comes first; its order properties are the lemmas below |
| Strings.LexLessIrreflexive | app/add-product/page.tsx:262 | no string is below itself in string order |
| Strings.LexLessTotal | app/add-product/page.tsx:262 | of two distinct strings one is below the other |
| Strings.LexLessAsymmetric | app/add-product/page.tsx:262 | two strings are never each below the other |
| Strings.LexLessConcat | app/add-product/page.tsx:262 | with equally long first parts, the first parts decide the order of two concatenations, and only a tie passes the decision to the second parts |
| Strings.LexLessDigits | app/add-product/page.tsx:262 | on digit strings of one length, string order is numeric order |
| ProfileTypes.Permission.Name | src/types/userProfileTypes.ts:17 | a permission is named "read" or "write", and "read" only for Read |
| ProfileTypes.ProfileResponse.StatusCode | src/types/userProfileTypes.ts:19-41 | a success's status code is the literal 200; an error's is its field |
| ProfileTypes.ProfileResponse.WithCurrentUrl | middleware.ts:111 | `{ ...data, currentUrl }` sets the route and keeps every other field, hence the success/error kind and the status code |
| ProfileTypes.IsProfileSuccess | src/types/userProfileTypes.ts:45-46 | the type guard holds exactly for the success variant, whose status code is then 200 |
| AccessCheck.ToLowerCase | src/lib/checkAccess.ts:2 | the normalised name is the lower-cased name with its leading and trailing white space removed (`IsStripped`); it is no longer than the input and has no upper-case letter and no white space at either end |
| AccessCheck.TrimKeepsLowerCase | src/lib/checkAccess.ts:2 | trimming a name without upper-case letters introduces none |
| AccessCheck.ToLowerCaseIdempotent | src/lib/checkAccess.ts:2 | normalising a normalised name changes nothing |
| AccessCheck.CheckAccess | src/lib/checkAccess.ts:4-10 | access is allowed exactly for successes |
| AccessCheck.CheckAccessIgnoresPlanAndRoute | src/lib/checkAccess.ts:4-10 | a success is allowed whatever its plan name and whatever route is attached (the plan rule is commented out) |
| Middleware.TrimSlashes | middleware.ts:66 | the result is the middle of the path with every leading and trailing slash removed, and neither of its ends is a slash |
| Middleware.TrimSlashesIdempotent | middleware.ts:66 | trimming slashes twice is trimming once |
| Middleware.TrimSlashesKeepsInner | middleware.ts:66 | a path not starting or ending with a slash is unchanged |
| Middleware.TrimSlashesUnwraps | middleware.ts:66 | `/route/` trims to `route` |
| Middleware.CurrentUrl | middleware.ts:69 | the normalised route has no upper-case letter and no white space at either end |
| Middleware.CurrentUrlNormalises | middleware.ts:69 | the normalised route is the path without its outer slashes, lower-cased, with its leading and trailing white space removed (`IsStripped`) and nothing else |
| Middleware.Gatekeep | middleware.ts:69-89 | a fetch happens exactly for a non-public route with a truthy token; a public route passes when logged out and goes to the dashboard when logged in; a protected route without a token goes to login |
| Middleware.Judge | middleware.ts:98-115 | after the fetch: login exactly for an unreadable body, a 401/403 error or an unsubscribed success; the denial page exactly for any other error off the denial page; otherwise through, and never to the dashboard |
| Middleware.Decide | middleware.ts:68-116 | the verdict is the early one when the first checks decide, else the verdict on the parsed answer for the normalised route |
| Middleware.NextOnlyWhenEntitled | middleware.ts:77-115 | fail closed: through only to a public route while logged out, or with a token and a parsed answer that is a subscribed success or comes while on the denial page |
| Middleware.NoFetchNoDependence | middleware.ts:77-89 | when the first checks decide, the profile answer has no influence |
| Middleware.MissingTokenIsEmptyToken | middleware.ts:72 | a missing token cookie and an empty one give the same verdict |
| Middleware.RouteMatchingIgnoresCaseAndSlashes | middleware.ts:69-74 | any spelling that lower-cases to a public route, wrapped in slashes, is matched as that route |
| ProfileCache.State.Lookup | src/lib/profileCache.ts:10-23 | hit exactly on a fresh entry, returning its value; otherwise join exactly when the key is in flight; otherwise register a new promise under the key and count one more fetch; the store is never touched |
| ProfileCache.State.Settle | src/lib/profileCache.ts:17-28 | a value is stored under the key, expiring at completion time plus TTL; a rejection stores nothing; the key's registration is dropped either way; every other key is unchanged |
| ProfileCache.State.Invalidate | src/lib/profileCache.ts:31-34 | the key leaves the store and the registry, and nothing else changes |
| ProfileCache.Call | src/lib/profileCache.ts:5-29 | one call returns the fresh value unchanged, or the joined computation's outcome, or the fetcher's outcome; a hit or a join changes nothing; a started fetch leaves the registry as it was before the call, stores a success under the key until completion time plus TTL, stores nothing on a rejection, and leaves every other key alone |
| ProfileCache.State.IsFresh | src/lib/profileCache.ts:12 | (definition) an entry is served only strictly before its expiry instant; see `StrictExpiry` and `TtlWindow` |
| ProfileCache.Empty | src/lib/profileCache.ts:2-3 | the module starts with nothing fresh and nothing in flight |
| ProfileCache.StrictExpiry | src/lib/profileCache.ts:12 | at exactly `expiresAt` the entry is a miss, and the miss leaves the entry in place |
| ProfileCache.InvalidateIdempotent | src/lib/profileCache.ts:31-34 | invalidating twice is invalidating once |
| ProfileCache.InvalidateThenMiss | src/lib/profileCache.ts:31-34 | after an invalidation the next call for the key starts a fetch |
| ProfileCache.TtlWindow | src/lib/profileCache.ts:12-19 | a value stored at `t0` is served unchanged before `t0 + ttl`, and from then on the next call starts a new fetch |
| ProfileCache.NoNegativeCaching | src/lib/profileCache.ts:17-28 | a rejected fetch leaves the store as it was, and the next call starts a new fetch |
| ProfileCache.InvalidateDuringFlight | src/lib/profileCache.ts:17-34 | a fetch that was started before an invalidation stores its value anyway when it succeeds |
| ProfileCache.StaleSettleDropsNewerRegistration | src/lib/profileCache.ts:14-28 | after start, invalidate and restart, the first fetch failing unregisters the second, so a third call starts a third fetch |
| ProfileCache.LookupAll | src/lib/profileCache.ts:10-23 | a run of calls yields one step per call |
| ProfileCache.AllJoin | src/lib/profileCache.ts:14-15 | every call that finds the key in flight and no fresh entry joins the registered computation and changes nothing |
| ProfileCache.SingleFlight | src/lib/profileCache.ts:14-23 | of any number of calls arriving before the first one's fetch settles, the first starts the only fetch and all others join it; the store is untouched |
| ProfileCache.Cache.constructor | src/lib/profileCache.ts:2-3 | the live cache starts empty |
| ProfileCache.Cache.Lookup | src/lib/profileCache.ts:10-23 | the in-place lookup moves the maps exactly as `State.Lookup` |
| ProfileCache.Cache.Settle | src/lib/profileCache.ts:17-28 | the in-place settlement moves the maps exactly as `State.Settle` |
| ProfileCache.Cache.Invalidate | src/lib/profileCache.ts:31-34 | the in-place invalidation moves the maps exactly as `State.Invalidate` |
| ProfileCache.Cache.CachedProfile | src/lib/profileCache.ts:5-29 | a whole call on the live cache returns and leaves exactly what `Call` says |
| ProfileRoute.TtlMs | app/api/profile/route.ts:90 | the TTL is 60 seconds in this route file and 10 seconds in `src/app/api/profile/route.ts` (line 5) |
| ProfileRoute.CacheKey | src/app/api/profile/route.ts:23 | the key is "profile:" followed by the token's first 16 characters (all of a shorter token) |
| ProfileRoute.CacheKeyCollision | app/api/profile/route.ts:109 | two tokens share a cache line exactly when their 16-character prefixes agree |
| ProfileRoute.ShapeUser | app/api/profile/route.ts:141-153 | the user carries the upstream fields, with "" for an absent name or email, null for every absent subscription field, permissions read and write, and subscribed exactly when upstream says so |
| ProfileRoute.Respond | src/app/api/profile/route.ts:47-85 | a thrown fetch is 500 "Server error", a non-ok answer passes its status with "Backend auth failed", an unsubscribed answer is 403 "NOT_SUBSCRIBED", otherwise 200 with the user; the HTTP status always equals `statusCode`, and a success is always subscribed |
| ProfileRoute.Get | src/app/api/profile/route.ts:9-87 | without a truthy token, the 401 "Unauthorized" failure of lines 15-20 (`Unauthorized`) and the cache untouched; otherwise the reply to the cache's outcome under `CacheKey(token)` with the file's TTL, the cache moving as `Call` says |
| ProfileRoute.NonOkAnswerIsCached | src/app/api/profile/route.ts:24-52 | a non-ok upstream answer is cached: a second request within the TTL gets the same failure without an upstream request |
| LogoutRoute.Clear | src/app/api/logout/route.ts:13-15 | a clearing cookie has an empty value, path "/" and max-age 0 |
| LogoutRoute.ClearedCookies | src/app/api/logout/route.ts:13-15 | logout clears the token cookie, then "user", then "refresh_token" |
| LogoutRoute.Response.Json | src/app/api/logout/route.ts:12 | the response starts with the given status and success flag and no cookies |
| LogoutRoute.Response.SetCookie | src/app/api/logout/route.ts:13 | each cookie write is appended and nothing else changes |
| LogoutRoute.Post | src/app/api/logout/route.ts:4-18 | with a truthy token the cache line `CacheKey(token)` is invalidated, else the cache is untouched; the answer is 200 `{ success: true }` with the three clearing cookies |
| LogoutRoute.LogoutForcesRefetch | src/app/api/logout/route.ts:7-10 | after logout the next profile request for that token goes upstream |
| AxiosClient.IsUnsafeMethod | src/lib/axiosClient.ts:11-14 | no method counts as GET and is safe; otherwise a method is unsafe exactly when it equals POST, PUT, PATCH or DELETE up to case |
| AxiosClient.UnsafeMethodExamples | src/lib/axiosClient.ts:11-14 | "post" and "Delete" are unsafe; "get" and an absent method are safe |
| AxiosClient.UnsafeUpToCase | src/lib/axiosClient.ts:12-13 | upper-casing and comparing is comparing without case |
| AxiosClient.Decorate | src/lib/axiosClient.ts:41-56 | Authorization becomes "Bearer token" exactly when the token is truthy; X-CSRFToken becomes the CSRF cookie exactly when that is truthy and the method unsafe; every other header stays |
| AxiosClient.RequestConfig.constructor | src/lib/axiosClient.ts:40 | a configuration holds the given method and headers |
| AxiosClient.Intercept | src/lib/axiosClient.ts:40-58 | the interceptor rewrites the configuration's headers in place to the decorated headers (empty headers first when there were none), keeps the method, and returns the same configuration |
| AxiosClient.FirstTruthy | src/lib/axiosClient.ts:66 | `a \|\| b \|\| fallback` is the first truthy candidate, or the fallback when none is |
| AxiosClient.ErrorMessage | src/lib/axiosClient.ts:63-69 | an axios error's message is its `detail`, else its `error`, else its message; any other Error gives its message; anything else "Unknown error" |
| AddProduct.Pad2 | app/add-product/page.tsx:68 | (definition) `String(n).padStart(2, "0")`; its value is stated by `Pad2Value` |
| AddProduct.Pad2Value | app/add-product/page.tsx:68 | a padded field below 100 is two digits worth the number; from 100 on it is the number written out |
| AddProduct.DateValueToYmd | app/add-product/page.tsx:66-69 | the formatted date is empty exactly when there is no date; otherwise it starts with the year written unpadded (`String(year)`, all digits) followed by a dash, and with month and day below 100 it is six characters longer than the year |
| AddProduct.ParseYmd | app/add-product/page.tsx:66-69 | reading a `year-MM-DD` string back yields month and day below 100 |
| AddProduct.YmdRoundTrip | app/add-product/page.tsx:66-69 | a formatted date reads back as the date it came from |
| AddProduct.Pad2Order | app/add-product/page.tsx:68 | padded two-digit fields compare as strings as they compare as numbers |
| AddProduct.YearOrder | app/add-product/page.tsx:68 | four-digit years compare as strings as they compare as numbers |
| AddProduct.YmdOrder | app/add-product/page.tsx:243-249 | for four-digit years, the string order of formatted dates is their chronological order |
| AddProduct.DigitsOnly | app/add-product/page.tsx:172-173 | the filtered value is no longer than the input |
| AddProduct.DigitsOnlyCounts | app/add-product/page.tsx:172-173 | the filtered value consists of digits only, keeps every digit as often as it occurs, and keeps nothing else |
| AddProduct.DigitsOnlyConcat | app/add-product/page.tsx:173 | filtering distributes over concatenation, so kept digits keep their order |
| AddProduct.DigitsOnlyFixes | app/add-product/page.tsx:173 | the filter leaves a value unchanged exactly when the value is all digits |
| AddProduct.DigitsOnlyIdempotent | app/add-product/page.tsx:173 | filtering twice is filtering once |
| AddProduct.TextInput.constructor | app/add-product/page.tsx:172-173 | an input element holds its value |
| AddProduct.OnAgeChange | app/add-product/page.tsx:172-173 | the age input's value is replaced in place by its digits |
| AddProduct.AddRole | app/add-product/page.tsx:282-286 | an empty or already selected key changes nothing; any other key is appended; no duplicates are introduced |
| AddProduct.RemoveRole | app/add-product/page.tsx:306-309 | the removed role is gone, every other role stays, and no duplicates are introduced |
| AddProduct.RemoveRoleConcat | app/add-product/page.tsx:308 | removal distributes over concatenation, so the remaining roles keep their order |
| AddProduct.RemoveAbsentRole | app/add-product/page.tsx:308 | removing an unselected role changes nothing |
| AddProduct.RemoveUndoesAdd | app/add-product/page.tsx:282-309 | removing a freshly added role restores the previous selection |
| AddProduct.RemoveSelectedRole | app/add-product/page.tsx:308 | from a duplicate-free selection, removing a selected role drops exactly one entry |
| AddProduct.ValidateRequired | app/add-product/page.tsx:145 | a `required` rule accepts exactly non-empty values and refuses with its message |
| AddProduct.ValidateRoles | app/add-product/page.tsx:270-272 | the roles rule accepts exactly a non-empty selection, else "Select at least one role" |
| AddProduct.AddedRoleSatisfiesRoles | app/add-product/page.tsx:270-286 | after adding a non-empty role the roles rule accepts |
| AddProduct.MatchesEmailPattern | app/add-product/page.tsx:158 | (definition) `/^[^\s@]+@[^\s@]+\.[^\s@]+$/`: a non-empty run without white space or '@', an '@', a non-empty such run, a dot, and a non-empty such run; its consequences are `EmailShape` and `EmailExamples` |
| AddProduct.EmailShape | app/add-product/page.tsx:157-159 | an accepted address has no white space and exactly one '@', not at its start |
| AddProduct.EmailExamples | app/add-product/page.tsx:158 | "a@b.co" matches the email pattern and "a@b" does not |
| AddProduct.ValidateEmail | app/add-product/page.tsx:155-160 | the email is accepted exactly when it matches the pattern; empty gives "Required", any other mismatch "Invalid email" |
| AddProduct.ValidateRangeEnd | app/add-product/page.tsx:258-263 | the end is accepted exactly when present and, with a start, not below it in string order; errors "End required" and "End must be after start" |
| AddProduct.RangeEndIsDateOrder | app/add-product/page.tsx:243-262 | for dates from the picker with four-digit years, the end is accepted exactly when it is not before the start |
| AddProduct.ValidateConfirmPassword | app/add-product/page.tsx:390-395 | the confirmation is accepted exactly when non-empty and equal to the password; errors "Required" and "Passwords do not match" |
| AddProduct.Find | app/add-product/page.tsx:113-114 | `find` is absent exactly when no option has the key, and otherwise is the first option with that key |
| AddProduct.RoleChipLabel | app/add-product/page.tsx:51-57 | a selected role's chip shows a label exactly when the key is one of the five listed roles, and then it is that role's label (lines 313-314) |
| AddProduct.SelectedPlanLabel | app/add-product/page.tsx:113-114 | the label of the plan with the selected key, or "Choose a plan" when none has it |
| Gateway.VerdictOnProfileReply | middleware.ts:92-115 | on the endpoint's reply, a thrown fetch or an upstream error other than 401/403 leads to the denial page (or through, on it); an upstream 401/403 or an unsubscribed user leads to login; a subscribed user passes |
| Gateway.FetchCarriesToken | middleware.ts:87-94 | whenever the middleware fetches the profile, the cookies it forwards carry a truthy token under the cookie name the endpoint reads |

## Left out

- Network and framework I/O are inputs: the upstream `/auth/me/` request, the middleware's request to the profile endpoint, and `NextResponse`/redirect construction. What the fetcher and `res.json()` produce, and the verdict, stand in for them.
- Real concurrency is modelled only at the granularity of the one suspension point. `Call` assumes no other call runs meanwhile; other interleavings are expressed by composing `Lookup`, `Settle` and `Invalidate` steps. Notification order among joiners is not modelled. A joiner's outcome (`joined` in `Call`, `Cache.CachedProfile` and `ProfileRoute.Get`) is an input; that it is the starter's outcome rests on the joiner receiving the same registered promise (`Pending` identity in `SingleFlight` and `AllJoin`), not on a model of promise settlement.
- A fetcher that never settles is not modelled; its key would stay in flight.
- The middleware's own `fetch` of the profile endpoint (middleware.ts:93) rejecting is not modelled: the middleware then throws and reaches no verdict, which `ProfileBody` cannot express.
- Logging (`console.log` in src/app/api/profile/route.ts at lines 28, 69 and 81) is left out: it does not affect any answer.
- Wall-clock readings (`Date.now()`) are parameters.
- Environment variables (`NEXT_PUBLIC_TOKEN_NAME`, the API base URLs) are parameters or left out.
- The public-route list is a parameter; `src/constant/routes` is not part of this model.
- The middleware's `matcher` configuration is left out: it chooses which requests run the middleware, not what it decides.
- Strings.Lower: only ASCII letters are mapped. Unicode case mapping and the locale of `toLocaleLowerCase` are not modelled.
- Strings.LowerChar: maps only 'A' to 'Z'; JavaScript also lower-cases letters outside ASCII (and 'İ' to two characters).
- Strings.UpperChar: maps only 'a' to 'z'; JavaScript also upper-cases letters outside ASCII, some to ASCII letters ('ſ' to 'S') and some to two characters ('ß' to "SS").
- Strings.Upper: keeps the length, so it does not model the characters JavaScript upper-cases to several ('ß' to "SS").
- AxiosClient.IsUnsafeMethod: because of the ASCII-only upper-casing, a method spelt with a non-ASCII letter that JavaScript upper-cases to an ASCII one ("poſt" to "POST") counts as safe in the model and as unsafe in the code.
- Strings are sequences of characters, not UTF-16 code units. `slice(0, 16)` and string comparison differ from the model on text outside the Basic Multilingual Plane.
- JSON coercions are modelled only at their outcomes:
  - `Number(id)` becomes `None` when it is not a number (it serialises as null);
  - `String(...)` and `Boolean(...)` of arbitrary JSON are taken to be already strings and booleans.
- AxiosClient.ErrorMessage: a non-string `detail` or `error` value is not modelled.
- AxiosClient.Decorate: header names are compared exactly; the case-insensitivity of `AxiosHeaders` is not modelled.
- The creation of the axios instances (`axios.create`, base URLs, credentials) is left out; it is configuration.
- Commented-out code (the earlier profile route, the plan rule in `checkAccess`, the user cookie) is not modelled.
- The account form's rendering, its submit handler, `ymdToDateValue` (a calendar-library parser), and the form library's state plumbing are left out. The Sidebar and login pages are left out as well.
- AddProduct.YmdOrder: stated only for years 1000 to 9999. Other years have a different number of digits, and string order then differs from date order.
- Negative years are not modelled: a date's year is a natural number.
