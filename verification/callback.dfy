/** The OAuth callback handler of src/app/auth/callback/route.ts: after the
    identity provider sends the browser back with a `code`, the handler
    exchanges it for a session and redirects to a page chosen by the user's
    role, the `next` parameter, or an error page. */
module AuthCallback {
  import opened Wrappers
  import opened Roles
  import opened Paths

  /** The login page with the error flag the handler attaches on failure. */
  const ErrorQuery: string := "error=auth_callback_failed"
  const ErrorPath: string := LoginPath + "?" + ErrorQuery

  /** What `exchangeCodeForSession`, `getUser` and the profile lookup
      report: an error from the exchange, or the visitor they yield. */
  datatype Exchange = ExchangeError | Exchanged(visitor: Visitor)

  /** Where the handler sends the browser, relative to the site's origin. */
  datatype Landing = ToAdmin | ToNext(path: string) | ToError

  /** `if (code)`: a missing parameter and an empty one are both false. */
  predicate HasCode(code: Option<string>)
  {
    code.Some? && code.value != ""
  }

  /** `searchParams.get('next') ?? '/dashboard'`: the default replaces a
      missing parameter only; an empty one is kept. */
  function NextPath(next: Option<string>): (p: string)
    ensures next.Some? ==> p == next.value
    ensures next.None? ==> p == DashboardPath
  {
    next.GetOr(DashboardPath)
  }

  /** The branch structure of `GET`, with the destination for non-staff
      users already resolved to `dest`. */
  function Land(code: Option<string>, dest: string, ex: Exchange): Landing
  {
    if HasCode(code) && ex.Exchanged? then
      if IsStaffVisitor(ex.visitor) then ToAdmin else ToNext(dest)
    else
      ToError
  }

  function LandingPath(l: Landing): string
  {
    match l
    case ToAdmin => AdminPath
    case ToNext(p) => p
    case ToError => ErrorPath
  }

  /** The redirect URL of `GET`, as the source builds it: the origin followed
      by the landing path. */
  function CallbackUrl(origin: string, code: Option<string>, next: Option<string>, ex: Exchange): (url: string)
    ensures origin <= url
    ensures url[|origin|..] in {AdminPath, NextPath(next), ErrorPath}
  {
    origin + LandingPath(Land(code, NextPath(next), ex))
  }

  // ---------------------------------------------------------------------
  // The handler's cases
  // ---------------------------------------------------------------------

  /** Without a (non-empty) code the handler fails at once, whatever else the
      request carries. */
  lemma NoCodeFails(origin: string, code: Option<string>, next: Option<string>, ex: Exchange)
    requires !HasCode(code)
    ensures CallbackUrl(origin, code, next, ex) == origin + ErrorPath
  {
  }

  /** A code the auth service refuses to exchange also ends on the error
      page. */
  lemma ExchangeErrorFails(origin: string, code: Option<string>, next: Option<string>)
    ensures CallbackUrl(origin, code, next, ExchangeError) == origin + ErrorPath
  {
  }

  /** An admin or guru goes to the admin area; `next` is ignored. */
  lemma StaffGoesToAdmin(origin: string, code: Option<string>, next: Option<string>, role: Option<UserRole>)
    requires HasCode(code) && IsStaff(role)
    ensures CallbackUrl(origin, code, next, Exchanged(SignedIn(role))) == origin + AdminPath
  {
  }

  /** With no user, no profile, or the siswa role, a successful exchange
      goes to `next`, or to the dashboard when `next` is missing. */
  lemma OthersFollowNext(origin: string, code: Option<string>, next: Option<string>, v: Visitor)
    requires HasCode(code) && !IsStaffVisitor(v)
    ensures CallbackUrl(origin, code, next, Exchanged(v)) == origin + NextPath(next)
    ensures next.None? ==> CallbackUrl(origin, code, next, Exchanged(v)) == origin + DashboardPath
    ensures next == Some("") ==> CallbackUrl(origin, code, next, Exchanged(v)) == origin
  {
  }

  /** The error page is reached exactly when the code is missing or the
      exchange fails, unless `next` itself names the error page. */
  lemma ErrorExactlyOnFailure(origin: string, code: Option<string>, next: Option<string>, ex: Exchange)
    requires NextPath(next) != ErrorPath
    ensures CallbackUrl(origin, code, next, ex) == origin + ErrorPath <==> !HasCode(code) || ex.ExchangeError?
  {
    var url := CallbackUrl(origin, code, next, ex);
    if url == origin + ErrorPath {
      assert url[|origin|..] == ErrorPath;
      assert AdminPath != ErrorPath by { assert AdminPath[1] != ErrorPath[1]; }
    }
  }

  // ---------------------------------------------------------------------
  // The `next` parameter is not confined to the site
  // ---------------------------------------------------------------------

  /** As written, `next` is glued to the origin unchecked. A value that does
      not start with `/` changes how the URL reads: after
      `https://app.example` the text `@evil.example` turns the origin into
      user information and `evil.example` into the host. */
  lemma NextCanLeaveOrigin()
    ensures CallbackUrl("https://app.example", Some("c"), Some("@evil.example"), Exchanged(SignedIn(Some(Siswa))))
         == "https://app.example" + "@evil.example"
    ensures var url := CallbackUrl("https://app.example", Some("c"), Some("@evil.example"), Exchanged(SignedIn(Some(Siswa))));
            url[|"https://app.example"|] == '@'
  {
    var origin, next := "https://app.example", "@evil.example";
    OthersFollowNext(origin, Some("c"), Some(next), SignedIn(Some(Siswa)));
    assert (origin + next)[|origin|] == next[0];
  }

  /** `next` used only when it is empty or a path on this site (begins with
      `/`); anything else falls back to the dashboard. */
  function SafeNextPath(next: Option<string>): (p: string)
    ensures p == "" || p[0] == '/'
    ensures next.Some? && (next.value == "" || next.value[0] == '/') ==> p == next.value
  {
    if next.Some? && (next.value == "" || StartsWith(next.value, "/")) then next.value
    else DashboardPath
  }

  /** The corrected handler: the same branches, with `next` screened. */
  function SafeCallbackUrl(origin: string, code: Option<string>, next: Option<string>, ex: Exchange): (url: string)
    ensures origin <= url
    ensures url == origin || url[|origin|] == '/'
  {
    origin + LandingPath(Land(code, SafeNextPath(next), ex))
  }

  /** The correction changes nothing for a missing `next`, an empty one, or a
      path on this site. */
  lemma SafeAgreesOnPaths(origin: string, code: Option<string>, next: Option<string>, ex: Exchange)
    requires next.None? || next.value == "" || next.value[0] == '/'
    ensures SafeCallbackUrl(origin, code, next, ex) == CallbackUrl(origin, code, next, ex)
  {
  }
}
