/** The callback and the route guard together: where a sign-in ends up once
    the middleware has seen the page the callback redirects to. */
module Flows {
  import opened Wrappers
  import opened Roles
  import opened Paths
  import Middleware
  import opened AuthCallback

  /** The pathname of the page a landing redirects to. */
  function LandingPathname(l: Landing): (p: string)
    ensures l.ToAdmin? ==> p == AdminPath
    ensures l.ToError? ==> p == LoginPath
  {
    match l
    case ToAdmin =>
      PathnameWithoutQuery(AdminPath);
      Pathname(AdminPath)
    case ToError =>
      PathnameDropsQuery(LoginPath, ErrorQuery);
      Pathname(ErrorPath)
    case ToNext(path) =>
      Pathname(path)
  }

  /** A failed callback shows the login page: its pathname is `/login`, which
      the middleware lets an anonymous visitor through. */
  lemma {:induction false} FailedCallbackShowsLogin()
    ensures LandingPathname(ToError) == LoginPath
    ensures Middleware.Route(Anonymous, LandingPathname(ToError)) == Middleware.Next
  {
    Middleware.LandingPagesPass(None);
  }

  /** A successful sign-in without `next` lands on a page the middleware lets
      the same user see: the admin area for staff, the dashboard otherwise. */
  lemma {:induction false} SignInLandsWithoutHop(code: Option<string>, role: Option<UserRole>)
    requires HasCode(code)
    ensures var l := Land(code, SafeNextPath(None), Exchanged(SignedIn(role)));
            Middleware.Route(SignedIn(role), LandingPathname(l)) == Middleware.Next
  {
    Middleware.LandingPagesPass(role);
    if !IsStaff(role) {
      PathnameWithoutQuery(DashboardPath);
    }
  }

  /** Wherever the callback sends a visitor, the middleware lets them through
      at once or after a single redirect. */
  lemma {:induction false} CallbackSettlesWithinOneHop(code: Option<string>, next: Option<string>, ex: Exchange, v: Visitor)
    ensures var p := LandingPathname(Land(code, SafeNextPath(next), ex));
            || Middleware.Route(v, p) == Middleware.Next
            || Middleware.Route(v, Middleware.Route(v, p).target) == Middleware.Next
  {
    var p := LandingPathname(Land(code, SafeNextPath(next), ex));
    if Middleware.Route(v, p).Redirect? {
      Middleware.NoRedirectLoop(v, p);
    }
  }
}
