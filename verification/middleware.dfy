/** The route guard of src/middleware.ts: three ordered rules that either let
    the request through or redirect it to the login page, the dashboard or
    the admin area. */
module Middleware {
  import opened Wrappers
  import opened Roles
  import opened Paths

  /** `return response` lets the request through; `NextResponse.redirect`
      sends the browser to another path of the same site. */
  datatype Outcome = Next | Redirect(target: string)

  /** The three rules, in the order the source tests them. */
  predicate LoginRule(v: Visitor, pathname: string)
  {
    v.SignedIn? && pathname == LoginPath
  }

  predicate ProtectRule(v: Visitor, pathname: string)
  {
    v.Anonymous? && (StartsWith(pathname, DashboardPath) || StartsWith(pathname, AdminPath))
  }

  predicate AdminGuardRule(v: Visitor, pathname: string)
  {
    v.SignedIn? && StartsWith(pathname, AdminPath) && !IsStaff(v.role)
  }

  /** The decision of `middleware` for one request, whatever its pathname. */
  function Decide(v: Visitor, pathname: string): (o: Outcome)
    ensures o.Redirect? ==> o.target in {LoginPath, DashboardPath, AdminPath}
    ensures o.Redirect? ==> o.target != pathname
  {
    if LoginRule(v, pathname) then
      if IsStaff(v.role) then Redirect(AdminPath) else Redirect(DashboardPath)
    else if ProtectRule(v, pathname) then
      Redirect(LoginPath)
    else if AdminGuardRule(v, pathname) then
      Redirect(DashboardPath)
    else
      Next
  }

  /** A request as the framework handles it: the middleware only runs on the
      paths of its matcher; every other request goes through untouched. */
  function Route(v: Visitor, pathname: string): (o: Outcome)
    ensures !InMatcher(pathname) ==> o == Next
  {
    if InMatcher(pathname) then Decide(v, pathname) else Next
  }

  // ---------------------------------------------------------------------
  // The same decision as a case table over the three matched areas
  // ---------------------------------------------------------------------

  datatype Area = LoginPage | DashboardArea | AdminArea

  /** Which matcher entry a path falls under, if any. */
  function AreaOf(pathname: string): (a: Option<Area>)
    ensures a.Some? <==> InMatcher(pathname)
  {
    if pathname == LoginPath then Some(LoginPage)
    else if UnderSegment(pathname, DashboardPath) then Some(DashboardArea)
    else if UnderSegment(pathname, AdminPath) then Some(AdminArea)
    else None
  }

  /** Who may see which area, and where everyone else is sent. */
  function Policy(v: Visitor, a: Area): Outcome
  {
    match a
    case LoginPage =>
      if v.Anonymous? then Next
      else if IsStaff(v.role) then Redirect(AdminPath)
      else Redirect(DashboardPath)
    case DashboardArea =>
      if v.Anonymous? then Redirect(LoginPath) else Next
    case AdminArea =>
      if v.Anonymous? then Redirect(LoginPath)
      else if IsStaff(v.role) then Next
      else Redirect(DashboardPath)
  }

  /** Facts about the three fixed pages that the prefix tests depend on. */
  lemma FixedPagesDistinct()
    ensures !StartsWith(LoginPath, DashboardPath) && !StartsWith(LoginPath, AdminPath)
    ensures !StartsWith(DashboardPath, AdminPath) && !StartsWith(AdminPath, DashboardPath)
    ensures StartsWith(DashboardPath, DashboardPath) && StartsWith(AdminPath, AdminPath)
    ensures LoginPath != DashboardPath && LoginPath != AdminPath && DashboardPath != AdminPath
  {
    assert LoginPath[1] == 'l' && DashboardPath[1] == 'd' && AdminPath[1] == 'a';
  }

  /** A path under one of the two areas starts with that area's page and
      not with the other's. */
  lemma UnderDashboard(p: string)
    requires UnderSegment(p, DashboardPath)
    ensures StartsWith(p, DashboardPath) && !StartsWith(p, AdminPath) && p != LoginPath
  {
    assert DashboardPath <= p by {
      if p != DashboardPath {
        assert DashboardPath <= DashboardPath + "/";
      }
    }
    assert p[1] == 'd';
  }

  lemma UnderAdmin(p: string)
    requires UnderSegment(p, AdminPath)
    ensures StartsWith(p, AdminPath) && !StartsWith(p, DashboardPath) && p != LoginPath
  {
    assert AdminPath <= p by {
      if p != AdminPath {
        assert AdminPath <= AdminPath + "/";
      }
    }
    assert p[1] == 'a';
  }

  /** On every path the middleware runs on, the ordered rules give exactly
      the case table's answer. */
  lemma DecideFollowsPolicy(v: Visitor, p: string)
    requires InMatcher(p)
    ensures Decide(v, p) == Policy(v, AreaOf(p).value)
  {
    FixedPagesDistinct();
    if p == LoginPath {
    } else if UnderSegment(p, DashboardPath) {
      UnderDashboard(p);
    } else {
      UnderAdmin(p);
    }
  }

  // ---------------------------------------------------------------------
  // One lemma per rule of the source
  // ---------------------------------------------------------------------

  /** A signed-in admin or guru who opens the login page goes to the admin
      area. */
  lemma SignedInStaffLeavesLogin(role: Option<UserRole>)
    requires IsStaff(role)
    ensures Route(SignedIn(role), LoginPath) == Redirect(AdminPath)
  {
  }

  /** A signed-in siswa, or a user without a profile row, who opens the login
      page goes to the dashboard. */
  lemma SignedInStudentLeavesLogin(role: Option<UserRole>)
    requires role == Some(Siswa) || role == None
    ensures Route(SignedIn(role), LoginPath) == Redirect(DashboardPath)
  {
  }

  /** Nobody signed in: any path beginning with `/dashboard` or `/admin` is
      sent to the login page. */
  lemma AnonymousSentToLogin(p: string)
    requires StartsWith(p, DashboardPath) || StartsWith(p, AdminPath)
    ensures Decide(Anonymous, p) == Redirect(LoginPath)
  {
  }

  /** A signed-in user without the admin or guru role, or without any role,
      is turned away from every path beginning with `/admin`. */
  lemma NonStaffSentToDashboard(role: Option<UserRole>, p: string)
    requires !IsStaff(role)
    requires StartsWith(p, AdminPath)
    ensures Decide(SignedIn(role), p) == Redirect(DashboardPath)
  {
    FixedPagesDistinct();
  }

  /** Within the matcher, the request passes exactly when a signed-in user
      is in the dashboard area, a signed-in admin or guru is in the admin
      area, or nobody signed in opens the login page. */
  lemma {:induction false} PassesExactly(v: Visitor, p: string)
    requires InMatcher(p)
    ensures Route(v, p) == Next <==>
      || (v.SignedIn? && UnderSegment(p, DashboardPath))
      || (IsStaffVisitor(v) && UnderSegment(p, AdminPath))
      || (v.Anonymous? && p == LoginPath)
  {
    DecideFollowsPolicy(v, p);
    if UnderSegment(p, DashboardPath) {
      UnderDashboard(p);
    } else if UnderSegment(p, AdminPath) {
      UnderAdmin(p);
    }
  }

  /** The login rule tests equality, not a prefix: a path that merely begins
      with `/login` is let through, by the middleware and by the matcher. */
  lemma LoginRuleIsExact(v: Visitor, p: string)
    requires StartsWith(p, LoginPath) && p != LoginPath
    ensures Decide(v, p) == Next
    ensures !InMatcher(p)
  {
    assert p[1] == 'l';
  }

  /** At most one rule applies to any request, so the order in which the
      source tests them never changes the outcome. */
  lemma RulesDisjoint(v: Visitor, p: string)
    ensures !(LoginRule(v, p) && ProtectRule(v, p))
    ensures !(LoginRule(v, p) && AdminGuardRule(v, p))
    ensures !(ProtectRule(v, p) && AdminGuardRule(v, p))
  {
    FixedPagesDistinct();
  }

  /** Testing the rules in the reverse order gives the same outcome. */
  function DecideReversed(v: Visitor, pathname: string): Outcome
  {
    if AdminGuardRule(v, pathname) then Redirect(DashboardPath)
    else if ProtectRule(v, pathname) then Redirect(LoginPath)
    else if LoginRule(v, pathname) then
      if IsStaff(v.role) then Redirect(AdminPath) else Redirect(DashboardPath)
    else Next
  }

  lemma {:induction false} RuleOrderIrrelevant(v: Visitor, p: string)
    ensures DecideReversed(v, p) == Decide(v, p)
  {
    RulesDisjoint(v, p);
  }

  /** The three redirect targets are matched paths, and each lets through
      the visitors that are sent there. */
  lemma LandingPagesPass(role: Option<UserRole>)
    ensures InMatcher(LoginPath) && InMatcher(DashboardPath) && InMatcher(AdminPath)
    ensures Decide(Anonymous, LoginPath) == Next
    ensures Decide(SignedIn(role), DashboardPath) == Next
    ensures IsStaff(role) ==> Decide(SignedIn(role), AdminPath) == Next
  {
    FixedPagesDistinct();
    assert InMatcher(LoginPath);
    assert InMatcher(DashboardPath) by { assert UnderSegment(DashboardPath, DashboardPath); }
    assert InMatcher(AdminPath) by { assert UnderSegment(AdminPath, AdminPath); }
    assert !LoginRule(Anonymous, LoginPath) && !ProtectRule(Anonymous, LoginPath);
    assert !AdminGuardRule(Anonymous, LoginPath);
    assert !LoginRule(SignedIn(role), DashboardPath) && !ProtectRule(SignedIn(role), DashboardPath);
    assert !AdminGuardRule(SignedIn(role), DashboardPath);
  }

  /** Who is sent where: the login page only receives anonymous visitors,
      the admin area only staff, the dashboard only signed-in users. */
  lemma RedirectReceivers(v: Visitor, p: string)
    ensures Decide(v, p) == Redirect(LoginPath) ==> v.Anonymous?
    ensures Decide(v, p) == Redirect(AdminPath) ==> IsStaffVisitor(v)
    ensures Decide(v, p) == Redirect(DashboardPath) ==> v.SignedIn?
  {
    FixedPagesDistinct();
    if LoginRule(v, p) {
    } else if ProtectRule(v, p) {
    } else if AdminGuardRule(v, p) {
    }
  }

  /** No redirect chains: a redirect never points back at the requested
      path, its target is a path the middleware runs on, and with the same
      visitor the target is let through. */
  lemma {:induction false} NoRedirectLoop(v: Visitor, p: string)
    requires Route(v, p).Redirect?
    ensures Route(v, p).target != p
    ensures InMatcher(Route(v, p).target)
    ensures Route(v, Route(v, p).target) == Next
  {
    var t := Decide(v, p).target;
    RedirectReceivers(v, p);
    match v
    case Anonymous =>
      LandingPagesPass(None);
    case SignedIn(role) =>
      LandingPagesPass(role);
  }

  /** Staff and everybody else are kept apart: only an admin or guru is ever
      sent to the admin area or let into it. */
  lemma {:induction false} StaffSeparation(v: Visitor, p: string)
    ensures Route(v, p) == Redirect(AdminPath) ==> IsStaffVisitor(v)
    ensures InMatcher(p) && UnderSegment(p, AdminPath) && Route(v, p) == Next ==> IsStaffVisitor(v)
  {
    if InMatcher(p) {
      PassesExactly(v, p);
      if UnderSegment(p, AdminPath) {
        UnderAdmin(p);
        if UnderSegment(p, DashboardPath) {
          UnderDashboard(p);
        }
      }
    }
  }
}
