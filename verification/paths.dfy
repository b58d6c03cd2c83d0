/** Pathnames as the middleware sees them: the fixed pages, the prefix test
    it uses, the paths the middleware is registered for, and the pathname
    of a redirect target. */
module Paths {

  const LoginPath: string := "/login"
  const DashboardPath: string := "/dashboard"
  const AdminPath: string := "/admin"

  /** `s.startsWith(prefix)`, compared character by character. */
  function StartsWith(s: string, prefix: string): (b: bool)
    ensures b <==> prefix <= s
    decreases |prefix|
  {
    if |prefix| == 0 then true
    else |s| > 0 && s[0] == prefix[0] && StartsWith(s[1..], prefix[1..])
  }

  /** One matcher entry of the form `/base/:path*`: the base page itself or
      any path below it. */
  predicate UnderSegment(path: string, base: string)
  {
    path == base || StartsWith(path, base + "/")
  }

  /** The paths the middleware runs on: `/dashboard/:path*`, `/admin/:path*`
      and `/login`. */
  predicate InMatcher(path: string)
  {
    UnderSegment(path, DashboardPath) || UnderSegment(path, AdminPath) || path == LoginPath
  }

  /** The pathname of a redirect target: everything before the first `?`. */
  function Pathname(target: string): (p: string)
    ensures p <= target
    ensures '?' !in p
    ensures |p| < |target| ==> target[|p|] == '?'
  {
    if |target| == 0 || target[0] == '?' then ""
    else [target[0]] + Pathname(target[1..])
  }

  /** A target without a query string is its own pathname. */
  lemma {:induction false} PathnameWithoutQuery(target: string)
    requires '?' !in target
    ensures Pathname(target) == target
    decreases |target|
  {
    if |target| > 0 {
      assert target[1..] + [] == target[1..];
      PathnameWithoutQuery(target[1..]);
      assert [target[0]] + target[1..] == target;
    }
  }

  /** The query string, from the first `?` on, is not part of the pathname. */
  lemma {:induction false} PathnameDropsQuery(path: string, query: string)
    requires '?' !in path
    ensures Pathname(path + "?" + query) == path
    decreases |path|
  {
    if |path| > 0 {
      assert (path + "?" + query)[1..] == path[1..] + "?" + query;
      PathnameDropsQuery(path[1..], query);
      assert [path[0]] + path[1..] == path;
    }
  }
}
