# Route guard and OAuth callback of an extracurricular LMS

The web app sends every request for the student dashboard, the admin area or
the login page through a middleware. The middleware decides from the signed-in
user and that user's profile role (`admin`, `guru` = teacher, `siswa` =
student) whether to let the request through or redirect it. After a sign-in
with an external identity provider, a callback handler exchanges the returned
`code` for a session. It then redirects to the admin area, to the page named
by `next`, or to the login page with an error flag.

This project models both decisions as pure Dafny functions and proves the
rules they follow. The calls to the auth service and the profile table
become plain inputs:

- `Roles.Visitor` is either `Anonymous` or `SignedIn(role)`. The role is
  `None` when the profile row is missing.
- `AuthCallback.Exchange` is either `ExchangeError` or `Exchanged(visitor)`.
- Query parameters are `Option<string>`.

Modules:

- `wrappers.dfy`: `Option`.
- `roles.dfy`: `UserRole`, `Visitor`, the staff test.
- `paths.dfy`: `startsWith`, the middleware's matcher, and the pathname of a
  redirect target.
- `middleware.dfy`: the three ordered rules (`Decide`), the matcher
  (`Route`), and an independent case table (`Policy`) that the rules are
  proved to follow.
- `callback.dfy`: the callback's branches (`Land`), the URL as written
  (`CallbackUrl`) and a corrected URL (`SafeCallbackUrl`).
- `flows.dfy`: the callback and the middleware combined.

Notes on following the code:

- `if (code)` is JavaScript truthiness, so an empty `code` takes the error
  path just like a missing one (`HasCode`).
- `next ?? '/dashboard'` replaces only a missing `next`. An empty `next` is
  used as is, so the redirect goes to the bare origin.
- The three middleware rules never apply to the same request. Their order
  therefore never changes the outcome (`RuleOrderIrrelevant`).
- `/login/x` falls outside both the login rule and the matcher
  (`LoginRuleIsExact`).

## Model

| member | source | states |
|---|---|---|
| Paths.StartsWith | src/middleware.ts:45-50 | the character-by-character `startsWith` test holds exactly when the prefix is a prefix of the path |
| Paths.Pathname | src/middleware.ts:27 | the pathname of a target is its longest prefix that contains no `?` |
| Paths.PathnameWithoutQuery | src/middleware.ts:27 | a target without a query string is its own pathname |
| Paths.PathnameDropsQuery | src/middleware.ts:27 | everything from the first `?` on is not part of the pathname |
| Middleware.Decide | src/middleware.ts:26-63 | a redirect always goes to `/login`, `/dashboard` or `/admin`, and never to the requested path |
| Middleware.Route | src/middleware.ts:66-70 | requests outside the matcher are never redirected |
| Middleware.AreaOf | src/middleware.ts:69 | a path falls in one of the three areas exactly when the matcher (`/dashboard/:path*`, `/admin/:path*`, `/login`) accepts it |
| Middleware.DecideFollowsPolicy | src/middleware.ts:29-63 | on every matched path the ordered rules give the answer of the per-area case table |
| Middleware.SignedInStaffLeavesLogin | src/middleware.ts:30-39 | a signed-in admin or guru who opens `/login` is sent to `/admin` |
| Middleware.SignedInStudentLeavesLogin | src/middleware.ts:30-41 | a signed-in siswa, or a user without a profile role, who opens `/login` is sent to `/dashboard` |
| Middleware.AnonymousSentToLogin | src/middleware.ts:44-47 | an anonymous request for any path beginning with `/dashboard` or `/admin` is sent to `/login` |
| Middleware.NonStaffSentToDashboard | src/middleware.ts:49-60 | a signed-in user who is not admin or guru, including one without a role, is sent from any `/admin` path to `/dashboard` |
| Middleware.PassesExactly | src/middleware.ts:29-63 | on matched paths a request passes if and only if it is a signed-in user in the dashboard area, a signed-in admin or guru in the admin area, or an anonymous visitor on `/login` |
| Middleware.LoginRuleIsExact | src/middleware.ts:30-50 | a path that only begins with `/login` passes the rules and is outside the matcher |
| Middleware.RulesDisjoint | src/middleware.ts:29-61 | no request satisfies the guards of two rules at once |
| Middleware.RuleOrderIrrelevant | src/middleware.ts:29-63 | testing the rules in reverse order gives the same outcome |
| Middleware.LandingPagesPass | src/middleware.ts:29-69 | the three redirect targets are matched paths, and each lets through the visitors sent there |
| Middleware.RedirectReceivers | src/middleware.ts:29-61 | only anonymous visitors are sent to `/login`, only staff to `/admin`, only signed-in users to `/dashboard` |
| Middleware.NoRedirectLoop | src/middleware.ts:29-69 | a redirect's target differs from the requested path, is matched, and is let through for the same visitor: every chain ends after one hop |
| Middleware.StaffSeparation | src/middleware.ts:38-60 | only admins and gurus are redirected to `/admin` or let into the admin area |
| AuthCallback.NextPath | src/app/auth/callback/route.ts:9 | `next` defaults to `/dashboard` only when it is missing; a present value, even empty, is kept |
| AuthCallback.CallbackUrl | src/app/auth/callback/route.ts:5-51 | the redirect URL starts with the origin, followed by `/admin`, the `next` path, or the error path |
| AuthCallback.NoCodeFails | src/app/auth/callback/route.ts:7-50 | a missing or empty `code` ends on `origin/login?error=auth_callback_failed`, whatever the other inputs |
| AuthCallback.ExchangeErrorFails | src/app/auth/callback/route.ts:28-50 | a failed code exchange ends on the error URL |
| AuthCallback.StaffGoesToAdmin | src/app/auth/callback/route.ts:32-43 | after a successful exchange an admin or guru goes to `origin/admin`, and `next` is ignored |
| AuthCallback.OthersFollowNext | src/app/auth/callback/route.ts:30-45 | after a successful exchange with no user, no profile, or role siswa, the URL is origin plus `next`: the dashboard when `next` is missing, the bare origin when it is empty |
| AuthCallback.ErrorExactlyOnFailure | src/app/auth/callback/route.ts:11-50 | unless `next` names the error page, the error URL is produced if and only if the code is missing or empty or the exchange fails |
| AuthCallback.NextCanLeaveOrigin | src/app/auth/callback/route.ts:45 | as written, `next = "@evil.example"` yields `https://app.example@evil.example`, whose host is no longer the site |
| AuthCallback.SafeNextPath | src/app/auth/callback/route.ts:9 | the corrected `next` is empty or begins with `/`, and a value of that form is kept unchanged |
| AuthCallback.SafeCallbackUrl | src/app/auth/callback/route.ts:5-51 | the corrected URL is the origin itself or the origin followed by `/` |
| AuthCallback.SafeAgreesOnPaths | src/app/auth/callback/route.ts:9-45 | the correction changes nothing when `next` is missing, empty or begins with `/` |
| Flows.LandingPathname | src/middleware.ts:27 | the middleware sees `/admin` after a staff landing and `/login` after the error landing |
| Flows.FailedCallbackShowsLogin | src/app/auth/callback/route.ts:50 | a failed callback lands on `/login`, which the middleware lets an anonymous visitor see |
| Flows.SignInLandsWithoutHop | src/app/auth/callback/route.ts:40-45 | a successful sign-in without `next` lands on a page the middleware lets that same user see |
| Flows.CallbackSettlesWithinOneHop | src/app/auth/callback/route.ts:42-50 | wherever the callback lands, the middleware lets the visitor through at once or after one redirect |

## Findings

| source | as written | input that shows it | evidently intended | confidence | as-written member | corrected member |
|---|---|---|---|---|---|---|
| src/app/auth/callback/route.ts:45 | the URL is `${origin}${next}`, and `next` comes straight from the query string unchecked | origin `https://app.example`, a valid code, a siswa user, `next=@evil.example`: the URL becomes `https://app.example@evil.example`, whose host is `evil.example` | `next` is meant to be a page of this site ("the destination page after login"), so only values starting with `/` should be used | not executed; the host change follows from how URLs read the `user@host` form | AuthCallback.NextCanLeaveOrigin | AuthCallback.SafeCallbackUrl |

The corrected URL is the one `Flows` reasons about. `SafeAgreesOnPaths`
shows that both versions agree on every `next` that is missing, empty or a
path of the site.

## Left out

- The Supabase client setup and the cookie `getAll`/`setAll` handling (src/middleware.ts:5-24, src/app/auth/callback/route.ts:12-26) are I/O through a library that is not part of this model.
- `auth.getUser`, `exchangeCodeForSession` and the `profiles` query are not modelled as calls. Their results are inputs: `Visitor` and `Exchange`. A failed or empty profile query is the `None` role.
- URL parsing in `new URL(...)` is left out. The origin is an opaque string prefix, and redirect targets are path strings. `Paths.Pathname` only strips the query string; fragments, percent-encoding and `..` segments are not modelled.
- Paths.InMatcher: the Next.js matcher syntax is reduced to "the page itself or the page followed by `/` and anything". Other `path-to-regexp` features, such as trailing-slash normalisation, are not modelled.
- Middleware.NoRedirectLoop: the property assumes the visitor does not change between the two requests, as the source does. A session that expires in between is outside the model.
- AuthCallback.SafeCallbackUrl: "same origin" is stated as "the origin is followed by nothing or by `/`". Without a URL parser the model cannot state more.
- The page and layout components (blog, home, not-found, layout, sidebar) only render data and have no decision logic to model.
- The project's documentation describes XP, levels, streaks and a timed quiz. None of the files modelled here implements them, so they are not modelled.
