/** The route-access decision of middleware.ts: which requests pass, which go
    to the login page, and which are turned away by role. The session and the
    profile row are what the Supabase client returned for the request. */
module Middleware {
  import opened Outcomes
  import opened JsText

  /** The paths a visitor reaches without signing in, each with its sub-paths. */
  const PublicRoutes: seq<string> := ["/", "/login", "/signup", "/auth/callback", "/forgot-password", "/wizard", "/payments"]

  const LoginPath: string := "/login"
  const UnauthorizedPath: string := "/unauthorized"

  /** The `user_profiles` row of the signed-in user; the role is "" when the
      column is empty. */
  datatype Profile = Profile(role: string)

  /** `NextResponse.next()`, or a redirect, with the `redirect` search
      parameter when one is set. */
  datatype Decision = PassThrough | Redirect(path: string, redirectParam: Option<string>)

  /** `pathname === route || pathname.startsWith(route + "/")`. */
  predicate MatchesRoute(path: string, route: string) {
    path == route || StartsWith(path, route + "/")
  }

  /** `publicRoutes.some(...)`. */
  predicate IsPublicRoute(path: string) {
    exists k :: 0 <= k < |PublicRoutes| && MatchesRoute(path, PublicRoutes[k])
  }

  /** `profile?.role || 'user'`. */
  function RoleOf(profile: Option<Profile>): (role: string)
    ensures role != ""
    ensures profile.None? || profile.value.role == "" ==> role == "user"
    ensures profile.Some? && profile.value.role != "" ==> role == profile.value.role
  {
    if profile.Some? && profile.value.role != "" then profile.value.role else "user"
  }

  predicate IsAdminRole(role: string) {
    role == "admin" || role == "super_admin"
  }

  /** Where a signed-in user who opens the login or signup page is sent. */
  function AuthPageHome(role: string): string {
    if IsAdminRole(role) then "/admin"
    else if role == "partner" then "/partner"
    else "/dashboard"
  }

  /** `middleware(req)` on a path. `configured` is whether both Supabase
      settings are present, `signedIn` whether a session came back, and
      `profile` the row the role query returned (only read with a session). */
  function Decide(configured: bool, signedIn: bool, profile: Option<Profile>, path: string): (d: Decision)
    ensures !configured ==> d == PassThrough
    ensures configured && !signedIn ==>
              (d == PassThrough <==> IsPublicRoute(path))
              && (d != PassThrough ==> d == Redirect(LoginPath, Some(path)))
    ensures d.Redirect? && d.redirectParam.None? ==> configured && signedIn
  {
    if !configured then PassThrough
    else if !signedIn && !IsPublicRoute(path) then Redirect(LoginPath, Some(path))
    else if signedIn then
      var role := RoleOf(profile);
      if StartsWith(path, "/admin") && !IsAdminRole(role) then Redirect(UnauthorizedPath, None)
      else if StartsWith(path, "/partner") && role != "partner" then Redirect(UnauthorizedPath, None)
      else if path == "/login" || path == "/signup" then Redirect(AuthPageHome(role), None)
      else PassThrough
    else PassThrough
  }

  /** The file extensions the matcher leaves to the static file server. */
  const StaticImageExtensions: seq<string> := ["svg", "png", "jpg", "jpeg", "gif", "webp"]

  predicate EndsWith(s: string, suffix: string) {
    |suffix| <= |s| && s[|s| - |suffix|..] == suffix
  }

  /** The negative lookahead of the matcher, read on the path after its
      leading "/". The dot of `favicon.ico` is unescaped in the pattern, so it
      stands for any character; the lookahead is not anchored at the end, so a
      path that only begins with an excluded prefix is excluded too. */
  predicate ExcludedByMatcher(rest: string) {
    || StartsWith(rest, "_next/static")
    || StartsWith(rest, "_next/image")
    || (StartsWith(rest, "favicon") && |rest| >= 11 && rest[8..11] == "ico")
    || (exists k :: 0 <= k < |StaticImageExtensions| && EndsWith(rest, "." + StaticImageExtensions[k]))
  }

  /** `config.matcher`: Next.js runs the middleware only on the paths this
      pattern admits. */
  predicate MiddlewareRuns(path: string) {
    |path| >= 1 && path[0] == '/' && !ExcludedByMatcher(path[1..])
  }

  /** What a request meets: the middleware's decision on the paths the matcher
      admits, and no check at all on the others. */
  function Guard(configured: bool, signedIn: bool, profile: Option<Profile>, path: string): (d: Decision)
    ensures d != PassThrough ==> MiddlewareRuns(path) && configured
    ensures MiddlewareRuns(path) && configured && !signedIn ==>
              (d == PassThrough <==> IsPublicRoute(path))
    ensures !MiddlewareRuns(path) ==> d == PassThrough
  {
    if MiddlewareRuns(path) then Decide(configured, signedIn, profile, path) else PassThrough
  }

  /** The root route matches "/" and whatever starts with "//", nothing else. */
  lemma RootRouteMatches(path: string)
    ensures MatchesRoute(path, "/") <==> path == "/" || StartsWith(path, "//")
  {
    assert "/" + "/" == "//";
  }

  /** No path of the admin, partner or dashboard areas is public. */
  lemma ProtectedAreasNotPublic(path: string)
    requires StartsWith(path, "/admin") || StartsWith(path, "/partner") || StartsWith(path, "/dashboard")
    ensures !IsPublicRoute(path)
  {
    assert |path| >= 6 && path[0] == '/';
    assert path[1] == 'a' || path[1] == 'p' || path[1] == 'd';
    assert path[1] == 'a' ==> path[2] == 'd';
    assert path[1] == 'p' ==> path[2] == 'a' && path[3] == 'r';
    forall k | 0 <= k < |PublicRoutes|
      ensures !MatchesRoute(path, PublicRoutes[k])
    {
      var route := PublicRoutes[k];
      if k == 0 {
        assert (route + "/")[1] == '/';
      } else {
        assert |route| >= 4 && (route[1] != path[1] || route[2] != path[2] || route[3] != path[3]);
        assert (route + "/")[1] == route[1] && (route + "/")[2] == route[2] && (route + "/")[3] == route[3];
      }
    }
  }

  /** The admin area: the middleware lets a request through exactly when it is
      signed in with an admin or super-admin role. The test is a plain prefix,
      so "/administrator" belongs to it. A path the matcher leaves out is not
      checked at all. */
  lemma AdminAreaGuard(signedIn: bool, profile: Option<Profile>, path: string)
    requires StartsWith(path, "/admin")
    ensures Decide(true, signedIn, profile, path) == PassThrough <==> signedIn && IsAdminRole(RoleOf(profile))
    ensures signedIn && !IsAdminRole(RoleOf(profile)) ==> Decide(true, signedIn, profile, path) == Redirect(UnauthorizedPath, None)
    ensures Guard(true, signedIn, profile, path) == PassThrough <==>
              !MiddlewareRuns(path) || (signedIn && IsAdminRole(RoleOf(profile)))
  {
    ProtectedAreasNotPublic(path);
    assert !StartsWith(path, "/partner") by {
      assert path[1] == 'a';
    }
    assert path != "/login" && path != "/signup" by {
      assert path[1] == 'a';
    }
  }

  /** The partner area admits the partner role only: administrators are
      turned away as well. A path the matcher leaves out is not checked. */
  lemma PartnerAreaGuard(signedIn: bool, profile: Option<Profile>, path: string)
    requires StartsWith(path, "/partner")
    ensures Decide(true, signedIn, profile, path) == PassThrough <==> signedIn && RoleOf(profile) == "partner"
    ensures signedIn && RoleOf(profile) != "partner" ==> Decide(true, signedIn, profile, path) == Redirect(UnauthorizedPath, None)
    ensures Guard(true, signedIn, profile, path) == PassThrough <==>
              !MiddlewareRuns(path) || (signedIn && RoleOf(profile) == "partner")
  {
    ProtectedAreasNotPublic(path);
    assert !StartsWith(path, "/admin") by {
      assert path[1] == 'p';
    }
  }

  /** A signed-in user who opens the login or signup page is sent to the home
      of their role. */
  lemma SignedInAuthPages(profile: Option<Profile>, path: string)
    requires path == "/login" || path == "/signup"
    ensures Decide(true, true, profile, path) == Redirect(AuthPageHome(RoleOf(profile)), None)
  {
    assert !StartsWith(path, "/admin") && !StartsWith(path, "/partner") by {
      assert path[1] == 'l' || path[1] == 's';
    }
  }

  /** With no profile row the role is "user", which reaches neither the admin
      nor the partner area. */
  lemma MissingProfileIsUser(path: string)
    requires StartsWith(path, "/admin") || StartsWith(path, "/partner")
    ensures Decide(true, true, None, path) == Redirect(UnauthorizedPath, None)
  {
    if StartsWith(path, "/admin") {
      AdminAreaGuard(true, None, path);
    } else {
      PartnerAreaGuard(true, None, path);
    }
  }

  /** An image path under the admin area is left out by the matcher, so it
      reaches the server without a session, where the middleware would have
      sent the visitor to the login page. */
  lemma ImagePathSkipsAdminGuard()
    ensures !MiddlewareRuns("/admin/x.png")
    ensures Decide(true, false, None, "/admin/x.png") == Redirect(LoginPath, Some("/admin/x.png"))
    ensures Guard(true, false, None, "/admin/x.png") == PassThrough
  {
    var rest := "/admin/x.png"[1..];
    assert EndsWith(rest, "." + StaticImageExtensions[1]);
    AdminAreaGuard(false, None, "/admin/x.png");
  }

  /** Page paths such as the admin dashboard and the login page are admitted by
      the matcher, so the middleware decides them. */
  lemma PagePathsRunMiddleware(path: string)
    requires path == "/admin" || path == "/login" || path == "/partner/deals"
    ensures MiddlewareRuns(path)
  {
    var rest := path[1..];
    assert rest[0] != '_' && rest[0] != 'f';
    forall k | 0 <= k < |StaticImageExtensions|
      ensures !EndsWith(rest, "." + StaticImageExtensions[k])
    {
      var suffix := "." + StaticImageExtensions[k];
      if |suffix| <= |rest| {
        assert suffix[0] == '.';
        assert rest[|rest| - |suffix|] != '.';
      }
    }
  }
}
