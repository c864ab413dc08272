/** `getRedirectPath` of app/unauthorized/page.tsx: where the "Go to
    Dashboard" link of the access-denied page points. */
module UnauthorizedPage {
  import opened Outcomes
  import UseAuth
  import AuthCallback
  import Middleware

  /** `user?.profile?.role`, then admin and super_admin to /admin, partner to
      /partner, and anything else, including no user or no profile, to
      /dashboard. */
  function GetRedirectPath(user: Option<UseAuth.AuthUser>): (path: string)
    ensures path in {"/admin", "/partner", "/dashboard"}
  {
    if user.None? || user.value.profile.None? then "/dashboard"
    else
      var role := user.value.profile.value.role;
      if role == "admin" || role == "super_admin" then "/admin"
      else if role == "partner" then "/partner"
      else "/dashboard"
  }

  /** The link leads where the OAuth callback would send the same user, and
      where the middleware sends a signed-in user away from the login page:
      three copies of one role mapping, with a missing profile counted as the
      default role. */
  lemma SameMappingAsCallback(user: Option<UseAuth.AuthUser>)
    ensures var role := if user.Some? && user.value.profile.Some? then user.value.profile.value.role else "";
            && GetRedirectPath(user) == AuthCallback.RoleHome(if role == "" then AuthCallback.DefaultRole else role)
            && GetRedirectPath(user)
               == Middleware.AuthPageHome(Middleware.RoleOf(if role == "" then None else Some(Middleware.Profile(role))))
  {
  }

  /** The link points to /admin exactly for the users `isAdmin` accepts, and
      to /partner exactly for those `isPartner` accepts. */
  lemma LinkFollowsRoleChecks(user: Option<UseAuth.AuthUser>)
    ensures GetRedirectPath(user) == "/admin" <==> UseAuth.UserHasRole(user, UseAuth.Many(["admin", "super_admin"]))
    ensures GetRedirectPath(user) == "/partner" <==> UseAuth.UserHasRole(user, UseAuth.One("partner"))
  {
  }
}
