/** The `useAuth` hook of hooks/use-auth.ts: the signed-in user with their
    profile, the loading flag, and the role checks built on them. The auth
    service's answers are method parameters. */
module UseAuth {
  import opened Outcomes

  const LoginPath: string := "/login"

  /** `UserProfile`, reduced to its role. */
  datatype UserProfile = UserProfile(role: string)

  /** `AuthUser`: a user, with the profile when it was found. */
  datatype AuthUser = AuthUser(id: string, profile: Option<UserProfile>)

  /** The argument of `hasRole`: one role or a list of them. */
  datatype Roles = One(role: string) | Many(roles: seq<string>)

  /** `Array.isArray(roles) ? roles : [roles]`. */
  function RoleList(roles: Roles): (list: seq<string>)
    ensures roles.One? ==> list == [roles.role]
    ensures roles.Many? ==> list == roles.roles
  {
    match roles
    case One(r) => [r]
    case Many(rs) => rs
  }

  /** `hasRole` for a given user. */
  function UserHasRole(user: Option<AuthUser>, roles: Roles): (b: bool)
    ensures user.None? || user.value.profile.None? ==> !b
    ensures user.Some? && user.value.profile.Some? ==> (b <==> user.value.profile.value.role in RoleList(roles))
  {
    user.Some? && user.value.profile.Some? && user.value.profile.value.role in RoleList(roles)
  }

  class AuthState {
    var user: Option<AuthUser>
    var loading: bool

    constructor()
      ensures user.None? && loading
    {
      user := None;
      loading := true;
    }

    /** The initial `getCurrentUser()` resolving, or an auth state change:
        the user becomes what the service reports and loading ends. */
    method SetCurrentUser(current: Option<AuthUser>)
      modifies this
      ensures user == current && !loading
    {
      user := current;
      loading := false;
    }

    /** `signOut`: `authReply` is what the auth service's sign-out resolves
        to or throws. On success the user is cleared and the browser goes to
        the login page (`Ok` with the path); a thrown error propagates before
        either happens, so the user stays signed in. */
    method SignOut(authReply: Outcome<()>) returns (r: Outcome<string>)
      modifies this
      ensures authReply.Ok? ==> user.None? && r == Ok(LoginPath)
      ensures authReply.Threw? ==> user == old(user) && r == Threw(authReply.thrown)
      ensures loading == old(loading)
    {
      if authReply.Threw? {
        return Threw(authReply.thrown);
      }
      user := None;
      r := Ok(LoginPath);
    }

    /** `hasRole(roles)`. */
    function HasRole(roles: Roles): (b: bool)
      reads this
      ensures b == UserHasRole(user, roles)
    {
      user.Some? && user.value.profile.Some? && user.value.profile.value.role in RoleList(roles)
    }

    /** `isAdmin()`: the role is admin or super_admin. */
    function IsAdmin(): (b: bool)
      reads this
      ensures b <==> user.Some? && user.value.profile.Some?
                     && (user.value.profile.value.role == "admin" || user.value.profile.value.role == "super_admin")
    {
      HasRole(Many(["admin", "super_admin"]))
    }

    /** `isPartner()`: the role is partner. */
    function IsPartner(): (b: bool)
      reads this
      ensures b <==> user.Some? && user.value.profile.Some? && user.value.profile.value.role == "partner"
    {
      HasRole(One("partner"))
    }

    /** `isAuthenticated`: a user is present. */
    function IsAuthenticated(): (b: bool)
      reads this
      ensures b <==> user.Some?
    {
      user.Some?
    }
  }

  /** After a successful sign-out no role check holds and the user is not
      authenticated; after a failed one every check answers as before. */
  method SignOutClearsRoles(a: AuthState, roles: Roles, authReply: Outcome<()>)
    modifies a
    ensures authReply.Ok? ==> !a.IsAuthenticated() && !a.IsAdmin() && !a.IsPartner() && !a.HasRole(roles)
    ensures authReply.Threw? ==>
              && a.IsAuthenticated() == old(a.IsAuthenticated()) && a.IsAdmin() == old(a.IsAdmin())
              && a.IsPartner() == old(a.IsPartner()) && a.HasRole(roles) == old(a.HasRole(roles))
  {
    var _ := a.SignOut(authReply);
  }

  /** A single role and the one-element list of it are the same check, and
      no user is both an administrator and a partner. */
  lemma RoleChecksAgree(user: Option<AuthUser>, role: string)
    ensures UserHasRole(user, One(role)) == UserHasRole(user, Many([role]))
    ensures !(UserHasRole(user, Many(["admin", "super_admin"])) && UserHasRole(user, One("partner")))
  {
  }
}
