/** The OAuth callback of app/auth/callback/route.ts: exchange the code for a
    session, make sure the user has a profile row, and send the user on by
    role. The Supabase calls are inputs; the profile write is returned as the
    effect the handler asks for. */
module AuthCallback {
  import opened Outcomes

  const LoginPath: string := "/login"
  const AuthFailedPath: string := "/login?error=Authentication failed"
  const DefaultRole: string := "user"
  const ActiveStatus: string := "active"

  /** The signed-in user the exchange returned. */
  datatype SessionUser = SessionUser(id: string)

  /** `exchangeCodeForSession(code)`: an error, or data with a user or none. */
  datatype Exchange = ExchangeFailed | Exchanged(user: Option<SessionUser>)

  /** The profile query: a row with its role ("" when empty), or an error or
      no row. */
  datatype ProfileLookup = Found(role: string) | Missing

  /** The write the handler makes: a new profile row, or the last-login time
      of an existing one. */
  datatype ProfileWrite =
    | NoWrite
    | InsertProfile(id: string, role: string, status: string)
    | UpdateLastLogin(id: string)

  datatype CallbackResult = CallbackResult(redirect: string, write: ProfileWrite)

  /** Where a role is sent once signed in. */
  function RoleHome(role: string): (path: string)
    ensures role == "admin" || role == "super_admin" ==> path == "/admin"
    ensures role == "partner" ==> path == "/partner"
    ensures role != "admin" && role != "super_admin" && role != "partner" ==> path == "/dashboard"
  {
    if role == "admin" || role == "super_admin" then "/admin"
    else if role == "partner" then "/partner"
    else "/dashboard"
  }

  /** `profile?.role || 'user'`: the role read before any insert. */
  function LookupRole(profile: ProfileLookup): string {
    if profile.Found? && profile.role != "" then profile.role else DefaultRole
  }

  /** `GET`: `code` is the `code` search parameter (None when absent or
      empty); `exchange` and `profile` are what Supabase answers (read only
      when the handler gets that far). */
  function HandleCallback(code: Option<string>, exchange: Exchange, profile: ProfileLookup): (r: CallbackResult)
    ensures r.write != NoWrite <==> code.Some? && exchange.Exchanged? && exchange.user.Some?
    ensures r.write.InsertProfile? <==> r.write != NoWrite && profile.Missing?
    ensures r.write != NoWrite ==> r.redirect == RoleHome(LookupRole(profile))
    ensures r.write == NoWrite ==> r.redirect in {LoginPath, AuthFailedPath}
  {
    if code.None? then CallbackResult(LoginPath, NoWrite)
    else match exchange
      case ExchangeFailed => CallbackResult(AuthFailedPath, NoWrite)
      case Exchanged(None) => CallbackResult(LoginPath, NoWrite)
      case Exchanged(Some(user)) =>
        var write := if profile.Missing? then InsertProfile(user.id, DefaultRole, ActiveStatus) else UpdateLastLogin(user.id);
        CallbackResult(RoleHome(LookupRole(profile)), write)
  }

  /** Without a code, after a failed exchange, or with no user, nothing is
      written and the user lands on a login page (with the error message
      after a failure). */
  lemma CallbackFailures(code: Option<string>, exchange: Exchange, profile: ProfileLookup)
    ensures code.None? ==> HandleCallback(code, exchange, profile) == CallbackResult(LoginPath, NoWrite)
    ensures code.Some? && exchange.ExchangeFailed? ==>
              HandleCallback(code, exchange, profile) == CallbackResult(AuthFailedPath, NoWrite)
    ensures code.Some? && exchange == Exchanged(None) ==>
              HandleCallback(code, exchange, profile) == CallbackResult(LoginPath, NoWrite)
  {
  }

  /** With a user: a missing profile is inserted with role "user" and status
      "active", an existing one only gets its last login updated; the
      redirect follows the role found before the insert, so a first-time
      user goes to the dashboard. */
  lemma CallbackSignedIn(code: string, user: SessionUser, profile: ProfileLookup)
    ensures var r := HandleCallback(Some(code), Exchanged(Some(user)), profile);
            && (profile.Missing? ==> r.write == InsertProfile(user.id, "user", "active") && r.redirect == "/dashboard")
            && (profile.Found? ==> r.write == UpdateLastLogin(user.id))
            && (profile.Found? && (profile.role == "admin" || profile.role == "super_admin") ==> r.redirect == "/admin")
            && (profile.Found? && profile.role == "partner" ==> r.redirect == "/partner")
            && (profile.Found? && profile.role != "admin" && profile.role != "super_admin" && profile.role != "partner"
                ==> r.redirect == "/dashboard")
  {
  }

  /** The redirect always is one of five fixed paths. */
  lemma CallbackRedirectTargets(code: Option<string>, exchange: Exchange, profile: ProfileLookup)
    ensures HandleCallback(code, exchange, profile).redirect in {LoginPath, AuthFailedPath, "/admin", "/partner", "/dashboard"}
  {
  }
}
