/** The two client route guards. A guard either lets the navigation through (None) or
    redirects it to a path. */
module RouteGuards {
  import opened Wrappers
  import opened Schema
  import ClientAuth

  const LoginPath: string := "/login"
  const HomePath: string := "/"

  /** The `auth` guard: the login page is always reachable; anywhere else a visitor who is
      not logged in is sent to the login page, and a logged-in user is never redirected. */
  function AuthGuard(path: string, isLoggedIn: bool): (r: Option<string>)
    ensures path == LoginPath ==> r.None?
    ensures r.Some? <==> path != LoginPath && !isLoggedIn
    ensures r.Some? ==> r.value == LoginPath
  {
    if path == LoginPath then None
    else if !isLoggedIn then Some(LoginPath)
    else None
  }

  /** The `admin` guard: logged-out visitors go to the login page, logged-in non-admins
      to the home page, and admins pass. */
  function AdminGuard(isLoggedIn: bool, isAdmin: bool): (r: Option<string>)
    ensures !isLoggedIn ==> r == Some(LoginPath)
    ensures isLoggedIn && !isAdmin ==> r == Some(HomePath)
    ensures r.None? <==> isLoggedIn && isAdmin
  {
    if !isLoggedIn then Some(LoginPath)
    else if !isAdmin then Some(HomePath)
    else None
  }

  /** With the flags the session derives, the admin guard lets through exactly the users
      with role ADMIN, and never sends a logged-out visitor to the home page. */
  lemma AdminGuardOnSession(user: Option<ClientAuth.AuthUser>)
    ensures AdminGuard(ClientAuth.IsLoggedIn(user), ClientAuth.IsAdmin(user)).None?
        <==> user.Some? && user.value.role == ADMIN
    ensures user.None? ==> AdminGuard(ClientAuth.IsLoggedIn(user), ClientAuth.IsAdmin(user)) == Some(LoginPath)
  {
  }
}
