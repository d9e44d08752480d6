/** The browser-side session: the logged-in user held in one shared reference, the
    values derived from it, and the header it attaches to API calls. The HTTP call of
    `login` and the browser storage reached from `initAuth`, `login` and `logout` are
    outside the model; their results come in as parameters. */
module ClientAuth {
  import opened Wrappers
  import opened Text
  import opened Schema
  import opened AuthUtils

  /** The user as the login endpoint returns it, token included. */
  datatype AuthUser = AuthUser(
    id: nat, username: string, name: string, role: Role, isActive: bool,
    createdAt: string, token: string)

  /** What the call to the login endpoint produced: a response body, or a thrown error
      whose `data.message` may be present. */
  datatype LoginResponse =
    | Responded(success: bool, data: Option<AuthUser>)
    | Threw(message: Option<string>)

  datatype LoginError = InvalidData | ServerMessage(text: string) | Unexpected

  datatype LoginReply = LoginOk | LoginFailed(error: LoginError)

  /** What `localStorage.getItem("auth_user")` held, as `JSON.parse` sees it. */
  datatype StoredUser = NothingStored | Parsed(user: AuthUser) | Malformed

  const AuthorizationKey: string := "Authorization"

  /** `isLoggedIn`. */
  predicate IsLoggedIn(user: Option<AuthUser>) {
    user.Some?
  }

  /** `isAdmin`: logged in with role ADMIN. */
  predicate IsAdmin(user: Option<AuthUser>)
    ensures IsAdmin(user) ==> IsLoggedIn(user)
    ensures IsAdmin(user) <==> HasRole(user, ADMIN)
  {
    user.Some? && user.value.role == ADMIN
  }

  /** `hasRole(role)`. */
  predicate HasRole(user: Option<AuthUser>, role: Role)
  {
    user.Some? && user.value.role == role
  }

  /** `getAuthHeaders`: nothing without a user or with an empty token, otherwise one
      Authorization header holding "Bearer " and the token. */
  function AuthHeaders(user: Option<AuthUser>): (h: map<string, string>)
    ensures user.None? || user.value.token == "" ==> h == map[]
    ensures user.Some? && user.value.token != "" ==>
      h.Keys == {AuthorizationKey} && StartsWith(h[AuthorizationKey], BearerPrefix)
      && h[AuthorizationKey][|BearerPrefix|..] == user.value.token
  {
    if user.None? || user.value.token == "" then map[]
    else map[AuthorizationKey := "Bearer " + user.value.token]
  }

  /** The header the client builds is the header the server accepts: the server strips
      the seven characters of "Bearer " and verifies exactly the client's token. */
  lemma AuthHeaderRoundTrip(user: AuthUser, jwtVerify: string -> JwtOutcome)
    requires user.token != ""
    ensures AuthorizationKey in AuthHeaders(Some(user))
    ensures UserFromHeader(Some(AuthHeaders(Some(user))[AuthorizationKey]), jwtVerify)
         == VerifyToken(user.token, jwtVerify)
  {
    var h := AuthHeaders(Some(user))[AuthorizationKey];
    assert h == BearerPrefix + user.token;
    assert h[..|BearerPrefix|] == BearerPrefix;
    assert Substring(h, 7) == user.token;
  }

  /** The outcome `login` reports for a response, and the user it stores (if any). */
  function LoginResult(response: LoginResponse): (r: (LoginReply, Option<AuthUser>))
    ensures r.0 == LoginOk <==> response.Responded? && response.success && response.data.Some?
    ensures r.1.Some? <==> r.0 == LoginOk
    ensures r.1.Some? ==> r.1 == response.data
    ensures response.Threw? ==>
      r.0 == LoginFailed(if PresentText(response.message) then ServerMessage(response.message.value) else Unexpected)
  {
    match response
    case Responded(success, data) =>
      if success && data.Some? then (LoginOk, data) else (LoginFailed(InvalidData), None)
    case Threw(message) =>
      (LoginFailed(if PresentText(message) then ServerMessage(message.value) else Unexpected), None)
  }

  /** The shared session reference. */
  class AuthSession {
    var user: Option<AuthUser>

    constructor ()
      ensures user.None?
    {
      user := None;
    }

    /** `initAuth`: adopt a well-formed stored user; anything else leaves the session as it was. */
    method InitAuth(stored: StoredUser)
      modifies this
      ensures stored.Parsed? ==> user == Some(stored.user)
      ensures !stored.Parsed? ==> user == old(user)
    {
      if stored.Parsed? {
        user := Some(stored.user);
      }
    }

    /** `login`: the user is replaced only by a successful response that carries data. */
    method Login(response: LoginResponse) returns (reply: LoginReply)
      modifies this
      ensures reply == LoginResult(response).0
      ensures reply == LoginOk ==> user == response.data && IsLoggedIn(user)
      ensures reply != LoginOk ==> user == old(user)
    {
      match response {
        case Responded(success, data) =>
          if success && data.Some? {
            user := data;
            return LoginOk;
          }
          return LoginFailed(InvalidData);
        case Threw(message) =>
          if PresentText(message) {
            return LoginFailed(ServerMessage(message.value));
          }
          return LoginFailed(Unexpected);
      }
    }

    /** `logout`: the session is empty afterwards, so no role or header survives it, and
        the browser is sent to the login page. */
    method Logout() returns (navigateTo: string)
      modifies this
      ensures !IsLoggedIn(user) && !IsAdmin(user) && AuthHeaders(user) == map[]
      ensures navigateTo == "/login"
    {
      user := None;
      navigateTo := "/login";
    }
  }
}
