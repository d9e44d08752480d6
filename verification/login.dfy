/** Signing in (POST /api/auth/login): both credentials must be given, the user must
    exist and be active, and the password must match its hash; the reply carries the
    user without the password hash, and a token signed over its id, name and role.
    Password checking (bcrypt) and signing (jsonwebtoken) are parameters. */
module Login {
  import opened Wrappers
  import opened Text
  import opened Seqs
  import opened Schema
  import opened Database
  import opened AuthUtils

  /** The request body; an absent field is None. */
  datatype Credentials = Credentials(username: Option<string>, password: Option<string>)

  /** The `data` of a successful reply; `createdAt` is the instant behind its ISO text. */
  datatype SessionUser = SessionUser(
    id: nat, username: string, name: string, role: Role, isActive: bool,
    createdAt: int, token: string)

  /** `findUnique({ where: { username } })`. */
  function FindUser(users: seq<User>, username: string): (r: Option<User>)
    ensures r.Some? ==> r.value in users && r.value.username == username
    ensures r.None? <==> !Taken(users, Username, username)
  {
    match FirstIndex(users, Username, username)
    case None => None
    case Some(i) => Some(users[i])
  }

  /** The claims the token is signed over. */
  function Claims(u: User): (p: JwtPayload)
    ensures p.userId == u.id && p.username == u.username && p.role == u.role
  {
    JwtPayload(u.id, u.username, u.role)
  }

  /** POST /api/auth/login. The checks come in the handler's order: missing credentials
      (400), unknown user (401), disabled account (401), wrong password (401). */
  function LoginHandler(body: Credentials, users: seq<User>,
                        passwordMatches: (string, string) -> bool,
                        generateToken: JwtPayload -> string): (r: Result<SessionUser>)
    ensures !PresentText(body.username) || !PresentText(body.password) ==>
      r == Err(HttpError(400, MissingCredentials))
    ensures r.Ok? <==>
      && PresentText(body.username) && PresentText(body.password)
      && FindUser(users, body.username.value).Some?
      && FindUser(users, body.username.value).value.isActive
      && passwordMatches(body.password.value, FindUser(users, body.username.value).value.password)
    ensures r.Ok? ==>
      var u := FindUser(users, body.username.value).value;
      r.value == SessionUser(u.id, u.username, u.name, u.role, u.isActive, u.createdAt, generateToken(Claims(u)))
    ensures r.Err? ==> r.error.status in {400, 401}
  {
    if !PresentText(body.username) || !PresentText(body.password) then
      Err(HttpError(400, MissingCredentials))
    else
      match FindUser(users, body.username.value)
      case None => Err(HttpError(401, BadCredentials))
      case Some(u) =>
        if !u.isActive then Err(HttpError(401, AccountDisabled))
        else if !passwordMatches(body.password.value, u.password) then Err(HttpError(401, BadCredentials))
        else Ok(SessionUser(u.id, u.username, u.name, u.role, u.isActive, u.createdAt, generateToken(Claims(u))))
  }

  /** With unique usernames the user found is the only one with that name, so a sign-in
      succeeds exactly when some active user of that name has a matching password. */
  lemma SignsInTheNamedUser(body: Credentials, users: seq<User>,
                            passwordMatches: (string, string) -> bool,
                            generateToken: JwtPayload -> string, u: User)
    requires UniqueBy(users, Username)
    requires u in users && body.username == Some(u.username)
    requires PresentText(body.username) && PresentText(body.password)
    ensures LoginHandler(body, users, passwordMatches, generateToken).Ok?
      <==> u.isActive && passwordMatches(body.password.value, u.password)
  {
    var i :| 0 <= i < |users| && users[i] == u;
    assert Username(users[i]) == u.username;
    var j := FirstIndex(users, Username, u.username).value;
    assert Username(users[j]) == Username(users[i]);
    assert i == j;
    assert FindUser(users, u.username) == Some(u);
  }

  /** An unknown username and a wrong password get the same answer, so the reply does not
      reveal which usernames exist; a disabled account is reported whatever the password. */
  lemma FailuresLookAlike(name: string, pw: string, users: seq<User>,
                          passwordMatches: (string, string) -> bool,
                          generateToken: JwtPayload -> string)
    requires name != "" && pw != ""
    ensures var r := LoginHandler(Credentials(Some(name), Some(pw)), users, passwordMatches, generateToken);
      var u := FindUser(users, name);
      && (u.None? ==> r == Err(HttpError(401, BadCredentials)))
      && (u.Some? && !u.value.isActive ==> r == Err(HttpError(401, AccountDisabled)))
      && (u.Some? && u.value.isActive && !passwordMatches(pw, u.value.password) ==> r == Err(HttpError(401, BadCredentials)))
  {
  }

  /** The token handed out authenticates later requests: when verification accepts what
      signing produced, a request bearing it passes `requireAuth` as this user. */
  lemma TokenAuthenticates(body: Credentials, users: seq<User>,
                           passwordMatches: (string, string) -> bool,
                           generateToken: JwtPayload -> string, jwtVerify: string -> JwtOutcome)
    requires LoginHandler(body, users, passwordMatches, generateToken).Ok?
    requires forall p :: jwtVerify(generateToken(p)) == Verified(p)
    ensures var s := LoginHandler(body, users, passwordMatches, generateToken).value;
      RequireAuth(UserFromHeader(Some(BearerPrefix + s.token), jwtVerify))
        == Ok(JwtPayload(s.id, s.username, s.role))
  {
    var s := LoginHandler(body, users, passwordMatches, generateToken).value;
    var header := BearerPrefix + s.token;
    assert header[..|BearerPrefix|] == BearerPrefix;
    assert Substring(header, 7) == s.token;
  }
}
