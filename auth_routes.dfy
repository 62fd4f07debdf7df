/** The decision logic of the auth service's HTTP routes
    (web/auth-service/app/routes/auth.py) over the singleton `AuthService`.
    A token is represented by the claims it carries: signing is left
    abstract, and `Decode` only applies the expiry check that `jwt.decode`
    makes on a token this service signed. Clocks are parameters (`now`, in
    seconds), and so is `access_token_expire_minutes`, which the settings
    read from the environment. */
module AuthRoutes {
  import opened Common
  import opened Roles
  import opened AuthStore

  /** The settings' default for `access_token_expire_minutes`. */
  const DefaultAccessTokenExpireMinutes: int := 30
  /** `refresh_token_expire_days`. */
  const RefreshTokenExpireDays: int := 7
  const SecondsPerMinute: int := 60
  const SecondsPerDay: int := 86400

  /** The claims of a token: `sub`, `user_id` and `role` when present, and
      `exp` in seconds. */
  datatype TokenClaims = TokenClaims(sub: Option<string>, userId: Option<int>, role: Option<string>, exp: int)

  /** `jwt.decode` of a token this service signed: its claims until `exp`
      passes (`ExpiredSignatureError`, a `JWTError`, afterwards). */
  function Decode(t: TokenClaims, now: int): (r: Option<TokenClaims>)
    ensures r.Some? <==> now <= t.exp
    ensures r.Some? ==> r.value == t
  {
    if t.exp < now then None else Some(t)
  }

  /** `UserResponse`, with the role as its string value. */
  datatype UserInfo = UserInfo(id: int, username: string, email: string, fullName: string, role: string)

  function InfoOf(u: AuthUser): UserInfo {
    UserInfo(u.id, u.username, u.email, u.fullName, RoleValue(u.role))
  }

  /** The request body `UserCreate` once pydantic has accepted it. */
  datatype UserCreate = UserCreate(username: string, email: string, fullName: string, password: string, role: UserRole)

  datatype HttpError = HttpError(status: int, detail: string)

  datatype RegisterReply = RegisterFailed(error: HttpError) | Registered(message: string, user: UserInfo)

  /** `str()` of an `HTTPException`, as the broad `except` turns it into
      the 500 detail: status code, colon, detail. */
  function Rewrapped(status: nat, detail: string): HttpError {
    HttpError(500, DecimalText(status) + ": " + detail)
  }

  /** `register_user`: the username is checked first, then the email; each
      refusal is raised as a 400 inside the `try` and reaches the caller
      rewrapped as a 500. Otherwise exactly one user is appended and its
      fields are echoed. */
  method RegisterUser(svc: AuthService, d: UserCreate, hash: string -> string, now: int) returns (r: RegisterReply)
    requires svc.Valid()
    modifies svc
    ensures svc.Valid()
    ensures ByUsername(old(svc.users), d.username).Some? ==>
      r == RegisterFailed(Rewrapped(400, "Username already registered")) && unchanged(svc)
    ensures ByUsername(old(svc.users), d.username).None? && ByEmail(old(svc.users), d.email).Some? ==>
      r == RegisterFailed(Rewrapped(400, "Email already registered")) && unchanged(svc)
    ensures ByUsername(old(svc.users), d.username).None? && ByEmail(old(svc.users), d.email).None? ==>
      && r == Registered("User registered successfully",
                         UserInfo(old(svc.userIdCounter), d.username, d.email, d.fullName, RoleValue(d.role)))
      && svc.users == old(svc.users) + [AuthUser(old(svc.userIdCounter), d.username, d.email, d.fullName, d.role,
                                                 hash(d.password), now, true)]
      && svc.userIdCounter == old(svc.userIdCounter) + 1
  {
    if svc.GetUserByUsername(d.username).Some? {
      return RegisterFailed(Rewrapped(400, "Username already registered"));
    }
    var existing := svc.GetUserByEmail(d.email);
    if existing.Some? {
      return RegisterFailed(Rewrapped(400, "Email already registered"));
    }
    PutShape(svc.users, AuthUser(svc.userIdCounter, d.username, d.email, d.fullName, d.role,
                                 hash(d.password), now, true));
    var user := svc.CreateUser(d.username, d.email, d.fullName, d.password, d.role, hash, now);
    return Registered("User registered successfully", InfoOf(user));
  }

  /** A duplicate is refused with 500, never with the 400 the handler
      raises. */
  lemma DuplicateIsNot400(status: nat, detail: string)
    ensures Rewrapped(status, detail).status == 500
    ensures Rewrapped(400, detail).detail == "400: " + detail
  {
    assert DecimalText(400) == "400";
  }

  datatype LoginReply =
    | LoginFailed(error: HttpError)
    | LoggedIn(accessToken: TokenClaims, refreshToken: TokenClaims, tokenType: string, expiresIn: int, user: UserInfo)

  /** The access token's claims: name, id and role, valid for the configured
      minutes. */
  function AccessClaims(u: AuthUser, now: int, minutes: int): TokenClaims {
    TokenClaims(Some(u.username), Some(u.id), Some(RoleValue(u.role)), now + minutes * SecondsPerMinute)
  }

  /** The refresh token's claims: name and id only, valid for seven days. */
  function RefreshClaims(u: AuthUser, now: int): TokenClaims {
    TokenClaims(Some(u.username), Some(u.id), None, now + RefreshTokenExpireDays * SecondsPerDay)
  }

  /** The reply of `login_user` to what authentication found. */
  function LoginReplyFor(found: Option<AuthUser>, now: int, minutes: int): (r: LoginReply)
    ensures r.LoginFailed? <==> found.None?
    ensures r.LoginFailed? ==> r.error == HttpError(401, "Incorrect username or password")
    ensures r.LoggedIn? ==> r.tokenType == "bearer" && r.expiresIn == minutes * 60 && r.user == InfoOf(found.value)
    ensures r.LoggedIn? ==> r.accessToken.sub == Some(found.value.username) && r.accessToken.userId == Some(found.value.id)
                            && r.accessToken.role == Some(RoleValue(found.value.role))
    ensures r.LoggedIn? ==> r.refreshToken.sub == r.accessToken.sub && r.refreshToken.userId == r.accessToken.userId
                            && r.refreshToken.role.None?
  {
    if found.None? then LoginFailed(HttpError(401, "Incorrect username or password"))
    else
      var u := found.value;
      LoggedIn(AccessClaims(u, now, minutes), RefreshClaims(u, now), "bearer", minutes * SecondsPerMinute, InfoOf(u))
  }

  /** `login_user`: authenticate (which changes nothing), then answer; the
      401 of a failed login is re-raised as it is. */
  method LoginUser(svc: AuthService, login: string, password: string, verify: (string, string) -> bool,
                   hash: string -> string, now: int, minutes: int) returns (r: LoginReply)
    ensures r == LoginReplyFor(Authenticate(svc.users, login, password, verify, hash("admin"), now), now, minutes)
  {
    var user := svc.AuthenticateUser(login, password, verify, hash, now);
    r := LoginReplyFor(user, now, minutes);
  }

  datatype VerifyReply = VerifyFailed(error: HttpError) | Verified(username: string, userId: int, role: Option<string>, valid: bool)

  /** `verify_token`: a token that does not decode, or whose claims lack
      `sub` or `user_id`, is refused with 401; otherwise its claims come
      back with `valid` set. */
  function VerifyToken(t: TokenClaims, now: int): (r: VerifyReply)
    ensures r.VerifyFailed? <==> Decode(t, now).None? || t.sub.None? || t.userId.None?
    ensures r.VerifyFailed? ==> r.error == HttpError(401, "Could not validate credentials")
    ensures r.Verified? ==> r == Verified(t.sub.value, t.userId.value, t.role, true)
  {
    match Decode(t, now)
    case None => VerifyFailed(HttpError(401, "Could not validate credentials"))
    case Some(claims) =>
      if claims.sub.None? || claims.userId.None? then VerifyFailed(HttpError(401, "Could not validate credentials"))
      else Verified(claims.sub.value, claims.userId.value, claims.role, true)
  }

  datatype RefreshReply = RefreshFailed(error: HttpError) | Refreshed(accessToken: TokenClaims, tokenType: string, expiresIn: int)

  /** `refresh_token`: a token that decodes and names a user gets a new
      access token for the same name and id, always with role "agent". */
  function RefreshToken(t: TokenClaims, now: int, minutes: int): (r: RefreshReply)
    ensures r.RefreshFailed? <==> Decode(t, now).None? || t.sub.None? || t.userId.None?
    ensures r.RefreshFailed? ==> r.error == HttpError(401, "Could not validate refresh token")
    ensures r.Refreshed? ==>
      && r.accessToken == TokenClaims(t.sub, t.userId, Some("agent"), now + minutes * 60)
      && r.tokenType == "bearer" && r.expiresIn == minutes * 60
  {
    match Decode(t, now)
    case None => RefreshFailed(HttpError(401, "Could not validate refresh token"))
    case Some(claims) =>
      if claims.sub.None? || claims.userId.None? then RefreshFailed(HttpError(401, "Could not validate refresh token"))
      else Refreshed(TokenClaims(claims.sub, claims.userId, Some("agent"), now + minutes * SecondsPerMinute),
                     "bearer", minutes * SecondsPerMinute)
  }

  /** The access token of a login verifies, within its lifetime, as the
      user who logged in with that user's role; after it, it is refused. */
  lemma LoginThenVerify(u: AuthUser, now: int, minutes: int, later: int)
    requires now <= later
    ensures later <= now + minutes * 60 ==>
      VerifyToken(AccessClaims(u, now, minutes), later) == Verified(u.username, u.id, Some(RoleValue(u.role)), true)
    ensures later > now + minutes * 60 ==> VerifyToken(AccessClaims(u, now, minutes), later).VerifyFailed?
  {
  }

  /** The refresh token of a login works for seven days, and the access
      token it yields carries role "agent" whatever the user's role: an
      administrator who refreshes comes back as an agent. */
  lemma RefreshDowngradesRole(u: AuthUser, now: int, minutes: int, later: int)
    requires now <= later <= now + 7 * 86400
    ensures RefreshToken(RefreshClaims(u, now), later, minutes).Refreshed?
    ensures RefreshToken(RefreshClaims(u, now), later, minutes).accessToken.role == Some("agent")
    ensures u.role != Agent ==>
      RefreshToken(RefreshClaims(u, now), later, minutes).accessToken.role != Some(RoleValue(u.role))
  {
  }

  /** Neither route tells the two kinds of token apart: an access token is
      accepted for a refresh, and a refresh token verifies (with no role). */
  lemma TokenKindsInterchangeable(u: AuthUser, now: int, minutes: int)
    requires minutes >= 0
    ensures RefreshToken(AccessClaims(u, now, minutes), now, minutes).Refreshed?
    ensures VerifyToken(RefreshClaims(u, now), now) == Verified(u.username, u.id, None, true)
  {
  }
}
