/** AuthController: the HTTP handlers in front of AuthService. Each handler
    delegates and, for logout and refresh, remaps what the service throws. */
module Controller {
  import opened Errors
  import opened Bcrypt
  import opened Jwt
  import opened Prisma
  import opened Lifecycle
  import opened Service
  import JwtStrategy

  datatype LoginDto = LoginDto(username: string, password: string)

  /** {message} */
  datatype Message = Message(message: string)

  const LogoutSuccessMessage: string := "Logout successful"

  /** The catch block of the logout handler: HTTP exceptions go out as
      they are, anything else becomes a 500. */
  function LogoutResponse(r: Result<()>): (out: Result<Message>)
    ensures out.Success? <==> r.Success?
    ensures out.Success? ==> out.value == Message(LogoutSuccessMessage)
    ensures r.Failure? && IsHttpException(r.error) ==> out == Failure(r.error)
    ensures r.Failure? && !IsHttpException(r.error) ==>
      out == Failure(InternalServerError(LogoutFailedMessage))
  {
    if r.Success? then Success(Message(LogoutSuccessMessage))
    else if IsHttpException(r.error) then Failure(r.error)
    else Failure(InternalServerError(LogoutFailedMessage))
  }

  /** The catch block of the refresh handler: every failure is Forbidden. */
  function RefreshResponse(r: Result<TokenPair>): (out: Result<TokenPair>)
    ensures r.Success? ==> out == r
    ensures r.Failure? ==> out == Failure(Forbidden)
  {
    if r.Success? then r else Failure(Forbidden)
  }

  /** POST auth/login: validateUser, then login with the row it returned. */
  function LoginEndpoint(db: Db, secrets: Secrets, body: LoginDto, now: int, salt: nat): (r: Step<TokenPair>)
    requires Consistent(db.users)
    ensures r.result.Success? <==> exists id | id in db.users ::
      db.users[id].username == body.username && Matches(body.password, db.users[id].password)
    ensures r.result.Failure? ==> r.result.error == Forbidden && r.db == db
    ensures r.result.Success? ==>
      var u := FindByUsername(db.users, body.username).value;
      && PairIssued(r.result.value, ClaimsOf(u), secrets, now)
      && OnlySessionOf(db.users, r.db.users, u.id)
      && StoresExactly(r.db.users[u.id], r.result.value.refreshToken)
      && r.db.roles == db.roles
  {
    var user := ValidateUser(db, body.username, body.password);
    if user.Failure? then Step(Failure(user.error), db)
    else Login(db, secrets, user.value, now, salt)
  }

  /** POST auth/logout. */
  function LogoutEndpoint(db: Db, secrets: Secrets, token: Token, now: int): (r: Step<Message>)
    ensures r.result.Failure? ==> r.db == db
    ensures r.result.Failure? ==> r.result.error.Unauthorized? || r.result.error.BadRequest?
    ensures r.result.Success? <==> Logout(db, secrets, token, now).result.Success?
    ensures r.result.Success? ==>
      r.result.value == Message(LogoutSuccessMessage) && r.db == Logout(db, secrets, token, now).db
    ensures r.result.Failure? ==> r.result.error == Logout(db, secrets, token, now).result.error
  {
    var s := Logout(db, secrets, token, now);
    Step(LogoutResponse(s.result), s.db)
  }

  /** POST auth/refresh. */
  function RefreshEndpoint(db: Db, secrets: Secrets, token: Token, now: int, salt: nat): (r: Step<TokenPair>)
    ensures r.result.Failure? ==> r.result.error == Forbidden && r.db == db
    ensures r.result.Success? <==> RefreshTokens(db, secrets, token, now, salt).result.Success?
    ensures r.result.Success? ==> r == RefreshTokens(db, secrets, token, now, salt)
  {
    var s := RefreshTokens(db, secrets, token, now, salt);
    Step(RefreshResponse(s.result), s.db)
  }

  /** GET auth/profile behind JwtAuthGuard: the guard's user, then profile
      of that user's id. Once the guard lets a token through, the profile
      is never null. */
  function ProfileEndpoint(db: Db, secrets: Secrets, token: Token, now: int): (r: Result<Option<PublicProfile>>)
    requires Consistent(db.users)
    ensures r.Success? <==> JwtStrategy.Authenticate(db, secrets, token, now).Success?
    ensures r.Success? ==>
      && r.value.Some? && r.value.value.id == token.claims.sub.value
      && r.value == Profile(db, token.claims.sub.value)
    ensures r.Failure? ==> r.error == JwtStrategy.Authenticate(db, secrets, token, now).error
    ensures Verify(token, secrets.access, now).Valid? && token.claims.sub.Some? ==>
      (token.claims.sub.value !in db.users ==> r == Failure(NotFound))
  {
    var user := JwtStrategy.Authenticate(db, secrets, token, now);
    if user.Failure? then Failure(user.error)
    else Success(Profile(db, user.value.id))
  }

  class AuthController {
    const service: AuthService

    constructor(service: AuthService)
      ensures this.service == service
    {
      this.service := service;
    }

    /** The profile handler, given the user the guard attached to the
        request. */
    method Profile(user: User) returns (r: Option<PublicProfile>)
      ensures r == Lifecycle.Profile(service.store.Snapshot(), user.id)
    {
      r := service.Profile(user.id);
    }

    method Register(body: RegisterDto, salt: nat, newId: UserId) returns (r: Result<User>)
      requires service.store.Valid()
      modifies service.store
      ensures service.store.Valid()
      ensures Step(r, service.store.Snapshot())
              == Lifecycle.Register(old(service.store.Snapshot()), body, salt, newId)
    {
      r := service.Register(body, salt, newId);
    }

    method Login(body: LoginDto, now: int, salt: nat) returns (r: Result<TokenPair>)
      requires service.store.Valid()
      modifies service.store
      ensures service.store.Valid()
      ensures Step(r, service.store.Snapshot())
              == LoginEndpoint(old(service.store.Snapshot()), service.secrets, body, now, salt)
    {
      var user := service.ValidateUser(body.username, body.password);
      if user.Failure? {
        return Failure(user.error);
      }
      r := service.Login(user.value, now, salt);
    }

    method Logout(token: Token, now: int) returns (r: Result<Message>)
      requires service.store.Valid()
      modifies service.store
      ensures service.store.Valid()
      ensures Step(r, service.store.Snapshot())
              == LogoutEndpoint(old(service.store.Snapshot()), service.secrets, token, now)
    {
      var outcome := service.Logout(token, now);
      r := LogoutResponse(outcome);
    }

    method RefreshTokens(refreshToken: Token, now: int, salt: nat) returns (r: Result<TokenPair>)
      requires service.store.Valid()
      modifies service.store
      ensures service.store.Valid()
      ensures Step(r, service.store.Snapshot())
              == RefreshEndpoint(old(service.store.Snapshot()), service.secrets, refreshToken, now, salt)
    {
      var outcome := service.RefreshTokens(refreshToken, now, salt);
      r := RefreshResponse(outcome);
    }
  }
}
