/** The session/token lifecycle of AuthService, each operation a function
    from the store's contents before the call to the outcome of the call
    and the store's contents after it. */
module Lifecycle {
  import opened Errors
  import opened Bcrypt
  import opened Jwt
  import opened Prisma

  /** JWT_ACCESS_SECRET and JWT_REFRESH_SECRET. */
  datatype Secrets = Secrets(access: string, refresh: string)

  datatype RegisterDto = RegisterDto(username: string, email: string, password: string)

  /** {access_token, refresh_token} */
  datatype TokenPair = TokenPair(accessToken: Token, refreshToken: Token)

  /** The columns `profile` selects; the type has no password and no
      refresh-token field. */
  datatype PublicProfile = PublicProfile(
    id: UserId, email: string, avatar: Option<string>, displayName: Option<string>,
    bio: Option<string>, roles: set<string>, username: string)

  /** What a call returns or throws, and the store afterwards. */
  datatype Step<T> = Step(result: Result<T>, db: Db)

  const DefaultRole: string := "USER"
  const AvatarBase: string := "https://api.dicebear.com/7.x/avataaars-neutral/svg?seed="
  const UsernameInUse: string := "El nombre de usuario ya está en uso."
  const InvalidPayloadMessage: string := "Invalid token payload"
  const ExpiredMessage: string := "Token has expired"
  const InvalidTokenMessage: string := "Invalid token"
  const LogoutFailedMessage: string := "An error occurred during logout"

  /** The payload signed for a user: {sub: id, username, email}. */
  function ClaimsOf(u: User): Claims
  {
    Claims(Some(u.id), u.username, u.email)
  }

  /** `payload.sub` is truthy: present and not the empty string. */
  predicate HasSubject(c: Claims)
  {
    c.sub.Some? && c.sub.value != ""
  }

  /** `user.refreshToken` is truthy: not null and not the empty string. */
  predicate SessionOpen(u: User)
  {
    u.refreshToken.Some? && u.refreshToken.value != Unparsable("")
  }

  /** Both tokens carry `claims`; the access token is signed with the access
      secret for 15 minutes and the refresh token with the refresh secret
      for 7 days, both from `now`. */
  ghost predicate PairIssued(p: TokenPair, claims: Claims, secrets: Secrets, now: int)
  {
    IssuedFor(p.accessToken, claims, secrets.access, now, AccessTtl)
    && IssuedFor(p.refreshToken, claims, secrets.refresh, now, RefreshTtl)
  }

  /** The refresh-token column of `u` matches `t` and nothing else. */
  ghost predicate StoresExactly(u: User, t: Token)
  {
    SessionOpen(u) && forall x :: Matches(x, u.refreshToken.value) <==> x == t
  }

  /** `after` differs from `before` at most in the refresh-token column of
      user `id`. */
  ghost predicate OnlySessionOf(before: map<UserId, User>, after: map<UserId, User>, id: UserId)
  {
    && id in before
    && after.Keys == before.Keys
    && after[id] == before[id].(refreshToken := after[id].refreshToken)
    && forall other | other in before && other != id :: after[other] == before[other]
  }

  /** The row `register` creates. */
  ghost predicate Registered(u: User, dto: RegisterDto, id: UserId)
  {
    && u.id == id && u.username == dto.username && u.email == dto.email
    && Matches(dto.password, u.password)
    && u.avatar == Some(AvatarBase + dto.username)
    && u.roles == {DefaultRole}
    && u.refreshToken.None? && u.displayName.None? && u.bio.None?
  }

  /** profile(id): the public columns of user `id`, or null. */
  function Profile(db: Db, id: UserId): (r: Option<PublicProfile>)
    ensures r.Some? <==> id in db.users
    ensures r.Some? ==> var u := db.users[id];
      r.value.id == u.id && r.value.email == u.email && r.value.username == u.username
      && r.value.roles == u.roles && r.value.avatar == u.avatar
      && r.value.displayName == u.displayName && r.value.bio == u.bio
  {
    if id !in db.users then None
    else
      var u := db.users[id];
      Some(PublicProfile(u.id, u.email, u.avatar, u.displayName, u.bio, u.roles, u.username))
  }

  /** register(dto), with the bcrypt salt and the id the database assigns
      passed in. The username check comes first, then the USER role is
      upserted, then the row is created. */
  function Register(db: Db, dto: RegisterDto, salt: nat, newId: UserId): (r: Step<User>)
    ensures r.result == Failure(Conflict(UsernameInUse)) <==> UsernameTaken(db.users, dto.username)
    ensures UsernameTaken(db.users, dto.username) ==> r.db == db
    ensures !UsernameTaken(db.users, dto.username) ==> r.db.roles == db.roles + {DefaultRole}
    ensures r.result.Success? <==>
      !UsernameTaken(db.users, dto.username) && !EmailTaken(db.users, dto.email) && newId !in db.users
    ensures r.result.Failure? ==> r.db.users == db.users
    ensures r.result.Failure? && !UsernameTaken(db.users, dto.username) ==> r.result.error == PrismaError
    ensures r.result.Success? ==> Registered(r.result.value, dto, newId)
                                  && r.db.users == db.users[newId := r.result.value]
  {
    var hashedPassword := Hash(dto.password, salt);
    if UsernameTaken(db.users, dto.username) then
      Step(Failure(Conflict(UsernameInUse)), db)
    else
      var upserted := Db(db.users, db.roles + {DefaultRole});
      var u := User(newId, dto.username, dto.email, hashedPassword, None, None, None,
                    Some(AvatarBase + dto.username), {DefaultRole});
      if CanCreate(upserted, u) then Step(Success(u), Db(db.users[newId := u], upserted.roles))
      else Step(Failure(PrismaError), upserted)
  }

  /** validateUser(username, password): the same Forbidden whether the
      username is unknown or the password wrong. */
  function ValidateUser(db: Db, username: string, password: string): (r: Result<User>)
    requires Consistent(db.users)
    ensures r.Success? <==> exists id | id in db.users ::
      db.users[id].username == username && Matches(password, db.users[id].password)
    ensures r.Failure? ==> r.error == Forbidden
    ensures r.Success? ==> r.value.id in db.users && db.users[r.value.id] == r.value
                           && r.value.username == username
  {
    var user := FindByUsername(db.users, username);
    var isCorrectPassword := Matches(password, if user.Some? then user.value.password else Unparsable(""));
    if user.None? || !isCorrectPassword then Failure(Forbidden) else Success(user.value)
  }

  /** login(user): signs both tokens with the claims of the given record and
      overwrites the user's refresh-token column with the digest of the new
      refresh token. */
  function Login(db: Db, secrets: Secrets, user: User, now: int, salt: nat): (r: Step<TokenPair>)
    ensures r.result.Success? <==> user.id in db.users
    ensures r.result.Failure? ==> r.result.error == PrismaError && r.db == db
    ensures r.result.Success? ==>
      && PairIssued(r.result.value, ClaimsOf(user), secrets, now)
      && OnlySessionOf(db.users, r.db.users, user.id)
      && StoresExactly(r.db.users[user.id], r.result.value.refreshToken)
      && r.db.roles == db.roles
  {
    var payload := ClaimsOf(user);
    var accessToken := Sign(payload, secrets.access, now, AccessTtl);
    var refreshToken := Sign(payload, secrets.refresh, now, RefreshTtl);
    var hashedRefreshToken := Hash(refreshToken, salt);
    SignIsIssued(payload, secrets.access, now, AccessTtl);
    SignIsIssued(payload, secrets.refresh, now, RefreshTtl);
    if user.id !in db.users then Step(Failure(PrismaError), db)
    else
      var updated := db.users[user.id].(refreshToken := Some(hashedRefreshToken));
      Step(Success(TokenPair(accessToken, refreshToken)), Db(db.users[user.id := updated], db.roles))
  }

  /** The catch block of logout: the two token errors become Unauthorized,
      everything else (the missing-subject BadRequest included) becomes the
      generic BadRequest. */
  function ClassifyLogoutError(e: Error): (c: Error)
    ensures IsHttpException(c)
    ensures c.Unauthorized? <==> e.TokenExpiredError? || e.JsonWebTokenError?
    ensures e.TokenExpiredError? ==> c == Unauthorized(ExpiredMessage)
    ensures e.JsonWebTokenError? ==> c == Unauthorized(InvalidTokenMessage)
    ensures !(e.TokenExpiredError? || e.JsonWebTokenError?) ==> c == BadRequest(LogoutFailedMessage)
  {
    if e.TokenExpiredError? then Unauthorized(ExpiredMessage)
    else if e.JsonWebTokenError? then Unauthorized(InvalidTokenMessage)
    else BadRequest(LogoutFailedMessage)
  }

  /** The try block of logout: verify with the access secret, demand a
      subject, clear that user's refresh-token column. */
  function LogoutAttempt(db: Db, secrets: Secrets, token: Token, now: int): (r: Step<()>)
    ensures r.result.Failure? ==> r.db == db
    ensures !Verify(token, secrets.access, now).Valid? ==>
      r.result == Failure(VerifyError(Verify(token, secrets.access, now)))
    ensures Verify(token, secrets.access, now).Valid? && !HasSubject(token.claims) ==>
      r.result == Failure(BadRequest(InvalidPayloadMessage))
    ensures Verify(token, secrets.access, now).Valid? && HasSubject(token.claims) ==>
      (token.claims.sub.value !in db.users ==> r.result == Failure(PrismaError))
    ensures r.result.Success? <==>
      Verify(token, secrets.access, now).Valid? && HasSubject(token.claims)
      && token.claims.sub.value in db.users
    ensures r.result.Success? ==>
      && OnlySessionOf(db.users, r.db.users, token.claims.sub.value)
      && r.db.users[token.claims.sub.value].refreshToken.None?
      && r.db.roles == db.roles
  {
    var verified := Verify(token, secrets.access, now);
    if !verified.Valid? then Step(Failure(VerifyError(verified)), db)
    else if !HasSubject(verified.claims) then Step(Failure(BadRequest(InvalidPayloadMessage)), db)
    else
      var userId := verified.claims.sub.value;
      if userId !in db.users then Step(Failure(PrismaError), db)
      else Step(Success(()), Db(db.users[userId := db.users[userId].(refreshToken := None)], db.roles))
  }

  /** logout(token). */
  function Logout(db: Db, secrets: Secrets, token: Token, now: int): (r: Step<()>)
    ensures r.result.Failure? ==> r.db == db && IsHttpException(r.result.error)
    ensures Verify(token, secrets.access, now).Expired? ==>
      r.result == Failure(Unauthorized(ExpiredMessage))
    ensures Verify(token, secrets.access, now).Invalid? ==>
      r.result == Failure(Unauthorized(InvalidTokenMessage))
    ensures r.result.Success? <==>
      Verify(token, secrets.access, now).Valid? && HasSubject(token.claims)
      && token.claims.sub.value in db.users
    ensures Verify(token, secrets.access, now).Valid? && r.result.Failure? ==>
      r.result == Failure(BadRequest(LogoutFailedMessage))
    ensures r.result.Success? ==>
      && OnlySessionOf(db.users, r.db.users, token.claims.sub.value)
      && r.db.users[token.claims.sub.value].refreshToken.None?
      && r.db.roles == db.roles
  {
    var attempt := LogoutAttempt(db, secrets, token, now);
    if attempt.result.Failure? then Step(Failure(ClassifyLogoutError(attempt.result.error)), attempt.db)
    else attempt
  }

  /** refreshTokens(refreshToken): verification errors propagate as thrown
      by jsonwebtoken; a missing session is NotFound and a token that does
      not match the stored digest Forbidden; otherwise the pair is rotated
      with username and email taken from the stored row. */
  function RefreshTokens(db: Db, secrets: Secrets, token: Token, now: int, salt: nat): (r: Step<TokenPair>)
    ensures r.result.Failure? ==> r.db == db
    ensures Verify(token, secrets.refresh, now).Expired? ==> r.result == Failure(TokenExpiredError)
    ensures Verify(token, secrets.refresh, now).Invalid? ==> r.result == Failure(JsonWebTokenError)
    ensures Verify(token, secrets.refresh, now).Valid? && token.claims.sub.None? ==>
      r.result == Failure(PrismaError)
    ensures Verify(token, secrets.refresh, now).Valid? && token.claims.sub.Some? ==>
      var id := token.claims.sub.value;
      && (!(id in db.users && SessionOpen(db.users[id])) ==> r.result == Failure(NotFound))
      && (id in db.users && SessionOpen(db.users[id]) ==>
            (r.result.Success? <==> Matches(token, db.users[id].refreshToken.value))
            && (r.result.Failure? ==> r.result.error == Forbidden))
    ensures r.result.Success? ==>
      var id := token.claims.sub.value;
      var u := db.users[id];
      && PairIssued(r.result.value, Claims(Some(id), u.username, u.email), secrets, now)
      && OnlySessionOf(db.users, r.db.users, id)
      && StoresExactly(r.db.users[id], r.result.value.refreshToken)
      && r.db.roles == db.roles
  {
    var verified := Verify(token, secrets.refresh, now);
    if !verified.Valid? then Step(Failure(VerifyError(verified)), db)
    else if verified.claims.sub.None? then Step(Failure(PrismaError), db)
    else
      var id := verified.claims.sub.value;
      if id !in db.users || !SessionOpen(db.users[id]) then Step(Failure(NotFound), db)
      else
        var user := db.users[id];
        if !Matches(token, user.refreshToken.value) then Step(Failure(Forbidden), db)
        else
          var payload := Claims(Some(id), user.username, user.email);
          var accessToken := Sign(payload, secrets.access, now, AccessTtl);
          var newRefreshToken := Sign(payload, secrets.refresh, now, RefreshTtl);
          var hashedNewRefreshToken := Hash(newRefreshToken, salt);
          SignIsIssued(payload, secrets.access, now, AccessTtl);
          SignIsIssued(payload, secrets.refresh, now, RefreshTtl);
          Step(Success(TokenPair(accessToken, newRefreshToken)),
               Db(db.users[id := user.(refreshToken := Some(hashedNewRefreshToken))], db.roles))
  }
}
