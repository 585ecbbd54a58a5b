/** AuthService: the use-case layer. Each method makes the same store calls
    as the service, in the same order, and is proved to return and leave
    behind exactly what the corresponding Lifecycle function describes. */
module Service {
  import opened Errors
  import opened Bcrypt
  import opened Jwt
  import opened Prisma
  import opened Lifecycle

  class AuthService {
    const store: UserStore
    const secrets: Secrets

    constructor(store: UserStore, secrets: Secrets)
      ensures this.store == store && this.secrets == secrets
    {
      this.store := store;
      this.secrets := secrets;
    }

    /** user.findUnique({where: {id}, select: the public columns}). */
    method Profile(id: UserId) returns (r: Option<PublicProfile>)
      ensures r == Lifecycle.Profile(store.Snapshot(), id)
    {
      if id !in store.users {
        return None;
      }
      var u := store.users[id];
      r := Some(PublicProfile(u.id, u.email, u.avatar, u.displayName, u.bio, u.roles, u.username));
    }

    method Register(dto: RegisterDto, salt: nat, newId: UserId) returns (r: Result<User>)
      requires store.Valid()
      modifies store
      ensures store.Valid()
      ensures Step(r, store.Snapshot()) == Lifecycle.Register(old(store.Snapshot()), dto, salt, newId)
    {
      var hashedPassword := Hash(dto.password, salt);
      var existingUser := FindByUsername(store.users, dto.username);
      if existingUser.Some? {
        return Failure(Conflict(UsernameInUse));
      }
      store.UpsertRole(DefaultRole);
      r := store.CreateUser(User(newId, dto.username, dto.email, hashedPassword, None, None, None,
                                 Some(AvatarBase + dto.username), {DefaultRole}));
    }

    method ValidateUser(username: string, password: string) returns (r: Result<User>)
      requires store.Valid()
      ensures r == Lifecycle.ValidateUser(store.Snapshot(), username, password)
    {
      var user := FindByUsername(store.users, username);
      var isCorrectPassword := Matches(password, if user.Some? then user.value.password else Unparsable(""));
      if user.None? || !isCorrectPassword {
        return Failure(Forbidden);
      }
      r := Success(user.value);
    }

    method Login(user: User, now: int, salt: nat) returns (r: Result<TokenPair>)
      requires store.Valid()
      modifies store
      ensures store.Valid()
      ensures Step(r, store.Snapshot()) == Lifecycle.Login(old(store.Snapshot()), secrets, user, now, salt)
    {
      var payload := ClaimsOf(user);
      var accessToken := Sign(payload, secrets.access, now, AccessTtl);
      var refreshToken := Sign(payload, secrets.refresh, now, RefreshTtl);
      var hashedRefreshToken := Hash(refreshToken, salt);
      var updated := store.UpdateRefreshToken(user.id, Some(hashedRefreshToken));
      if updated.Failure? {
        return Failure(updated.error);
      }
      r := Success(TokenPair(accessToken, refreshToken));
    }

    method Logout(token: Token, now: int) returns (r: Result<()>)
      requires store.Valid()
      modifies store
      ensures store.Valid()
      ensures Step(r, store.Snapshot()) == Lifecycle.Logout(old(store.Snapshot()), secrets, token, now)
    {
      // try
      var attempt: Result<()> := Success(());
      var payload := Verify(token, secrets.access, now);
      if !payload.Valid? {
        attempt := Failure(VerifyError(payload));
      } else if !HasSubject(payload.claims) {
        attempt := Failure(BadRequest(InvalidPayloadMessage));
      } else {
        var updated := store.UpdateRefreshToken(payload.claims.sub.value, None);
        if updated.Failure? {
          attempt := Failure(updated.error);
        }
      }
      // catch
      if attempt.Failure? {
        return Failure(ClassifyLogoutError(attempt.error));
      }
      r := Success(());
    }

    method RefreshTokens(refreshToken: Token, now: int, salt: nat) returns (r: Result<TokenPair>)
      requires store.Valid()
      modifies store
      ensures store.Valid()
      ensures Step(r, store.Snapshot())
              == Lifecycle.RefreshTokens(old(store.Snapshot()), secrets, refreshToken, now, salt)
    {
      var verified := Verify(refreshToken, secrets.refresh, now);
      if !verified.Valid? {
        return Failure(VerifyError(verified));
      }
      if verified.claims.sub.None? {
        return Failure(PrismaError);
      }
      var id := verified.claims.sub.value;
      if id !in store.users || !SessionOpen(store.users[id]) {
        return Failure(NotFound);
      }
      var user := store.users[id];
      var isRefreshTokenValid := Matches(refreshToken, user.refreshToken.value);
      if !isRefreshTokenValid {
        return Failure(Forbidden);
      }
      var payload := Claims(Some(id), user.username, user.email);
      var accessToken := Sign(payload, secrets.access, now, AccessTtl);
      var newRefreshToken := Sign(payload, secrets.refresh, now, RefreshTtl);
      var hashedNewRefreshToken := Hash(newRefreshToken, salt);
      var updated := store.UpdateRefreshToken(id, Some(hashedNewRefreshToken));
      r := Success(TokenPair(accessToken, newRefreshToken));
    }
  }
}
