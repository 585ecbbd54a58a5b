/** Properties of the lifecycle across several requests: the invariant
    every reachable store keeps, and the session scenarios that chain
    login, refresh and logout. */
module Sessions {
  import opened Errors
  import opened Bcrypt
  import opened Jwt
  import opened Prisma
  import opened Lifecycle
  import opened Controller
  import JwtStrategy

  /** A stored refresh-token digest, when present, is the digest of a
      token signed with the refresh secret whose subject is that user. */
  ghost predicate BoundSession(u: User, key: string)
  {
    u.refreshToken.Some? ==>
      var d := u.refreshToken.value;
      d.Salted? && d.secret.Signed? && d.secret.key == key && d.secret.claims.sub == Some(u.id)
  }

  /** The table constraints, a password digest on every row, and every
      open session bound to its user. */
  ghost predicate Invariant(db: Db, secrets: Secrets)
  {
    WellFormed(db)
    && forall id | id in db.users ::
         db.users[id].password.Salted? && BoundSession(db.users[id], secrets.refresh)
  }

  /** A request to one of the endpoints that change the store, with the
      time, the salt and the new row id the environment supplies. */
  datatype Request =
    | RegisterRequest(body: RegisterDto, salt: nat, newId: UserId)
    | LoginRequest(credentials: LoginDto, now: int, salt: nat)
    | LogoutRequest(token: Token, now: int)
    | RefreshRequest(token: Token, now: int, salt: nat)

  /** The store after one request. */
  function Handle(db: Db, secrets: Secrets, req: Request): Db
    requires Consistent(db.users)
  {
    match req
    case RegisterRequest(body, salt, newId) => Register(db, body, salt, newId).db
    case LoginRequest(body, now, salt) => LoginEndpoint(db, secrets, body, now, salt).db
    case LogoutRequest(token, now) => LogoutEndpoint(db, secrets, token, now).db
    case RefreshRequest(token, now, salt) => RefreshEndpoint(db, secrets, token, now, salt).db
  }

  /** A freshly written session column is bound to its user. */
  lemma {:induction false} IssuedSessionIsBound(u: User, p: TokenPair, claims: Claims,
                                                 secrets: Secrets, now: int)
    requires IssuedFor(p.refreshToken, claims, secrets.refresh, now, RefreshTtl)
    requires claims.sub == Some(u.id)
    requires StoresExactly(u, p.refreshToken)
    ensures BoundSession(u, secrets.refresh)
  {
    assert Verify(p.refreshToken, secrets.refresh, now) == Valid(claims);
    assert Matches(p.refreshToken, u.refreshToken.value);
  }

  lemma {:induction false} RegisterKeepsInvariant(db: Db, secrets: Secrets, body: RegisterDto,
                                                  salt: nat, newId: UserId)
    requires Invariant(db, secrets)
    ensures Invariant(Register(db, body, salt, newId).db, secrets)
  {
    var s := Register(db, body, salt, newId);
    if s.result.Success? {
      var after := s.db.users;
      assert Matches(body.password, s.result.value.password);
      forall a, b | a in after && b in after && a != b
        ensures after[a].username != after[b].username && after[a].email != after[b].email
      {
        if a == newId {
          assert db.users[b].username != body.username && db.users[b].email != body.email;
        } else if b == newId {
          assert db.users[a].username != body.username && db.users[a].email != body.email;
        }
      }
    }
  }

  lemma {:induction false} LoginKeepsInvariant(db: Db, secrets: Secrets, body: LoginDto,
                                               now: int, salt: nat)
    requires Invariant(db, secrets)
    ensures Invariant(LoginEndpoint(db, secrets, body, now, salt).db, secrets)
  {
    var s := LoginEndpoint(db, secrets, body, now, salt);
    if s.result.Success? {
      var u := FindByUsername(db.users, body.username).value;
      IssuedSessionIsBound(s.db.users[u.id], s.result.value, ClaimsOf(u), secrets, now);
    }
  }

  lemma {:induction false} LogoutKeepsInvariant(db: Db, secrets: Secrets, token: Token, now: int)
    requires Invariant(db, secrets)
    ensures Invariant(LogoutEndpoint(db, secrets, token, now).db, secrets)
  {
  }

  lemma {:induction false} RefreshKeepsInvariant(db: Db, secrets: Secrets, token: Token,
                                                 now: int, salt: nat)
    requires Invariant(db, secrets)
    ensures Invariant(RefreshEndpoint(db, secrets, token, now, salt).db, secrets)
  {
    var s := RefreshEndpoint(db, secrets, token, now, salt);
    if s.result.Success? {
      var id := token.claims.sub.value;
      var u := db.users[id];
      IssuedSessionIsBound(s.db.users[id], s.result.value, Claims(Some(id), u.username, u.email),
                           secrets, now);
    }
  }

  /** Every endpoint that writes keeps the invariant. */
  lemma {:induction false} HandleKeepsInvariant(db: Db, secrets: Secrets, req: Request)
    requires Invariant(db, secrets)
    ensures Invariant(Handle(db, secrets, req), secrets)
  {
    match req
    case RegisterRequest(body, salt, newId) => RegisterKeepsInvariant(db, secrets, body, salt, newId);
    case LoginRequest(body, now, salt) => LoginKeepsInvariant(db, secrets, body, now, salt);
    case LogoutRequest(token, now) => LogoutKeepsInvariant(db, secrets, token, now);
    case RefreshRequest(token, now, salt) => RefreshKeepsInvariant(db, secrets, token, now, salt);
  }

  /** The store after a sequence of requests; every store on the way keeps
      the invariant. */
  ghost function Run(db: Db, secrets: Secrets, reqs: seq<Request>): (r: Db)
    requires Invariant(db, secrets)
    ensures Invariant(r, secrets)
    decreases |reqs|
  {
    if reqs == [] then db
    else
      HandleKeepsInvariant(db, secrets, reqs[0]);
      Run(Handle(db, secrets, reqs[0]), secrets, reqs[1..])
  }

  /** The empty database, where every deployment starts. */
  lemma EmptyStoreSatisfiesInvariant(secrets: Secrets)
    ensures Invariant(Db(map[], {}), secrets)
  {
  }

  /** A second registration under a taken username is a Conflict and
      changes nothing, not even the role table. */
  lemma {:induction false} RegisterTwiceConflicts(db: Db, first: RegisterDto, second: RegisterDto,
                                                  s1: nat, id1: UserId, s2: nat, id2: UserId)
    requires Register(db, first, s1, id1).result.Success?
    requires second.username == first.username
    ensures var after := Register(db, first, s1, id1).db;
      Register(after, second, s2, id2) == Step(Failure(Conflict(UsernameInUse)), after)
  {
    var after := Register(db, first, s1, id1).db;
    assert after.users[id1].username == first.username;
  }

  /** The USER role is created once: registering again, whatever the
      outcome, leaves the role table as the first registration left it. */
  lemma RoleUpsertIdempotent(db: Db, first: RegisterDto, second: RegisterDto,
                             s1: nat, id1: UserId, s2: nat, id2: UserId)
    requires Register(db, first, s1, id1).result.Success?
    ensures var after := Register(db, first, s1, id1).db;
      DefaultRole in after.roles && Register(after, second, s2, id2).db.roles == after.roles
  {
  }

  /** Once the USER role exists, no register changes the role table,
      whatever its outcome. */
  lemma RegisterKeepsExistingRoles(db: Db, dto: RegisterDto, salt: nat, id: UserId)
    requires DefaultRole in db.roles
    ensures Register(db, dto, salt, id).db.roles == db.roles
  {
  }

  /** A refresh token fresh from login is accepted by refresh until it
      expires. */
  lemma LoginThenRefresh(db: Db, secrets: Secrets, body: LoginDto,
                         now: int, salt: nat, later: int, salt2: nat)
    requires Consistent(db.users)
    requires LoginEndpoint(db, secrets, body, now, salt).result.Success?
    requires now <= later < now + RefreshTtl
    ensures var login := LoginEndpoint(db, secrets, body, now, salt);
      RefreshEndpoint(login.db, secrets, login.result.value.refreshToken, later, salt2).result.Success?
  {
  }

  /** After a rotation, presenting the superseded refresh token again is
      Forbidden (or, once it has expired, the jsonwebtoken expiry error),
      provided the superseded token does not match the rotated digest. With
      bcrypt, which reads only the first 72 bytes, two refresh tokens of one
      user do match each other's digests, so the program itself accepts the
      replay; the conclusion holds for a digest that matches only its exact
      token. The store is left as the rotation left it. */
  lemma ReplayAfterRotationRejected(db: Db, secrets: Secrets, t: Token,
                                    now: int, salt: nat, later: int, salt2: nat)
    requires RefreshTokens(db, secrets, t, now, salt).result.Success?
    requires var rotated := RefreshTokens(db, secrets, t, now, salt).db;
      !Matches(t, rotated.users[t.claims.sub.value].refreshToken.value)
    requires now <= later
    ensures var rotated := RefreshTokens(db, secrets, t, now, salt).db;
      var replay := RefreshTokens(rotated, secrets, t, later, salt2);
      replay.db == rotated
      && (replay.result == Failure(Forbidden) || replay.result == Failure(TokenExpiredError))
  {
  }

  /** The superseded token differs from the rotated one whenever the two do
      not expire in the same second. Distinct tokens may still share the
      prefix bcrypt reads. */
  lemma RotationChangesTokenAcrossSeconds(db: Db, secrets: Secrets, t: Token,
                                          now: int, salt: nat)
    requires RefreshTokens(db, secrets, t, now, salt).result.Success?
    requires t.Signed? && t.exp != now + RefreshTtl
    ensures RefreshTokens(db, secrets, t, now, salt).result.value.refreshToken != t
  {
  }

  /** The caveat of JWT rotation: a refresh in the same second as the login
      signs the very same refresh token again, so the "superseded" token
      still matches and can be presented once more. */
  lemma SameSecondRotationReplays(db: Db, secrets: Secrets, body: LoginDto,
                                  now: int, salt: nat, salt2: nat, salt3: nat)
    requires Consistent(db.users)
    requires LoginEndpoint(db, secrets, body, now, salt).result.Success?
    ensures var login := LoginEndpoint(db, secrets, body, now, salt);
      var t := login.result.value.refreshToken;
      var first := RefreshEndpoint(login.db, secrets, t, now, salt2);
      first.result.Success? && first.result.value.refreshToken == t
      && RefreshEndpoint(first.db, secrets, t, now, salt3).result.Success?
  {
  }

  /** After logout, every refresh token of that user, however valid, finds
      no session. */
  lemma LogoutThenRefreshNotFound(db: Db, secrets: Secrets, access: Token,
                                  now: int, t: Token, later: int, salt: nat)
    requires Logout(db, secrets, access, now).result.Success?
    requires Verify(t, secrets.refresh, later).Valid? && t.claims.sub == access.claims.sub
    ensures var out := Logout(db, secrets, access, now).db;
      RefreshTokens(out, secrets, t, later, salt) == Step(Failure(NotFound), out)
  {
  }

  /** Logout does not revoke access tokens: one the guard accepted before
      still passes afterwards, for the same user. */
  lemma AccessTokenSurvivesLogout(db: Db, secrets: Secrets, access: Token,
                                  now: int, other: Token, when: int)
    requires JwtStrategy.Authenticate(db, secrets, access, now).Success?
    requires LogoutEndpoint(db, secrets, other, when).result.Success?
    ensures var out := LogoutEndpoint(db, secrets, other, when).db;
      JwtStrategy.Authenticate(out, secrets, access, now).Success?
      && JwtStrategy.Authenticate(out, secrets, access, now).value.(refreshToken := None)
         == JwtStrategy.Authenticate(db, secrets, access, now).value.(refreshToken := None)
  {
  }

  /** Register alice on an empty database, log her in, rotate a second
      later, then present the first refresh token again: the rotation
      succeeds with a new token, and with a digest that matches only its
      exact token the replay is Forbidden. A wrong password and an unknown
      username get the same Forbidden. */
  lemma AliceScenario(secrets: Secrets, id: UserId, s1: nat, s2: nat, s3: nat,
                      s4: nat, now: int)
    ensures
      var reg := Register(Db(map[], {}), RegisterDto("alice", "a@x.com", "secret1"), s1, id);
      var login := LoginEndpoint(reg.db, secrets, LoginDto("alice", "secret1"), now, s2);
      var t := login.result.value.refreshToken;
      var rotation := RefreshEndpoint(login.db, secrets, t, now + 1, s3);
      && reg.result.Success? && login.result.Success? && rotation.result.Success?
      && rotation.result.value.refreshToken != t
      && RefreshEndpoint(rotation.db, secrets, t, now + 2, s4).result == Failure(Forbidden)
      && LoginEndpoint(reg.db, secrets, LoginDto("alice", "wrong"), now, s2).result
         == LoginEndpoint(reg.db, secrets, LoginDto("bob", "secret1"), now, s2).result
  {
  }
}
