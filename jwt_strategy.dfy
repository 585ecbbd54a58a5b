/** JwtStrategy: the passport-jwt strategy behind JwtAuthGuard, which
    protects the profile route. */
module JwtStrategy {
  import opened Errors
  import opened Jwt
  import opened Prisma
  import opened Lifecycle

  /** The options the constructor hands to passport-jwt. */
  datatype StrategyOptions = StrategyOptions(ignoreExpiration: bool, secretOrKey: string)

  function Options(secrets: Secrets): (o: StrategyOptions)
    ensures !o.ignoreExpiration && o.secretOrKey == secrets.access
  {
    StrategyOptions(false, secrets.access)
  }

  /** What passport-jwt makes of a token under `opts`: the payload, or a
      rejection. With ignoreExpiration set, an expired but well-signed
      token would still yield its payload. */
  function Accept(opts: StrategyOptions, token: Token, now: int): (v: Verified)
    ensures v.Valid? ==> token.Signed? && token.key == opts.secretOrKey && v.claims == token.claims
    ensures v.Valid? <==> Verify(token, opts.secretOrKey, now).Valid?
                          || (opts.ignoreExpiration && Verify(token, opts.secretOrKey, now).Expired?)
  {
    var v := Verify(token, opts.secretOrKey, now);
    if v.Expired? && opts.ignoreExpiration then Valid(token.claims) else v
  }

  /** validate(payload): the stored row whose id is `payload.sub`, or
      NotFound. Without a subject the lookup `where: {id: undefined}` is
      rejected by Prisma. */
  function Validate(db: Db, payload: Claims): (r: Result<User>)
    ensures payload.sub.None? ==> r == Failure(PrismaError)
    ensures payload.sub.Some? ==> (r.Success? <==> payload.sub.value in db.users)
    ensures payload.sub.Some? && r.Failure? ==> r.error == NotFound
    ensures r.Success? ==> r.value == db.users[payload.sub.value]
  {
    if payload.sub.None? then Failure(PrismaError)
    else if payload.sub.value !in db.users then Failure(NotFound)
    else Success(db.users[payload.sub.value])
  }

  /** The guard's own rejection of a token passport-jwt does not accept. */
  const GuardRejection: Error := Unauthorized("Unauthorized")

  /** JwtAuthGuard: the strategy's options, then validate. The user it
      yields is what the route sees as `req.user`. */
  function Authenticate(db: Db, secrets: Secrets, token: Token, now: int): (r: Result<User>)
    ensures r.Success? <==> Verify(token, secrets.access, now).Valid? && token.claims.sub.Some?
                            && token.claims.sub.value in db.users
    ensures r.Success? ==> r.value == db.users[token.claims.sub.value]
    ensures !Verify(token, secrets.access, now).Valid? ==> r == Failure(GuardRejection)
    ensures Verify(token, secrets.access, now).Valid? && token.claims.sub.None? ==>
      r == Failure(PrismaError)
    ensures Verify(token, secrets.access, now).Valid? && token.claims.sub.Some? ==>
      (token.claims.sub.value !in db.users ==> r == Failure(NotFound))
  {
    var v := Accept(Options(secrets), token, now);
    if !v.Valid? then Failure(GuardRejection) else Validate(db, v.claims)
  }

  /** A refresh token never passes the guard unless the two secrets are
      the same string. */
  lemma RefreshTokenRejected(db: Db, secrets: Secrets, token: Token, claims: Claims,
                             issued: int, now: int)
    requires IssuedFor(token, claims, secrets.refresh, issued, RefreshTtl)
    requires secrets.refresh != secrets.access
    ensures Authenticate(db, secrets, token, now) == Failure(GuardRejection)
  {
  }

  /** Expired access tokens are turned away. */
  lemma ExpiredRejected(db: Db, secrets: Secrets, token: Token, now: int)
    requires token.Signed? && token.exp <= now
    ensures Authenticate(db, secrets, token, now) == Failure(GuardRejection)
  {
  }

  /** Two stores that differ only in users' refresh-token columns. */
  ghost predicate SameExceptSessions(a: Db, b: Db)
  {
    a.users.Keys == b.users.Keys
    && forall id | id in a.users :: a.users[id].(refreshToken := None) == b.users[id].(refreshToken := None)
  }

  /** The guard never looks at the refresh-token column: whether a token
      passes does not depend on it. */
  lemma GuardIgnoresSessions(a: Db, b: Db, secrets: Secrets, token: Token, now: int)
    requires SameExceptSessions(a, b)
    ensures Authenticate(a, secrets, token, now).Success? == Authenticate(b, secrets, token, now).Success?
    ensures Authenticate(a, secrets, token, now).Success? ==>
      Authenticate(a, secrets, token, now).value.(refreshToken := None)
      == Authenticate(b, secrets, token, now).value.(refreshToken := None)
  {
  }
}
