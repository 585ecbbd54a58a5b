# Auth session lifecycle — a Dafny model

This project models the authentication core of the UniCore backend:
`AuthService` (register, validateUser, login, logout, refreshTokens,
profile), the `AuthController` handlers in front of it, and the
`JwtStrategy` that guards the profile route. The service is a small state
machine over the user store: each user row holds a bcrypt password digest
and an optional refresh-token digest. A null digest means logged out; a
digest means one live session slot, overwritten by every login and every
rotation.

Layout (one module per file):

- `errors.dfy` — `Errors`: Option, the exception kinds (the NestJS HTTP
  exceptions plus the jsonwebtoken and Prisma errors), `IsHttpException`, Result.
- `bcrypt.dfy` — `Bcrypt`: digests kept abstract; `Matches(p, Hash(q, salt)) <==> p == q`.
- `jwt.dfy` — `Jwt`: tokens per RFC 7519 (`sub`, section 4.1.2; `exp`,
  section 4.1.4), `Sign`, `Verify` with the jsonwebtoken outcomes, the
  15-minute and 7-day lifetimes.
- `prisma.dfy` — `Prisma`: the user and role tables, their constraints
  (`WellFormed`), and the class `UserStore` whose methods are the Prisma
  calls the service makes (role upsert, user create, refresh-token update).
- `lifecycle.dfy` — `Lifecycle`: each service operation as a function from
  the store before the call to the result and the store after it, with its
  promises as postconditions.
- `service.dfy` — `Service.AuthService`: the class itself; each method makes
  the same store calls in the same order as the TypeScript method and is
  proved to agree with the `Lifecycle` function.
- `jwt_strategy.dfy` — `JwtStrategy`: the strategy options, `validate`, and
  the guard as a whole.
- `controller.dfy` — `Controller`: the handlers' error remapping as pure
  functions, each endpoint as a composition, and the class `AuthController`.
- `sessions.dfy` — `Sessions`: the invariant every reachable store keeps,
  and lemmas chaining login, refresh and logout.

Time, bcrypt salts and the id the database gives a new row are parameters
(`now` in seconds, `salt`, `newId`). The two signing secrets are a
`Secrets` value handed to the service.

Where the code departs from its own annotations (`@ApiResponse`, `MinLength`)
or from what one would expect, the model follows the code:

- Logout turns a failed store update into `BadRequest('An error occurred during
  logout')`, because the catch block at auth.service.ts:116-124 swallows it.
  Store errors do not propagate unchanged there.
- A token is expired once the clock reaches `exp` (jsonwebtoken compares with
  `>=`), not only once the clock passes it.
- The `MinLength(6)` on the register password (register.dto.ts:12) is
  declared, but no validation pipe is installed (main.ts, app.module.ts).
  `register` therefore accepts any password, and so does the model.
- After a rotation, the program does not reject the old refresh token of the
  same user. `compareSync` (auth.service.ts:137) reads only the first 72 bytes
  of the token. In every refresh token of one user those bytes are the same:
  the fixed JWT header, then the start of the payload `{"sub":"<id>"`. So any
  unexpired refresh token of that user matches the rotated digest, and a
  replay is rotated again instead of getting Forbidden. The model's digest
  matches its exact token only, so the model does not show this.
  `Sessions.ReplayAfterRotationRejected` and `Sessions.AliceScenario` take
  that exact-match digest as an explicit hypothesis.
- Rotation does not always produce a new refresh token. Two tokens signed in
  the same second with the same payload are identical
  (`Sessions.SameSecondRotationReplays`). Tokens signed in different seconds
  differ (`Sessions.RotationChangesTokenAcrossSeconds`), but they may still
  share the 72 bytes bcrypt reads.
- A bad login is a 403 Forbidden, although the handler's `@ApiResponse`
  (auth.controller.ts:74-77) documents a 401.

## Model

| member | source | states |
|---|---|---|
| `Errors.IsHttpException` | src/auth/controllers/auth.controller.ts:119 | exactly the six NestJS exceptions (Conflict, Forbidden, NotFound, Unauthorized, BadRequest, InternalServerError) are HTTP exceptions; the jsonwebtoken and Prisma errors are not |
| `Bcrypt.Matches` | src/auth/services/auth.service.ts:73 | a digest matches only the plaintext it was made from; a string that is not a digest (such as the empty-string fallback) matches nothing |
| `Bcrypt.Hash` | src/auth/services/auth.service.ts:42 | a digest matches exactly the plaintext it was made from, under any salt, and is never the empty string |
| `Bcrypt.SaltedDigestsDiffer` | src/auth/services/auth.service.ts:89 | hashing the same plaintext under two salts gives two different digests that both match it |
| `Jwt.Verify` | src/auth/services/auth.service.ts:102-104 | a token is accepted iff it is signed with the given secret and `now < exp`; it is Expired iff the key is right and `exp <= now`; otherwise it is Invalid; an accepted token yields its own claims |
| `Jwt.Sign` | src/auth/services/auth.service.ts:83-87 | the token carries exactly the given claims and key, is issued at `now` and expires at `now + ttl` |
| `Jwt.VerifyError` | src/auth/services/auth.service.ts:117-122 | a rejected token raises TokenExpiredError exactly when it expired and JsonWebTokenError exactly when it is invalid; neither is an HTTP exception |
| `Jwt.SignIsIssued` | src/auth/services/auth.service.ts:83-87 | a signed token verifies under its own key until `now + ttl`, is expired from then on, and is Invalid under every other key |
| `Jwt.CrossSecretRejected` | src/auth/services/auth.service.ts:128-130 | a token issued under one secret is Invalid under any other secret at any time |
| `Prisma.FindByUsername` | src/auth/services/auth.service.ts:44-46 | finds a row iff the username is taken; the row found is the stored row with that username |
| `Prisma.UserStore.UpsertRole` | src/auth/services/auth.service.ts:51-55 | the role table gains the role if missing and is otherwise unchanged; users are untouched |
| `Prisma.UserStore.CreateUser` | src/auth/services/auth.service.ts:57-67 | the row is inserted iff no unique column is taken and its roles exist; otherwise PrismaError and nothing written |
| `Prisma.UserStore.UpdateRefreshToken` | src/auth/services/auth.service.ts:90-93 | only that row's refresh-token column changes; an unknown id is a PrismaError with nothing written |
| `Lifecycle.Profile` | src/auth/services/auth.service.ts:23-38 | null iff no user has the id; otherwise the seven public columns of that user; the result type has no password or refresh-token field |
| `Lifecycle.Register` | src/auth/services/auth.service.ts:40-68 | Conflict iff the username is taken, and then users and roles are unchanged; otherwise role USER exists afterwards; success iff username, email and id are all free, creating exactly one row with the given username and email, a password digest matching the plaintext, the dicebear avatar seeded by the username, roles {USER} and no session; a failed create writes no user |
| `Lifecycle.ValidateUser` | src/auth/services/auth.service.ts:70-77 | succeeds iff some user has that username and the password matches its digest, returning that stored row; every failure is the same Forbidden |
| `Lifecycle.Login` | src/auth/services/auth.service.ts:79-98 | both tokens carry `{sub: id, username, email}` of the given user, the access token under the access secret for 15 minutes, the refresh token under the refresh secret for 7 days; the stored digest afterwards matches the returned refresh token and nothing else; no other column or user changes; an unknown id is a PrismaError with nothing written |
| `Lifecycle.ClassifyLogoutError` | src/auth/services/auth.service.ts:116-124 | an expired-token error becomes Unauthorized('Token has expired'), an invalid-token error Unauthorized('Invalid token'), anything else BadRequest('An error occurred during logout'); the result is always an HTTP exception, and Unauthorized exactly for the two token errors |
| `Lifecycle.LogoutAttempt` | src/auth/services/auth.service.ts:101-115 | the try block alone: a rejected token raises the jsonwebtoken error, a payload without subject BadRequest('Invalid token payload'), an unknown user a PrismaError, none of them writing anything; it succeeds exactly when all three checks pass, and then only that user's refresh digest becomes null |
| `Lifecycle.Logout` | src/auth/services/auth.service.ts:100-125 | Expired gives Unauthorized('Token has expired'), Invalid gives Unauthorized('Invalid token'); a verified token without `sub` or for an unknown user gives BadRequest('An error occurred during logout'); otherwise it succeeds and only that user's refresh digest becomes null; every failure leaves the store unchanged |
| `Lifecycle.RefreshTokens` | src/auth/services/auth.service.ts:127-156 | verification errors propagate as TokenExpiredError or JsonWebTokenError; no subject is a PrismaError; an unknown user or a null or empty digest gives NotFound; a token not matching the digest gives Forbidden; failures leave the store unchanged; success mints a pair with username and email from the stored row and replaces that row's digest with one matching only the new refresh token |
| `Service.AuthService.Profile` | src/auth/services/auth.service.ts:23-38 | returns what `Lifecycle.Profile` describes for the current store |
| `Service.AuthService.Register` | src/auth/services/auth.service.ts:40-68 | keeps the table constraints; its result and the new store are those of `Lifecycle.Register` |
| `Service.AuthService.ValidateUser` | src/auth/services/auth.service.ts:70-77 | reads only; returns what `Lifecycle.ValidateUser` describes |
| `Service.AuthService.Login` | src/auth/services/auth.service.ts:79-98 | keeps the table constraints; its result and the new store are those of `Lifecycle.Login` |
| `Service.AuthService.Logout` | src/auth/services/auth.service.ts:100-125 | keeps the table constraints; its result and the new store are those of `Lifecycle.Logout` |
| `Service.AuthService.RefreshTokens` | src/auth/services/auth.service.ts:127-156 | keeps the table constraints; its result and the new store are those of `Lifecycle.RefreshTokens` |
| `JwtStrategy.Options` | src/auth/services/jwt.strategy.service.ts:13-17 | expiry is enforced (`ignoreExpiration: false`) and the key is the access secret |
| `JwtStrategy.Accept` | src/auth/services/jwt.strategy.service.ts:13-17 | a token is accepted only if signed with the configured key; an expired token is accepted only when ignoreExpiration is set |
| `JwtStrategy.Validate` | src/auth/services/jwt.strategy.service.ts:20-26 | returns the stored row whose id is `payload.sub`, NotFound when there is none, and a PrismaError when the payload has no subject |
| `JwtStrategy.Authenticate` | src/auth/services/jwt.strategy.service.ts:13-26 | passes iff the token verifies under the access secret before expiry and its subject is a stored user, yielding that user; a token that does not verify gets the guard's Unauthorized; a verified token with an unknown subject gets NotFound, and one without a subject the PrismaError of the `id: undefined` lookup |
| `JwtStrategy.RefreshTokenRejected` | src/auth/services/jwt.strategy.service.ts:16 | a refresh token never passes the guard unless the two secrets are equal |
| `JwtStrategy.ExpiredRejected` | src/auth/services/jwt.strategy.service.ts:15 | an expired token never passes the guard |
| `JwtStrategy.GuardIgnoresSessions` | src/auth/services/jwt.strategy.service.ts:20-26 | whether a token passes, and the user yielded apart from its refresh column, do not depend on any stored refresh digest |
| `Controller.LogoutResponse` | src/auth/controllers/auth.controller.ts:114-125 | success becomes `{message: 'Logout successful'}`; HTTP exceptions pass unchanged; any other error becomes a 500 |
| `Controller.RefreshResponse` | src/auth/controllers/auth.controller.ts:155-161 | the service's pair is returned unchanged; every failure becomes Forbidden |
| `Controller.LoginEndpoint` | src/auth/controllers/auth.controller.ts:78-81 | succeeds iff the credentials match a stored user, issuing that user's pair and storing its digest; on failure the error is Forbidden and nothing is written |
| `Controller.LogoutEndpoint` | src/auth/controllers/auth.controller.ts:114-125 | on success the body is `{message: 'Logout successful'}` and the store is service logout's; on failure the error is service logout's own, so only Unauthorized or BadRequest and never the 500, and nothing is written |
| `Controller.RefreshEndpoint` | src/auth/controllers/auth.controller.ts:155-161 | every failure is Forbidden and writes nothing; success is exactly the service's outcome |
| `Controller.ProfileEndpoint` | src/auth/controllers/auth.controller.ts:25-33 | answers iff the guard passes; the profile is then never null, its id is the token's subject, and it is exactly `profile` of that id; guard errors reach the caller unchanged, so a verified token of an unknown user gets NotFound |
| `Controller.AuthController.Profile` | src/auth/controllers/auth.controller.ts:27-33 | calls profile with the id of the user the guard attached |
| `Controller.AuthController.Register` | src/auth/controllers/auth.controller.ts:51-53 | result and store are those of the service's register, unchanged |
| `Controller.AuthController.Login` | src/auth/controllers/auth.controller.ts:78-81 | validateUser, then login with the row it returned; agrees with `Controller.LoginEndpoint` |
| `Controller.AuthController.Logout` | src/auth/controllers/auth.controller.ts:114-125 | agrees with `Controller.LogoutEndpoint` |
| `Controller.AuthController.RefreshTokens` | src/auth/controllers/auth.controller.ts:155-161 | agrees with `Controller.RefreshEndpoint` |
| `Sessions.IssuedSessionIsBound` | src/auth/services/auth.service.ts:89-93 | a digest written by login or refresh belongs to a token signed with the refresh secret whose subject is that user |
| `Sessions.RegisterKeepsInvariant` | src/auth/services/auth.service.ts:40-68 | register keeps usernames and emails unique, gives the new row a password digest, no session, and only roles that exist |
| `Sessions.LoginKeepsInvariant` | src/auth/controllers/auth.controller.ts:78-81 | the login endpoint writes a session digest bound to the logged-in user's id under the refresh secret |
| `Sessions.LogoutKeepsInvariant` | src/auth/controllers/auth.controller.ts:114-125 | the logout endpoint keeps the invariant (it only clears a session) |
| `Sessions.RefreshKeepsInvariant` | src/auth/controllers/auth.controller.ts:155-161 | the refresh endpoint writes a session digest bound to the token's subject under the refresh secret |
| `Sessions.HandleKeepsInvariant` | src/auth/services/auth.service.ts:40-156 | every endpoint that writes keeps the table constraints, a password digest on every row, and every stored session bound to its own user |
| `Sessions.Run` | src/auth/services/auth.service.ts:40-156 | any sequence of register, login, logout and refresh requests keeps that invariant |
| `Sessions.EmptyStoreSatisfiesInvariant` | src/auth/services/auth.service.ts:57-67 | an empty database satisfies the invariant, so every store reached from it does |
| `Sessions.RegisterTwiceConflicts` | src/auth/services/auth.service.ts:44-49 | after a successful register, a second one with the same username is Conflict and changes nothing |
| `Sessions.RoleUpsertIdempotent` | src/auth/services/auth.service.ts:51-55 | after a successful register, USER exists and a second register leaves the role table as it is |
| `Sessions.RegisterKeepsExistingRoles` | src/auth/services/auth.service.ts:51-55 | once USER exists, any register, whatever its outcome, leaves the role table unchanged (the upsert's `update: {}`) |
| `Sessions.LoginThenRefresh` | src/auth/services/auth.service.ts:127-138 | a refresh token fresh from login is accepted until it expires |
| `Sessions.ReplayAfterRotationRejected` | src/auth/services/auth.service.ts:137-150 | if the old refresh token does not match the rotated digest, presenting it again gets Forbidden (or the expiry error) and the store stays as rotated; the hypothesis is exact-match bcrypt, see Left out |
| `Sessions.RotationChangesTokenAcrossSeconds` | src/auth/services/auth.service.ts:140-145 | the rotated refresh token differs from the presented one whenever their expiry seconds differ |
| `Sessions.SameSecondRotationReplays` | src/auth/services/auth.service.ts:140-145 | a refresh in the same second as login re-signs the very same token, which is then accepted again |
| `Sessions.LogoutThenRefreshNotFound` | src/auth/services/auth.service.ts:132-135 | after logout, any verifying refresh token of that user gets NotFound and writes nothing |
| `Sessions.AccessTokenSurvivesLogout` | src/auth/services/jwt.strategy.service.ts:20-26 | an access token the guard accepted still passes after logout, for the same user |
| `Sessions.AliceScenario` | src/auth/services/auth.service.ts:127-156 | register alice, log in, rotate a second later: the new refresh token differs, and with a digest that matches only its exact token the old one is then Forbidden; a wrong password and an unknown username fail identically |

## Left out

- Bcrypt internals: the cost factor 10 and random salting (the salt is a
  parameter), and bcrypt reading only the first 72 bytes of its input. The
  model's digest matches exactly one plaintext.
- Sessions.ReplayAfterRotationRejected: its conclusion holds only for a digest
  that matches its exact token. Real bcrypt reads 72 bytes, which every
  refresh token of one user shares, so the program accepts the replay.
- Sessions.AliceScenario: its "the old token is Forbidden" step holds only for
  an exact-match digest, for the same 72-byte reason; the program accepts the
  old token and rotates again.
- JWT internals: HS256 signing (section 3.2 of RFC 7518) is abstracted into a
  key carried by the token. Tokens are values, not strings, and `iat` plays no
  part in verification.
- Bearer-header extraction (section 2.1 of RFC 6750) and all HTTP transport.
  `JwtAuthGuard` (src/auth/guards/jwt-auth.guard.ts) is not part of this
  model. A token the strategy rejects is given NestJS's default
  `Unauthorized('Unauthorized')`.
- Configuration: the secrets are parameters. Env lookup, Joi validation and
  the literal fallback secrets are not modelled. The JWT module takes
  `process.env.JWT_ACCESS_SECRET` while logout takes `config.jwtAccessSecret`;
  the two agree once env validation has passed, so the model uses one access
  secret.
- The database: the Prisma schema and the login DTO are not part of this
  model. Uniqueness of id, username and email, and "connected roles must
  exist", are taken as the tables' constraints. Every Prisma failure is one
  `PrismaError`. A lookup with an undefined `sub` is modelled as rejected by
  Prisma.
- Concurrency: the non-atomic read-compare-write of `refreshTokens` under
  concurrent calls. Each operation runs alone against a plain map.
- Controller.LoginEndpoint: request bodies are taken to carry every field as a
  string. Otherwise the program behaves differently. A missing `username`
  makes Prisma reject the `findUnique` lookup. A missing `password` makes
  `compareSync` throw a plain `Error`, which NestJS answers with a 500. So
  "every failure is Forbidden" holds only for bodies with both fields.
- Controller.AuthController.Register: the same assumption. A missing
  `password` makes `hashSync` throw before the username check, and a missing
  `username` or `email` makes Prisma reject the lookup or the create.
- Lifecycle.Profile: the `roles` of a `PublicProfile` are role names. The
  program selects `roles: true` and so returns the Role records themselves;
  the model keeps only their names.
- `Controller.RefreshResponse`: `new ForbiddenException(error)` also puts the
  caught error in the response body. The model keeps only the Forbidden kind.
- Exception messages are kept where the code sets them. The default messages
  of `ForbiddenException()` and `NotFoundException()` are not modelled.
- DTO validators (`IsEmail`, `IsString`, `MinLength`): nothing enforces them
  at runtime, see above. Swagger decorators, `console.log`, bootstrap, CORS and
  hot reload are left out too.
