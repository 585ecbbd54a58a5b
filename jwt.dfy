/** JSON Web Tokens (RFC 7519) as the jsonwebtoken library signs and
    verifies them, with HMAC signing kept abstract: a token records the key
    it was signed with, and verification compares keys. */
module Jwt {
  import opened Errors

  type UserId = string

  /** The payload the service signs: `sub` (section 4.1.2 of RFC 7519),
      username and email. `sub` is optional because a verified payload
      need not carry it. */
  datatype Claims = Claims(sub: Option<UserId>, username: string, email: string)

  /** A string presented as a token: either a signed JWT with its issue and
      expiry times in seconds (`iat`, `exp`, sections 4.1.6 and 4.1.4 of
      RFC 7519), or something that does not parse as one. */
  datatype Token =
    | Signed(claims: Claims, key: string, iat: int, exp: int)
    | Garbage(text: string)

  /** The outcome of jwt.verify: the payload, TokenExpiredError, or
      JsonWebTokenError (bad structure or bad signature). */
  datatype Verified = Valid(claims: Claims) | Expired | Invalid

  /** expiresIn '15m', the module-wide default for access tokens. */
  const AccessTtl: int := 15 * 60
  /** expiresIn '7d', passed explicitly for refresh tokens. */
  const RefreshTtl: int := 7 * 24 * 60 * 60

  /** jwt.sign(claims, {secret: key, expiresIn: ttl}) at time `now`. */
  function Sign(claims: Claims, key: string, now: int, ttl: int): (t: Token)
    ensures t.Signed? && t.claims == claims && t.key == key
    ensures t.iat == now && t.exp == now + ttl
  {
    Signed(claims, key, now, now + ttl)
  }

  /** jwt.verify(token, {secret}) at time `now`: the signature is checked
      first, then expiry; a token is expired once `now` reaches `exp`. */
  function Verify(token: Token, secret: string, now: int): (v: Verified)
    ensures v.Valid? <==> token.Signed? && token.key == secret && now < token.exp
    ensures v.Expired? <==> token.Signed? && token.key == secret && token.exp <= now
    ensures v.Valid? ==> v.claims == token.claims
  {
    match token
    case Garbage(_) => Invalid
    case Signed(claims, key, _, exp) =>
      if key != secret then Invalid
      else if now >= exp then Expired
      else Valid(claims)
  }

  /** The exception jwt.verify throws for a rejected token. */
  function VerifyError(v: Verified): (e: Error)
    requires !v.Valid?
    ensures !IsHttpException(e)
    ensures e.TokenExpiredError? <==> v.Expired?
    ensures e.JsonWebTokenError? <==> v.Invalid?
  {
    if v.Expired? then TokenExpiredError else JsonWebTokenError
  }

  /** `token` carries `claims`, is accepted under `key` before `now + ttl`,
      is expired under `key` from then on, and is rejected under every
      other key. */
  ghost predicate IssuedFor(token: Token, claims: Claims, key: string, now: int, ttl: int)
  {
    forall k, t {:trigger Verify(token, k, t)} ::
      Verify(token, k, t) == if k != key then Invalid
                             else if t < now + ttl then Valid(claims)
                             else Expired
  }

  /** Whatever is signed verifies with its own key until it expires. */
  lemma SignIsIssued(claims: Claims, key: string, now: int, ttl: int)
    ensures IssuedFor(Sign(claims, key, now, ttl), claims, key, now, ttl)
  {
  }

  /** A token signed with one secret is rejected under another, whatever
      the time: an access token is no refresh token and vice versa. */
  lemma CrossSecretRejected(token: Token, claims: Claims, key: string, other: string,
                            now: int, ttl: int, t: int)
    requires IssuedFor(token, claims, key, now, ttl)
    requires other != key
    ensures Verify(token, other, t) == Invalid
  {
  }
}
