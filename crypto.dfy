/**
 * The password hasher (bcrypt) and the token signer (JSON Web Tokens, RFC
 * 7519) as the application sees them: functions it calls but whose insides
 * are not part of this model. Each is a value holding its operations; what
 * the application relies on is a soundness predicate over that value.
 */
module Crypto {
  import opened Wrappers

  /** A user's id: the auto-increment key of the `users` table. */
  type UserId = nat

  /** `bcrypt.hash(password, salt)` and `bcrypt.compare(password, hash)`. */
  datatype Hasher = Hasher(hash: (string, string) -> string, compare: (string, string) -> bool)

  /** The one fact the controller relies on: a password matches its own hash,
      whatever salt was drawn. */
  ghost predicate HasherSound(h: Hasher)
  {
    forall password, salt :: h.compare(password, h.hash(password, salt))
  }

  /** `expiresIn: '1h'`, in seconds. */
  const TokenLifetime: int := 3600

  /** The claims of a signed token: the `id` claim set by login, `iat` and
      `exp` (NumericDate seconds, section 4.1.4 and 4.1.6 of RFC 7519). */
  datatype Token = Token(id: UserId, issuedAt: int, expiresAt: int)

  /** The claims `jwt.sign({ id }, secret, { expiresIn: '1h' })` signs at `now`. */
  function IssueToken(id: UserId, now: int): (t: Token)
    ensures t.id == id && t.issuedAt == now
    ensures t.expiresAt - t.issuedAt == TokenLifetime
  {
    Token(id, now, now + TokenLifetime)
  }

  /** `jwt.sign(claims, secret)` giving the compact serialization, and
      `jwt.verify(token, secret)` at clock time `now` giving the `id` claim,
      or nothing when it throws (bad signature, malformed, expired). */
  datatype Jwt = Jwt(sign: (Token, string) -> string, verify: (string, string, int) -> Option<UserId>)

  /** What the library guarantees: a token signed with a key verifies under
      that key strictly before its `exp` and not from then on; the compact
      serialization is non-empty and has no space in it. */
  ghost predicate JwtSound(j: Jwt)
  {
    && (forall t, key, now :: j.verify(j.sign(t, key), key, now)
          == (if now < t.expiresAt then Some(t.id) else None))
    && (forall t, key :: j.sign(t, key) != "" && ' ' !in j.sign(t, key))
  }
}
