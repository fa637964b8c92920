/**
 * The token helpers of the user controller: access and refresh JSON Web Tokens signed
 * under two secrets, with a 15-minute and a 7-day lifetime carried in the `exp` claim
 * (RFC 7519, section 4.1.4). The signing library is abstract: a `Codec` serialises a
 * signed token to its compact string and parses it back, and verification checks
 * which secret signed it and whether it has expired.
 */
module Tokens {

  import opened Wrappers

  /** A user's identity in the store. */
  type UserId = nat

  /** The payload: `{ id, email }` for an access token, `{ id }` for a refresh token. */
  datatype Claims = Claims(id: UserId, email: Option<string>)

  /**
   * A signed token: its claims, the secret it was signed with, and its `iat` and `exp`
   * claims in whole seconds.
   */
  datatype Jwt = Jwt(claims: Claims, key: string, iat: int, exp: int)

  /** The compact serialisation of signed tokens and its parse. */
  datatype Codec = Codec(encode: Jwt -> string, decode: string -> Option<Jwt>)

  /**
   * What the core relies on from the library: a serialised token parses back to the
   * same token (so serialisation is injective), and it is a non-empty string without
   * spaces (compact tokens are base64url pieces joined by dots).
   */
  ghost predicate Lawful(c: Codec) {
    && (forall t :: c.decode(c.encode(t)) == Some(t))
    && (forall t :: c.encode(t) != "" && ' ' !in c.encode(t))
  }

  /** `expiresIn: '15m'`, in seconds. */
  const AccessLifetime: int := 15 * 60
  /** `expiresIn: '7d'`, in seconds. */
  const RefreshLifetime: int := 7 * 24 * 60 * 60
  /** The refresh cookie's `maxAge`, in milliseconds. */
  const RefreshCookieMaxAge: int := 7 * 24 * 60 * 60 * 1000

  const DefaultAccessSecret: string := "dev-secret"
  const DefaultRefreshSecret: string := "dev-refresh-secret"

  /** The two environment variables the secrets come from. */
  datatype Env = Env(jwtSecret: Option<string>, jwtRefreshSecret: Option<string>)

  /** `value || fallback`: an unset or empty variable falls back to the default. */
  function OrDefault(v: Option<string>, fallback: string): (s: string)
    ensures Truthy(v) ==> s == v.value
    ensures !Truthy(v) ==> s == fallback
  {
    if Truthy(v) then v.value else fallback
  }

  /** `process.env.JWT_SECRET || 'dev-secret'`. */
  function AccessSecret(env: Env): (s: string)
    ensures s != ""
  {
    OrDefault(env.jwtSecret, DefaultAccessSecret)
  }

  /** `process.env.JWT_REFRESH_SECRET || 'dev-refresh-secret'`. */
  function RefreshSecret(env: Env): (s: string)
    ensures s != ""
  {
    OrDefault(env.jwtRefreshSecret, DefaultRefreshSecret)
  }

  /** `signAccessToken`: `{ id, email }`, signed now, expiring 15 minutes later. */
  function SignAccess(c: Codec, key: string, id: UserId, email: string, now: int): (s: string)
    ensures Lawful(c) ==> s != "" && ' ' !in s && Subject(c, s) == Some(id)
  {
    c.encode(Jwt(Claims(id, Some(email)), key, now, now + AccessLifetime))
  }

  /** `signRefreshToken`: `{ id }`, signed now, expiring 7 days later. */
  function SignRefresh(c: Codec, key: string, id: UserId, now: int): (s: string)
    ensures Lawful(c) ==> s != "" && ' ' !in s && Subject(c, s) == Some(id)
  {
    c.encode(Jwt(Claims(id, None), key, now, now + RefreshLifetime))
  }

  /** What the server is configured with: the token library and the environment. */
  datatype Config = Config(codec: Codec, env: Env)

  /** The access token `sendAuthResponse` mints for user `id` at second `now`. */
  function AccessTokenFor(cfg: Config, id: UserId, email: string, now: int): string {
    SignAccess(cfg.codec, AccessSecret(cfg.env), id, email, now)
  }

  /** The refresh token `sendAuthResponse` mints for user `id` at second `now`. */
  function RefreshTokenFor(cfg: Config, id: UserId, now: int): string {
    SignRefresh(cfg.codec, RefreshSecret(cfg.env), id, now)
  }

  /** Why `jwt.verify` throws. */
  datatype VerifyError = Malformed | InvalidSignature | Expired

  /**
   * `jwt.verify(s, key)` at clock second `now`: the string must parse, must have been
   * signed with `key`, and is expired from its `exp` second on.
   */
  function Verify(c: Codec, s: string, key: string, now: int): (r: Result<Claims, VerifyError>)
    ensures r == Err(Malformed) <==> c.decode(s).None?
    ensures r == Err(InvalidSignature) <==> c.decode(s).Some? && c.decode(s).value.key != key
    ensures r == Err(Expired) <==> c.decode(s).Some? && c.decode(s).value.key == key && now >= c.decode(s).value.exp
    ensures r.Ok? <==> c.decode(s).Some? && c.decode(s).value.key == key && now < c.decode(s).value.exp
    ensures r.Ok? ==> r.value == c.decode(s).value.claims
  {
    match c.decode(s)
    case None => Err(Malformed)
    case Some(t) =>
      if t.key != key then Err(InvalidSignature)
      else if now >= t.exp then Err(Expired)
      else Ok(t.claims)
  }

  /** The id a string names if it parses as a token, whoever signed it. */
  function Subject(c: Codec, s: string): Option<UserId> {
    match c.decode(s)
    case None => None
    case Some(t) => Some(t.claims.id)
  }

  /** An access token verifies under its own secret exactly during its 15 minutes, giving back its claims. */
  lemma AccessTokenLifetime(c: Codec, key: string, id: UserId, email: string, iat: int, now: int)
    requires Lawful(c)
    ensures Verify(c, SignAccess(c, key, id, email, iat), key, now)
         == if now < iat + AccessLifetime then Ok(Claims(id, Some(email))) else Err(Expired)
  {
    var t := Jwt(Claims(id, Some(email)), key, iat, iat + AccessLifetime);
    assert c.decode(c.encode(t)) == Some(t);
  }

  /** A refresh token verifies under its own secret exactly during its 7 days, giving back its claims. */
  lemma RefreshTokenLifetime(c: Codec, key: string, id: UserId, iat: int, now: int)
    requires Lawful(c)
    ensures Verify(c, SignRefresh(c, key, id, iat), key, now)
         == if now < iat + RefreshLifetime then Ok(Claims(id, None)) else Err(Expired)
  {
    var t := Jwt(Claims(id, None), key, iat, iat + RefreshLifetime);
    assert c.decode(c.encode(t)) == Some(t);
  }

  /** A token signed under one secret never verifies under a different one. */
  lemma WrongSecretRejected(c: Codec, t: Jwt, key: string, now: int)
    requires Lawful(c)
    requires t.key != key
    ensures Verify(c, c.encode(t), key, now) == Err(InvalidSignature)
  {
    assert c.decode(c.encode(t)) == Some(t);
  }

  /** The cookie lives exactly as long as the refresh token: 604800000 ms is 7 days. */
  lemma CookieMatchesRefreshLifetime()
    ensures RefreshCookieMaxAge == RefreshLifetime * 1000 == 604800000
    ensures AccessLifetime == 900 && RefreshLifetime == 604800
  {
  }

  /** Without configuration, the two secrets differ. */
  lemma DefaultSecretsDiffer(env: Env)
    requires !Truthy(env.jwtSecret) && !Truthy(env.jwtRefreshSecret)
    ensures AccessSecret(env) != RefreshSecret(env)
  {
  }
}
