/**
 * The `verifyToken` middleware as a function from the `Authorization` header and the
 * store to either a 401 answer or the user attached to the request (after which `next`
 * runs once). The header must use the Bearer scheme (RFC 6750, section 2.1); the token
 * is the second space-separated field, verified under the access secret only.
 */
module Gate {

  import opened Wrappers
  import opened Strings
  import opened Tokens
  import opened Models

  /** 401 with its message, or `req.user = user; next()`. */
  datatype GateResult = Unauthorized(message: string) | Authorized(id: UserId, user: User)

  /**
   * `authHeader.split(' ')[1]`, which exists because the header holds the space of
   * `"Bearer "`: the characters after that space up to the next space or the end.
   */
  function BearerToken(header: string): (t: string)
    requires StartsWith(header, "Bearer ")
    ensures ' ' !in t
    ensures 7 + |t| <= |header| && header[7..7 + |t|] == t
    ensures 7 + |t| == |header| || header[7 + |t|] == ' '
  {
    BearerSchemeSpace(header);
    SplitAtFirstSpace(header, 6);
    var rest := header[7..];
    var t := Split(rest)[0];
    assert rest[..|t|] == header[7..7 + |t|];
    t
  }

  /** The only space of the `"Bearer "` prefix is its last character. */
  lemma BearerSchemeSpace(header: string)
    requires StartsWith(header, "Bearer ")
    ensures header[6] == ' ' && ' ' !in header[..6]
  {
    var p := header[..7];
    assert p == "Bearer ";
    assert header[6] == p[6];
    forall k | 0 <= k < 6 ensures header[..6][k] != ' ' {
      assert header[..6][k] == p[k];
    }
  }

  /** The header is present and uses the Bearer scheme. */
  predicate HasBearer(authorization: Option<string>) {
    Truthy(authorization) && StartsWith(authorization.value, "Bearer ")
  }

  /**
   * `verifyToken` at clock second `now`: a three-way decision on a Bearer header. A token
   * that fails verification gives `Invalid token`; a verified id without a record gives
   * `User not found`; a verified id with a record attaches that record without its password.
   */
  function VerifyToken(cfg: Config, users: seq<User>, authorization: Option<string>, now: int): (r: GateResult)
    ensures r == Unauthorized("No token provided or invalid format") <==> !HasBearer(authorization)
    ensures r == Unauthorized("Invalid token") <==>
      HasBearer(authorization) && Verify(cfg.codec, BearerToken(authorization.value), AccessSecret(cfg.env), now).Err?
    ensures r == Unauthorized("User not found") <==>
      && HasBearer(authorization)
      && Verify(cfg.codec, BearerToken(authorization.value), AccessSecret(cfg.env), now).Ok?
      && Verify(cfg.codec, BearerToken(authorization.value), AccessSecret(cfg.env), now).value.id >= |users|
    ensures r.Authorized? <==>
      && HasBearer(authorization)
      && Verify(cfg.codec, BearerToken(authorization.value), AccessSecret(cfg.env), now).Ok?
      && Verify(cfg.codec, BearerToken(authorization.value), AccessSecret(cfg.env), now).value.id < |users|
    ensures r.Authorized? ==>
      && r.id == Verify(cfg.codec, BearerToken(authorization.value), AccessSecret(cfg.env), now).value.id
      && r.user == WithoutPassword(users[r.id]) && r.user.password == ""
  {
    if !HasBearer(authorization) then
      Unauthorized("No token provided or invalid format")
    else
      var token := BearerToken(authorization.value);
      match Verify(cfg.codec, token, AccessSecret(cfg.env), now)
      case Err(_) => Unauthorized("Invalid token")
      case Ok(claims) =>
        if claims.id < |users| then Authorized(claims.id, WithoutPassword(users[claims.id]))
        else Unauthorized("User not found")
  }

  /** The token of `"Bearer " + t` is `t` when `t` holds no space. */
  lemma BearerTokenOf(t: string)
    requires ' ' !in t
    ensures StartsWith("Bearer " + t, "Bearer ")
    ensures BearerToken("Bearer " + t) == t
  {
    assert ("Bearer " + t)[..7] == "Bearer ";
    assert Join(["Bearer", t]) == "Bearer " + t;
    SplitJoin(["Bearer", t]);
  }

  /** A live access token for an existing user passes and attaches that user. */
  lemma GateAdmitsLiveAccessToken(cfg: Config, users: seq<User>, id: nat, email: string, iat: int, now: int)
    requires Lawful(cfg.codec)
    requires id < |users| && now < iat + AccessLifetime
    ensures VerifyToken(cfg, users, Some("Bearer " + AccessTokenFor(cfg, id, email, iat)), now)
         == Authorized(id, WithoutPassword(users[id]))
  {
    var t := AccessTokenFor(cfg, id, email, iat);
    BearerTokenOf(t);
    AccessTokenLifetime(cfg.codec, AccessSecret(cfg.env), id, email, iat, now);
  }

  /** From its `exp` second on, an access token is refused with `Invalid token`. */
  lemma GateRejectsExpiredAccessToken(cfg: Config, users: seq<User>, id: nat, email: string, iat: int, now: int)
    requires Lawful(cfg.codec)
    requires now >= iat + AccessLifetime
    ensures VerifyToken(cfg, users, Some("Bearer " + AccessTokenFor(cfg, id, email, iat)), now)
         == Unauthorized("Invalid token")
  {
    var t := AccessTokenFor(cfg, id, email, iat);
    BearerTokenOf(t);
    AccessTokenLifetime(cfg.codec, AccessSecret(cfg.env), id, email, iat, now);
  }

  /** A live access token whose user record is gone is refused with `User not found`. */
  lemma GateRejectsUnknownUser(cfg: Config, users: seq<User>, id: nat, email: string, iat: int, now: int)
    requires Lawful(cfg.codec)
    requires id >= |users| && now < iat + AccessLifetime
    ensures VerifyToken(cfg, users, Some("Bearer " + AccessTokenFor(cfg, id, email, iat)), now)
         == Unauthorized("User not found")
  {
    var t := AccessTokenFor(cfg, id, email, iat);
    BearerTokenOf(t);
    AccessTokenLifetime(cfg.codec, AccessSecret(cfg.env), id, email, iat, now);
  }

  /** When the two secrets differ, a refresh token never opens the gate, at any second. */
  lemma GateRejectsRefreshToken(cfg: Config, users: seq<User>, id: nat, iat: int, now: int)
    requires Lawful(cfg.codec)
    requires AccessSecret(cfg.env) != RefreshSecret(cfg.env)
    ensures VerifyToken(cfg, users, Some("Bearer " + RefreshTokenFor(cfg, id, iat)), now)
         == Unauthorized("Invalid token")
  {
    var jwt := Jwt(Claims(id, None), RefreshSecret(cfg.env), iat, iat + RefreshLifetime);
    BearerTokenOf(cfg.codec.encode(jwt));
    WrongSecretRejected(cfg.codec, jwt, AccessSecret(cfg.env), now);
  }
}
