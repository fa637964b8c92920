/**
 * The authentication handlers of the user controller: `sendAuthResponse` mints a token
 * pair and overwrites the user's single stored refresh token (the whole rotation
 * mechanism); `registerUser` and `loginUser` check the request and issue; `refreshToken`
 * is a terminal decision per request (no cookie, bad token, reuse, or rotate); and
 * `logoutUser` blanks the stored token of the user who holds the presented one.
 */
module Session {

  import opened Wrappers
  import opened Tokens
  import opened Models

  /**
   * The refresh endpoint rotates for the string `s` at second `now`: it verifies under
   * the refresh secret and is, byte for byte, the value stored on the record of the
   * user it names.
   */
  predicate Accepts(cfg: Config, users: seq<User>, s: string, now: int): (b: bool)
    ensures b ==> Verify(cfg.codec, s, RefreshSecret(cfg.env), now).Ok?
    ensures b ==> Subject(cfg.codec, s).Some? && Subject(cfg.codec, s).value < |users|
                  && users[Subject(cfg.codec, s).value].refreshToken == s
  {
    match Verify(cfg.codec, s, RefreshSecret(cfg.env), now)
    case Ok(claims) => claims.id < |users| && users[claims.id].refreshToken == s
    case Err(_) => false
  }

  /** The stored token `s` belongs to record `i`: it parses as a token with claims `{ id: i }`. */
  ghost predicate HeldBy(c: Codec, s: string, i: nat) {
    c.decode(s).Some? && c.decode(s).value.claims == Claims(i, None)
  }

  /**
   * The invariant every handler keeps: each non-empty stored refresh token is a refresh
   * token minted for the record that holds it.
   */
  ghost predicate Consistent(cfg: Config, users: seq<User>) {
    forall i :: 0 <= i < |users| && users[i].refreshToken != "" ==> HeldBy(cfg.codec, users[i].refreshToken, i)
  }

  /** No two records share an email, the invariant registration keeps. */
  predicate UniqueEmails(users: seq<User>) {
    forall i, j :: 0 <= i < j < |users| ==> users[i].email != users[j].email
  }

  /** The store after `user.refreshToken = token; user.save()` on record `id`. */
  function WithRefreshToken(users: seq<User>, id: nat, token: string): (r: seq<User>)
    requires id < |users|
    ensures |r| == |users| && r[id] == users[id].(refreshToken := token)
    ensures forall j :: 0 <= j < |users| && j != id ==> r[j] == users[j]
  {
    users[id := users[id].(refreshToken := token)]
  }

  /** What `sendAuthResponse(res, user, status)` answers for record `id` at second `now`. */
  function Issued(cfg: Config, users: seq<User>, id: nat, status: int, now: int): Response
    requires id < |users|
  {
    var refresh := RefreshTokenFor(cfg, id, now);
    Response(status,
             AuthBody(AccessTokenFor(cfg, id, users[id].email, now), Public(id, users[id].(refreshToken := refresh))),
             SetRefreshCookie(refresh, RefreshCookieMaxAge))
  }

  /** The store after `logoutUser` with cookie `s`: the first holder of `s`, if any, has it blanked. */
  function AfterLogout(users: seq<User>, s: string): (r: seq<User>)
    ensures |r| == |users|
    ensures forall j :: 0 <= j < |users| ==>
      r[j] == users[j] || (users[j].refreshToken == s && r[j] == users[j].(refreshToken := ""))
    ensures FindByRefreshToken(users, s).None? ==> r == users
    ensures s != "" && FindByRefreshToken(users, s).Some? ==> r[FindByRefreshToken(users, s).value].refreshToken != s
  {
    match FindByRefreshToken(users, s)
    case None => users
    case Some(i) => WithRefreshToken(users, i, "")
  }

  lemma IssueKeepsConsistent(cfg: Config, users: seq<User>, id: nat, now: int)
    requires Lawful(cfg.codec)
    requires id < |users| && Consistent(cfg, users)
    ensures Consistent(cfg, WithRefreshToken(users, id, RefreshTokenFor(cfg, id, now)))
  {
    var t := Jwt(Claims(id, None), RefreshSecret(cfg.env), now, now + RefreshLifetime);
    assert cfg.codec.decode(cfg.codec.encode(t)) == Some(t);
  }

  /** `sendAuthResponse`: a fresh pair; the refresh token overwrites the stored one and is set as cookie. */
  method SendAuthResponse(store: UserStore, cfg: Config, id: nat, status: int, now: int) returns (res: Response)
    requires id < |store.users|
    modifies store
    ensures store.users == WithRefreshToken(old(store.users), id, RefreshTokenFor(cfg, id, now))
    ensures res == Issued(cfg, old(store.users), id, status, now)
    ensures Lawful(cfg.codec) && Consistent(cfg, old(store.users)) ==> Consistent(cfg, store.users)
    ensures UniqueEmails(old(store.users)) ==> UniqueEmails(store.users)
  {
    var user := store.users[id];
    var accessToken := AccessTokenFor(cfg, id, user.email, now);
    var refreshToken := RefreshTokenFor(cfg, id, now);
    user := user.(refreshToken := refreshToken);
    store.users := store.users[id := user];
    res := Response(status, AuthBody(accessToken, Public(id, user)), SetRefreshCookie(refreshToken, RefreshCookieMaxAge));
    if Lawful(cfg.codec) && Consistent(cfg, old(store.users)) {
      IssueKeepsConsistent(cfg, old(store.users), id, now);
    }
  }

  /** `registerUser`: 400 unless both fields are given and the email is new; otherwise create and issue with 201. */
  method RegisterUser(store: UserStore, cfg: Config, name: Option<string>, email: Option<string>,
                      password: Option<string>, now: int) returns (res: Response)
    modifies store
    ensures !Truthy(email) || !Truthy(password) ==>
      res == Response(400, MessageBody("Email and password are required"), KeepCookie) && store.users == old(store.users)
    ensures Truthy(email) && Truthy(password) && FindByEmail(old(store.users), email.value).Some? ==>
      res == Response(400, MessageBody("User already exists"), KeepCookie) && store.users == old(store.users)
    ensures Truthy(email) && Truthy(password) && FindByEmail(old(store.users), email.value).None? ==>
      var id := |old(store.users)|;
      var created := old(store.users) + [NewUser(name, email.value, password.value)];
      && store.users == WithRefreshToken(created, id, RefreshTokenFor(cfg, id, now))
      && res == Issued(cfg, created, id, 201, now)
    ensures Lawful(cfg.codec) && Consistent(cfg, old(store.users)) ==> Consistent(cfg, store.users)
    ensures UniqueEmails(old(store.users)) ==> UniqueEmails(store.users)
  {
    if !Truthy(email) || !Truthy(password) {
      return Response(400, MessageBody("Email and password are required"), KeepCookie);
    }
    var existing := FindByEmail(store.users, email.value);
    if existing.Some? {
      return Response(400, MessageBody("User already exists"), KeepCookie);
    }
    ghost var before := store.users;
    store.users := store.users + [NewUser(name, email.value, password.value)];
    assert UniqueEmails(before) ==> UniqueEmails(store.users);
    assert Consistent(cfg, before) ==> Consistent(cfg, store.users);
    res := SendAuthResponse(store, cfg, |store.users| - 1, 201, now);
  }

  /** `loginUser`: 400 if a field is missing, 401 for an unknown email or a wrong password, else issue with 200. */
  method LoginUser(store: UserStore, cfg: Config, email: Option<string>, password: Option<string>, now: int)
    returns (res: Response)
    modifies store
    ensures !Truthy(email) || !Truthy(password) ==>
      res == Response(400, MessageBody("Email and password are required"), KeepCookie) && store.users == old(store.users)
    ensures Truthy(email) && Truthy(password) ==>
      var found := FindByEmail(old(store.users), email.value);
      && (found.None? || !ComparePassword(old(store.users)[found.value], password.value) ==>
            res == Response(401, MessageBody("Invalid email or password"), KeepCookie) && store.users == old(store.users))
      && (found.Some? && ComparePassword(old(store.users)[found.value], password.value) ==>
            store.users == WithRefreshToken(old(store.users), found.value, RefreshTokenFor(cfg, found.value, now))
            && res == Issued(cfg, old(store.users), found.value, 200, now))
    ensures Lawful(cfg.codec) && Consistent(cfg, old(store.users)) ==> Consistent(cfg, store.users)
    ensures UniqueEmails(old(store.users)) ==> UniqueEmails(store.users)
  {
    if !Truthy(email) || !Truthy(password) {
      return Response(400, MessageBody("Email and password are required"), KeepCookie);
    }
    var found := FindByEmail(store.users, email.value);
    if found.None? || !ComparePassword(store.users[found.value], password.value) {
      return Response(401, MessageBody("Invalid email or password"), KeepCookie);
    }
    res := SendAuthResponse(store, cfg, found.value, 200, now);
  }

  /**
   * `refreshToken`: 401 without a cookie; 403 and a cleared cookie when verification
   * fails, when the named user is missing, or when the stored token differs (reuse);
   * otherwise rotate. Only the rotating case changes the store.
   */
  method RefreshToken(store: UserStore, cfg: Config, cookie: Option<string>, now: int) returns (res: Response)
    modifies store
    ensures !Truthy(cookie) ==> res == Response(401, MessageBody("No refresh token provided"), KeepCookie)
    ensures Truthy(cookie) && Verify(cfg.codec, cookie.value, RefreshSecret(cfg.env), now).Err? ==>
      res == Response(403, MessageBody("Expired or invalid refresh token"), ClearRefreshCookie)
    ensures Truthy(cookie) && Verify(cfg.codec, cookie.value, RefreshSecret(cfg.env), now).Ok?
            && !Accepts(cfg, old(store.users), cookie.value, now) ==>
      res == Response(403, MessageBody("Invalid refresh token"), ClearRefreshCookie)
    ensures !(Truthy(cookie) && Accepts(cfg, old(store.users), cookie.value, now)) ==> store.users == old(store.users)
    ensures Truthy(cookie) && Accepts(cfg, old(store.users), cookie.value, now) ==>
      var id := Verify(cfg.codec, cookie.value, RefreshSecret(cfg.env), now).value.id;
      && store.users == WithRefreshToken(old(store.users), id, RefreshTokenFor(cfg, id, now))
      && res == Issued(cfg, old(store.users), id, 200, now)
    ensures res.status == 200 <==> Truthy(cookie) && Accepts(cfg, old(store.users), cookie.value, now)
    ensures Lawful(cfg.codec) && Consistent(cfg, old(store.users)) ==> Consistent(cfg, store.users)
    ensures UniqueEmails(old(store.users)) ==> UniqueEmails(store.users)
  {
    if !Truthy(cookie) {
      return Response(401, MessageBody("No refresh token provided"), KeepCookie);
    }
    var token := cookie.value;
    var decoded := Verify(cfg.codec, token, RefreshSecret(cfg.env), now);
    if decoded.Err? {
      return Response(403, MessageBody("Expired or invalid refresh token"), ClearRefreshCookie);
    }
    var id := decoded.value.id;
    if id >= |store.users| || store.users[id].refreshToken != token {
      return Response(403, MessageBody("Invalid refresh token"), ClearRefreshCookie);
    }
    res := SendAuthResponse(store, cfg, id, 200, now);
  }

  /** `logoutUser`: always 204; with a cookie, the first record holding it is blanked and the cookie cleared. */
  method LogoutUser(store: UserStore, cookie: Option<string>) returns (res: Response)
    modifies store
    ensures !Truthy(cookie) ==> res == Response(204, NoContent, KeepCookie) && store.users == old(store.users)
    ensures Truthy(cookie) ==>
      res == Response(204, NoContent, ClearRefreshCookie) && store.users == AfterLogout(old(store.users), cookie.value)
    ensures forall cfg :: Consistent(cfg, old(store.users)) ==> Consistent(cfg, store.users)
    ensures UniqueEmails(old(store.users)) ==> UniqueEmails(store.users)
  {
    if !Truthy(cookie) {
      return Response(204, NoContent, KeepCookie);
    }
    var found := FindByRefreshToken(store.users, cookie.value);
    if found.Some? {
      store.users := WithRefreshToken(store.users, found.value, "");
    }
    res := Response(204, NoContent, ClearRefreshCookie);
  }

  /** `getUserProfile`: the record without its password, or 404. */
  function GetUserProfile(users: seq<User>, id: UserId): (res: Response)
    ensures res.status == 200 <==> id < |users|
    ensures id >= |users| ==> res == Response(404, MessageBody("User not found"), KeepCookie)
    ensures id < |users| ==> res.body == ProfileBody(WithoutPassword(users[id])) && res.body.profile.password == ""
  {
    if id < |users| then Response(200, ProfileBody(WithoutPassword(users[id])), KeepCookie)
    else Response(404, MessageBody("User not found"), KeepCookie)
  }

  /**
   * Rotation: once a refresh with `s` has rotated, presenting `s` again is refused at any
   * later second, provided `s` was not minted in that same clock second.
   */
  lemma RotationRejectsReplay(cfg: Config, users: seq<User>, s: string, now: int, later: int)
    requires Lawful(cfg.codec)
    requires Accepts(cfg, users, s, now)
    requires cfg.codec.decode(s).Some? && cfg.codec.decode(s).value.iat != now
    ensures var id := cfg.codec.decode(s).value.claims.id;
      id < |users| && !Accepts(cfg, WithRefreshToken(users, id, RefreshTokenFor(cfg, id, now)), s, later)
  {
    var old_ := cfg.codec.decode(s).value;
    var id := old_.claims.id;
    var fresh_ := Jwt(Claims(id, None), RefreshSecret(cfg.env), now, now + RefreshLifetime);
    assert cfg.codec.decode(cfg.codec.encode(fresh_)) == Some(fresh_);
    assert fresh_ != old_;
    assert RefreshTokenFor(cfg, id, now) != s;
  }

  /** After a rotation the newly minted token is the one accepted, for its whole 7 days. */
  lemma RotatedTokenAccepted(cfg: Config, users: seq<User>, id: nat, now: int, later: int)
    requires Lawful(cfg.codec)
    requires id < |users|
    requires later < now + RefreshLifetime
    ensures Accepts(cfg, WithRefreshToken(users, id, RefreshTokenFor(cfg, id, now)), RefreshTokenFor(cfg, id, now), later)
  {
    RefreshTokenLifetime(cfg.codec, RefreshSecret(cfg.env), id, now, later);
  }

  /**
   * Tokens carry whole seconds, so a refresh in the same second as the previous issue
   * mints the identical string: the store is unchanged and the presented token stays
   * accepted.
   */
  lemma SameSecondRotationKeepsToken(cfg: Config, users: seq<User>, id: nat, now: int)
    requires Lawful(cfg.codec)
    requires id < |users| && users[id].refreshToken == RefreshTokenFor(cfg, id, now)
    ensures Accepts(cfg, users, users[id].refreshToken, now)
    ensures WithRefreshToken(users, id, RefreshTokenFor(cfg, id, now)) == users
  {
    RefreshTokenLifetime(cfg.codec, RefreshSecret(cfg.env), id, now, now);
  }

  /** A user has at most one accepted refresh token at any time: the one stored on the record. */
  lemma OneAcceptedTokenPerUser(cfg: Config, users: seq<User>, s1: string, s2: string, now1: int, now2: int)
    requires Accepts(cfg, users, s1, now1) && Accepts(cfg, users, s2, now2)
    requires Subject(cfg.codec, s1) == Subject(cfg.codec, s2)
    ensures s1 == s2
  {
  }

  /** After logout with cookie `s`, the refresh endpoint refuses `s` at every second. */
  lemma LogoutRevokes(cfg: Config, users: seq<User>, s: string, later: int)
    requires Consistent(cfg, users)
    requires s != ""
    ensures !Accepts(cfg, AfterLogout(users, s), s, later)
  {
    match FindByRefreshToken(users, s) {
      case None =>
      case Some(i) =>
        assert ((u: User) => u.refreshToken == s)(users[i]);
        assert HeldBy(cfg.codec, s, i);
    }
  }

  /** An access token is never accepted by the refresh endpoint, even when both secrets coincide. */
  lemma AccessTokenNeverRefreshes(cfg: Config, users: seq<User>, id: nat, email: string, iat: int, now: int)
    requires Lawful(cfg.codec)
    requires Consistent(cfg, users)
    ensures !Accepts(cfg, users, AccessTokenFor(cfg, id, email, iat), now)
  {
    var t := Jwt(Claims(id, Some(email)), AccessSecret(cfg.env), iat, iat + AccessLifetime);
    var s := cfg.codec.encode(t);
    assert cfg.codec.decode(s) == Some(t);
    assert !HeldBy(cfg.codec, s, id);
  }
}
