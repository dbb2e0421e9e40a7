/** The authentication middlewares (src/middlewares/auth.ts): the session
    decision `tokenValidator` takes on every request, the `IsAuthorized` and
    `IsAdmin` guards, and the per-caller `RateLimit` counter. */
module Session {
  import opened Wrappers
  import opened Text
  import opened Tokens
  import opened UserModel
  import opened Http
  import opened Helpers
  import Config

  // ---------------------------------------------------------------------------
  // tokenValidator

  /** `!!value` for a parsed cookie: an absent cookie and the empty string are falsy. */
  predicate Truthy(value: Option<TokenText>) {
    value.Some? && value.value != Garbage("")
  }

  /** The value `res.cookie` writes when given `undefined`. */
  const UNDEFINED_TEXT := Garbage("undefined")

  /** What the middleware leaves behind: `req.user` and the cookies written. */
  datatype Outcome = Outcome(user: Option<Identity>, cookies: seq<CookieOp>)

  /** Some operation in `ops` writes cookie `name`. */
  predicate Writes(ops: seq<CookieOp>, name: string) {
    exists i :: 0 <= i < |ops| && ops[i].Write? && ops[i].name == name
  }

  /** Some operation in `ops` clears cookie `name`. */
  predicate Erases(ops: seq<CookieOp>, name: string) {
    exists i :: 0 <= i < |ops| && ops[i].Erase? && ops[i].name == name
  }

  /** The user a refresh token names, when it still exists. */
  function Subject(d: Decoded, users: map<string, User>): (u: Option<User>)
    ensures u.Some? <==> d.payload.id in users
    ensures u.Some? ==> u.value == users[d.payload.id]
  {
    if d.payload.id in users then Some(users[d.payload.id]) else None
  }

  /** The decision `tokenValidator` takes for a request carrying the cookie
      values `access` and `refresh`, with `prior` the identity already on the
      request, the stored users `users` and the clock at `now` seconds. */
  function Decide(access: Option<TokenText>, refresh: Option<TokenText>, users: map<string, User>,
                  env: Config.Env, now: int, prior: Option<Identity>): (o: Outcome)
    // Not logged in: nothing happens.
    ensures !Truthy(access) && !Truthy(refresh) ==> o == Outcome(prior, [])
    ensures |o.cookies| <= 2
    ensures var da, dr := ValidateToken(access, env.accessSecret, now), ValidateToken(refresh, env.refreshSecret, now);
      // Both valid: the access claims are the identity; only the refresh
      // cookie may be rewritten, when it expires no later than the access
      // token and its subject still exists.
      && (da.Some? && dr.Some? ==> o.user == Some(TokenUser(da.value)))
      && (Writes(o.cookies, Config.REFRESH_TOKEN_COOKIE_NAME) <==>
            da.Some? && dr.Some? && dr.value.exp <= da.value.exp && dr.value.payload.id in users)
      // ... and then with a fresh one-day refresh token for that subject.
      && (da.Some? && dr.Some? && dr.value.exp <= da.value.exp && dr.value.payload.id in users ==>
            o.cookies == [Write(Config.REFRESH_TOKEN_COOKIE_NAME, GenerateRefreshToken(users[dr.value.payload.id], env, now),
                                Config.RefreshCookieOptions(env))])
      // Refresh valid, access not: the subject (or nothing) is the identity,
      // and the access cookie is written whether or not the subject exists.
      && (da.None? && dr.Some? ==> o.user == (if dr.value.payload.id in users then Some(DocumentUser(users[dr.value.payload.id])) else None))
      && (Writes(o.cookies, Config.ACCESS_TOKEN_COOKIE_NAME) <==> da.None? && dr.Some?)
      && (da.None? && dr.Some? && dr.value.payload.id !in users ==>
            o.cookies == [Write(Config.ACCESS_TOKEN_COOKIE_NAME, UNDEFINED_TEXT, Config.AccessCookieOptions(env))])
      // Refresh invalid or absent, some cookie present: both cookies are
      // cleared and a valid access token still identifies the request.
      && (Erases(o.cookies, Config.ACCESS_TOKEN_COOKIE_NAME) <==> (Truthy(access) || Truthy(refresh)) && dr.None?)
      && (Erases(o.cookies, Config.REFRESH_TOKEN_COOKIE_NAME) <==> (Truthy(access) || Truthy(refresh)) && dr.None?)
      && ((Truthy(access) || Truthy(refresh)) && dr.None? ==> o.cookies == ClearCookiesOps(env))
      && (dr.None? ==> o.user == if da.Some? then Some(TokenUser(da.value)) else prior)
  {
    if !Truthy(access) && !Truthy(refresh) then Outcome(prior, [])
    else
      var da := ValidateToken(access, env.accessSecret, now);
      var dr := ValidateToken(refresh, env.refreshSecret, now);
      if da.Some? && dr.Some? then
        var user := Subject(dr.value, users);
        if dr.value.exp <= da.value.exp && user.Some? then
          var op := Write(Config.REFRESH_TOKEN_COOKIE_NAME, GenerateRefreshToken(user.value, env, now), Config.RefreshCookieOptions(env));
          assert [op][0] == op;
          Outcome(Some(TokenUser(da.value)), [op])
        else
          Outcome(Some(TokenUser(da.value)), [])
      else if dr.Some? then
        var user := Subject(dr.value, users);
        var token := if user.Some? then GenerateAccessToken(user.value, env, now) else UNDEFINED_TEXT;
        var op := Write(Config.ACCESS_TOKEN_COOKIE_NAME, token, Config.AccessCookieOptions(env));
        assert [op][0] == op;
        Outcome(if user.Some? then Some(DocumentUser(user.value)) else None, [op])
      else
        var ops := ClearCookiesOps(env);
        assert ops[0].Erase? && ops[1].Erase?;
        Outcome(if da.Some? then Some(TokenUser(da.value)) else prior, ops)
  }

  /** `tokenValidator(req, res, next)` on the exchange `x`. */
  method TokenValidator(x: Exchange, users: map<string, User>, env: Config.Env, now: int)
    modifies x
    ensures var o := Decide(x.CookieValue(Config.ACCESS_TOKEN_COOKIE_NAME), x.CookieValue(Config.REFRESH_TOKEN_COOKIE_NAME),
                            users, env, now, old(x.user));
      x.user == o.user && x.written == old(x.written) + o.cookies
    ensures x.nextCalls == old(x.nextCalls) + 1
  {
    var accessToken := x.CookieValue(Config.ACCESS_TOKEN_COOKIE_NAME);
    var refreshToken := x.CookieValue(Config.REFRESH_TOKEN_COOKIE_NAME);

    if !Truthy(accessToken) && !Truthy(refreshToken) {
      x.Next();
      return;
    }

    var decodedAccessToken := ValidateToken(accessToken, env.accessSecret, now);
    var decodedRefreshToken := ValidateToken(refreshToken, env.refreshSecret, now);

    if decodedAccessToken.Some? && decodedRefreshToken.Some? {
      x.SetUser(Some(TokenUser(decodedAccessToken.value)));
      var user := Subject(decodedRefreshToken.value, users);
      if decodedRefreshToken.value.exp <= decodedAccessToken.value.exp && user.Some? {
        var newRefreshToken := GenerateRefreshToken(user.value, env, now);
        x.Cookie(Config.REFRESH_TOKEN_COOKIE_NAME, newRefreshToken, Config.RefreshCookieOptions(env));
        x.Next();
        return;
      }
      x.Next();
      return;
    }

    if decodedRefreshToken.Some? {
      var user := Subject(decodedRefreshToken.value, users);
      x.SetUser(if user.Some? then Some(DocumentUser(user.value)) else None);
      var newAccessToken := if user.Some? then GenerateAccessToken(user.value, env, now) else UNDEFINED_TEXT;
      x.Cookie(Config.ACCESS_TOKEN_COOKIE_NAME, newAccessToken, Config.AccessCookieOptions(env));
      x.Next();
      return;
    }

    if decodedAccessToken.Some? {
      x.SetUser(Some(TokenUser(decodedAccessToken.value)));
    }

    ClearCookiesResponse(x, env);
    x.Next();
  }

  /** The cookie values a browser sends from its jar. */
  function Sent(jar: map<string, TokenText>, name: string): (v: Option<TokenText>)
    ensures v.Some? <==> name in jar
    ensures v.Some? ==> v.value == jar[name]
  {
    if name in jar then Some(jar[name]) else None
  }

  /** The decision for a browser presenting `jar`. */
  function DecideFor(jar: map<string, TokenText>, users: map<string, User>, env: Config.Env, now: int, prior: Option<Identity>): Outcome {
    Decide(Sent(jar, Config.ACCESS_TOKEN_COOKIE_NAME), Sent(jar, Config.REFRESH_TOKEN_COOKIE_NAME), users, env, now, prior)
  }

  /** The access claims a user's token carries when minted at `issued`. */
  function AccessDecoded(u: User, issued: int): Decoded {
    Decoded(AccessClaims(u.email, u.id, u.role), issued, issued + ACCESS_EXPIRES_IN)
  }

  /** Right after a login response, and for the hour its access token lives,
      the browser is identified by that access token and no cookie is
      rewritten: the refresh token outlives the access token. */
  lemma LoginThenAuthenticated(jar: map<string, TokenText>, u: User, users: map<string, User>,
                               env: Config.Env, issued: int, now: int, prior: Option<Identity>)
    requires issued <= now < issued + ACCESS_EXPIRES_IN
    ensures DecideFor(ApplyCookies(jar, CookieResponseOps(u, env, issued)), users, env, now, prior)
      == Outcome(Some(TokenUser(AccessDecoded(u, issued))), [])
  {
    CookieResponseStoresBothTokens(jar, u, env, issued);
    var jar' := ApplyCookies(jar, CookieResponseOps(u, env, issued));
    assert Sent(jar', Config.ACCESS_TOKEN_COOKIE_NAME) == Some(GenerateAccessToken(u, env, issued));
    assert Sent(jar', Config.REFRESH_TOKEN_COOKIE_NAME) == Some(GenerateRefreshToken(u, env, issued));
    var o := DecideFor(jar', users, env, now, prior);
    assert !Writes(o.cookies, Config.REFRESH_TOKEN_COOKIE_NAME);
    assert !Writes(o.cookies, Config.ACCESS_TOKEN_COOKIE_NAME);
    assert !Erases(o.cookies, Config.ACCESS_TOKEN_COOKIE_NAME);
  }

  /** A browser whose access token is gone or stale but whose refresh token
      is valid for a stored user receives a fresh access token, and on its
      next request within the hour it is identified by that token. */
  lemma TransparentRefresh(jar: map<string, TokenText>, users: map<string, User>, env: Config.Env,
                           now: int, later: int, prior: Option<Identity>)
    requires ValidateToken(Sent(jar, Config.ACCESS_TOKEN_COOKIE_NAME), env.accessSecret, now).None?
    requires ValidateToken(Sent(jar, Config.REFRESH_TOKEN_COOKIE_NAME), env.refreshSecret, now).Some?
    requires ValidateToken(Sent(jar, Config.REFRESH_TOKEN_COOKIE_NAME), env.refreshSecret, now).value.payload.id in users
    requires now <= later < now + ACCESS_EXPIRES_IN
    ensures var u := users[ValidateToken(Sent(jar, Config.REFRESH_TOKEN_COOKIE_NAME), env.refreshSecret, now).value.payload.id];
      && DecideFor(jar, users, env, now, prior).user == Some(DocumentUser(u))
      && ValidateToken(Sent(ApplyCookies(jar, DecideFor(jar, users, env, now, prior).cookies), Config.ACCESS_TOKEN_COOKIE_NAME),
                       env.accessSecret, later) == Some(AccessDecoded(u, now))
  {
    var o := DecideFor(jar, users, env, now, prior);
    var u := users[ValidateToken(Sent(jar, Config.REFRESH_TOKEN_COOKIE_NAME), env.refreshSecret, now).value.payload.id];
    assert o.cookies == [Write(Config.ACCESS_TOKEN_COOKIE_NAME, GenerateAccessToken(u, env, now), Config.AccessCookieOptions(env))];
    assert ApplyCookies(jar, o.cookies) == ApplyCookies(jar[Config.ACCESS_TOKEN_COOKIE_NAME := GenerateAccessToken(u, env, now)], []);
  }

  /** Once the refresh token is rejected and the cookies are cleared, the
      browser's next request is an anonymous one: no decision is taken and
      nothing is written. */
  lemma ClearedMeansLoggedOut(jar: map<string, TokenText>, users: map<string, User>, env: Config.Env,
                              now: int, later: int, prior: Option<Identity>, prior': Option<Identity>)
    requires Truthy(Sent(jar, Config.ACCESS_TOKEN_COOKIE_NAME)) || Truthy(Sent(jar, Config.REFRESH_TOKEN_COOKIE_NAME))
    requires ValidateToken(Sent(jar, Config.REFRESH_TOKEN_COOKIE_NAME), env.refreshSecret, now).None?
    ensures DecideFor(ApplyCookies(jar, DecideFor(jar, users, env, now, prior).cookies), users, env, later, prior')
      == Outcome(prior', [])
  {
    ClearingRemovesBothTokens(jar, env);
  }

  /** When an access token was minted from a refresh token that expires
      within the hour, the next request with both tokens valid rotates the
      refresh token; an earlier refresh never does. */
  lemma RotationAfterLateRefresh(u: User, users: map<string, User>, env: Config.Env,
                                 refreshed: int, expiry: int, later: int)
    requires refreshed <= later < refreshed + ACCESS_EXPIRES_IN && later < expiry
    requires u.id in users
    ensures var jar := map[Config.ACCESS_TOKEN_COOKIE_NAME := GenerateAccessToken(u, env, refreshed),
                           Config.REFRESH_TOKEN_COOKIE_NAME := Signed(Decoded(RefreshClaims(u.id), expiry - REFRESH_EXPIRES_IN, expiry), env.refreshSecret)];
      var o := DecideFor(jar, users, env, later, None);
      Writes(o.cookies, Config.REFRESH_TOKEN_COOKIE_NAME) <==> expiry <= refreshed + ACCESS_EXPIRES_IN
  {
  }

  /** A rotated refresh token is signed with the refresh secret, names the
      same subject and lets the browser refresh for one more day. */
  lemma RotatedRefreshValidates(jar: map<string, TokenText>, users: map<string, User>, env: Config.Env,
                                now: int, later: int, prior: Option<Identity>)
    requires ValidateToken(Sent(jar, Config.ACCESS_TOKEN_COOKIE_NAME), env.accessSecret, now).Some?
    requires ValidateToken(Sent(jar, Config.REFRESH_TOKEN_COOKIE_NAME), env.refreshSecret, now).Some?
    requires ValidateToken(Sent(jar, Config.REFRESH_TOKEN_COOKIE_NAME), env.refreshSecret, now).value.exp
      <= ValidateToken(Sent(jar, Config.ACCESS_TOKEN_COOKIE_NAME), env.accessSecret, now).value.exp
    requires ValidateToken(Sent(jar, Config.REFRESH_TOKEN_COOKIE_NAME), env.refreshSecret, now).value.payload.id in users
    // Every user is stored under its own id, as the store guarantees.
    requires var id := ValidateToken(Sent(jar, Config.REFRESH_TOKEN_COOKIE_NAME), env.refreshSecret, now).value.payload.id;
      users[id].id == id
    requires now <= later
    ensures var id := ValidateToken(Sent(jar, Config.REFRESH_TOKEN_COOKIE_NAME), env.refreshSecret, now).value.payload.id;
      var rotated := ValidateToken(Sent(ApplyCookies(jar, DecideFor(jar, users, env, now, prior).cookies), Config.REFRESH_TOKEN_COOKIE_NAME),
                                   env.refreshSecret, later);
      (rotated.Some? <==> later < now + REFRESH_EXPIRES_IN) &&
      (rotated.Some? ==> rotated.value == Decoded(RefreshClaims(id), now, now + REFRESH_EXPIRES_IN))
  {
    var o := DecideFor(jar, users, env, now, prior);
    var u := users[ValidateToken(Sent(jar, Config.REFRESH_TOKEN_COOKIE_NAME), env.refreshSecret, now).value.payload.id];
    assert o.cookies == [Write(Config.REFRESH_TOKEN_COOKIE_NAME, GenerateRefreshToken(u, env, now), Config.RefreshCookieOptions(env))];
    assert ApplyCookies(jar, o.cookies) == ApplyCookies(jar[Config.REFRESH_TOKEN_COOKIE_NAME := GenerateRefreshToken(u, env, now)], []);
    SignValidateRoundTrip(RefreshClaims(u.id), env.refreshSecret, env.refreshSecret, REFRESH_EXPIRES_IN, now, later);
  }

  // ---------------------------------------------------------------------------
  // Guards

  /** `IsAuthorized`: rejects a request without an identity. */
  function IsAuthorized(user: Option<Identity>): (r: Result<(), Failure>)
    ensures r.Err? <==> user.None?
    ensures r.Err? ==> r.error == Fail("Unauthorized")
  {
    if user.None? then Err(Fail("Unauthorized")) else Ok(())
  }

  /** `IsAdmin`: passes iff the identity's role, lower-cased, is "admin". An
      identity without a role makes `toLowerCase` throw. */
  function IsAdmin(user: Option<Identity>): (r: Result<(), Failure>)
    ensures r.Ok? <==> user.Some? && RoleOf(user.value).Some? && ToLower(RoleOf(user.value).value) == "admin"
    ensures r.Err? && (user.None? || RoleOf(user.value).Some?) ==> r.error == Fail("Forbidden")
    ensures r.Err? && user.Some? && RoleOf(user.value).None? ==> r.error == Fail(TYPE_ERROR)
  {
    if user.None? then Err(Fail("Forbidden"))
    else
      match RoleOf(user.value)
      case None => Err(Fail(TYPE_ERROR))
      case Some(role) => if ToLower(role) != "admin" then Err(Fail("Forbidden")) else Ok(())
  }

  /** Every administrator is signed in; any capitalisation of "admin" passes. */
  lemma AdminIsAuthorized(user: Option<Identity>, u: User)
    ensures IsAdmin(user).Ok? ==> IsAuthorized(user).Ok?
    ensures u.role in {"admin", "Admin", "ADMIN"} ==> IsAdmin(Some(DocumentUser(u))).Ok?
    ensures u.role == DEFAULT_ROLE ==> IsAdmin(Some(DocumentUser(u))) == Err(Fail("Forbidden"))
  {
    if u.role == DEFAULT_ROLE {
      assert ToLower(u.role)[0] == 'c';
    }
  }

  // ---------------------------------------------------------------------------
  // RateLimit

  const RATE_LIMIT_PREFIX := "rate-limit:"
  const SECONDS_IN_ONE_DAY := 60 * 60 * 24
  const TOO_MANY := "You have sent too much requests. Please try again later"

  /** Who is counted: the caller's address when anonymous, its id otherwise. */
  function Caller(user: Option<Identity>, ip: string): string {
    if user.None? then ip else IdOf(user.value)
  }

  /** The counter key of operation `fieldName` for `caller`. */
  function RateLimitKey(fieldName: string, caller: string): (key: string)
    ensures |key| == |RATE_LIMIT_PREFIX| + |fieldName| + 1 + |caller|
    ensures key[..|RATE_LIMIT_PREFIX|] == RATE_LIMIT_PREFIX
  {
    RATE_LIMIT_PREFIX + fieldName + ":" + caller
  }

  /** The text before the first ':' of `f + ":" + rest` is `f`, when `f` has none. */
  lemma {:induction false} BeforeFirstSeparator(f: string, rest: string)
    requires ':' !in f
    ensures BeforeFirst(f + ":" + rest, ':') == f
  {
    if f != [] {
      assert (f + ":" + rest)[1..] == f[1..] + ":" + rest;
      BeforeFirstSeparator(f[1..], rest);
    }
  }

  /** Operation names carry no ':', so two keys are equal only for the same
      operation and the same caller: every counter is independent. */
  lemma RateLimitKeyInjective(f1: string, c1: string, f2: string, c2: string)
    requires ':' !in f1 && ':' !in f2
    requires RateLimitKey(f1, c1) == RateLimitKey(f2, c2)
    ensures f1 == f2 && c1 == c2
  {
    var n := |RATE_LIMIT_PREFIX|;
    var k1, k2 := RateLimitKey(f1, c1), RateLimitKey(f2, c2);
    assert k1[n..] == f1 + ":" + c1;
    assert k2[n..] == f2 + ":" + c2;
    BeforeFirstSeparator(f1, c1);
    BeforeFirstSeparator(f2, c2);
    assert f1 == f2;
    assert c1 == (f1 + ":" + c1)[|f1| + 1..];
    assert c2 == (f2 + ":" + c2)[|f2| + 1..];
  }

  /** The counter store: the counts and expiry times held for each key. */
  datatype Counters = Counters(counts: map<string, nat>, expiresAt: map<string, int>) {
    /** Only existing keys carry an expiry. */
    predicate Valid() { expiresAt.Keys <= counts.Keys }

    function Count(key: string): nat {
      if key in counts then counts[key] else 0
    }
  }

  /** One `RateLimit(limit)` call on `key` at time `now`: the new store and
      whether the call may proceed. */
  function LimitStep(s: Counters, key: string, limit: int, now: int): (r: (Counters, Result<(), Failure>))
    ensures r.0.Count(key) == s.Count(key) + 1
    ensures r.1.Ok? <==> s.Count(key) + 1 <= limit
    ensures r.1.Err? ==> r.1.error == Fail(TOO_MANY)
    ensures key in r.0.expiresAt <==> key in s.expiresAt || (s.Count(key) == 0 && 1 <= limit)
    ensures key !in s.expiresAt && key in r.0.expiresAt ==> r.0.expiresAt[key] == now + SECONDS_IN_ONE_DAY
    // An existing window keeps its expiry; only a first, passing call opens one.
    ensures key in r.0.expiresAt ==>
      r.0.expiresAt[key] == (if s.Count(key) == 0 && 1 <= limit then now + SECONDS_IN_ONE_DAY else s.expiresAt[key])
    ensures forall k :: k != key ==> r.0.Count(k) == s.Count(k)
    ensures forall k :: k != key ==> (k in r.0.expiresAt <==> k in s.expiresAt)
    ensures forall k :: k != key && k in s.expiresAt ==> r.0.expiresAt[k] == s.expiresAt[k]
    ensures s.Valid() ==> r.0.Valid()
  {
    var current := s.Count(key) + 1;
    var counted := s.(counts := s.counts[key := current]);
    if current > limit then (counted, Err(Fail(TOO_MANY)))
    else if current == 1 then (counted.(expiresAt := counted.expiresAt[key := now + SECONDS_IN_ONE_DAY]), Ok(()))
    else (counted, Ok(()))
  }

  /** `n` calls on `key` at time `now` in a row: the store after them and
      which of them proceeded. */
  function Calls(s: Counters, key: string, limit: int, now: int, n: nat): (Counters, seq<bool>)
  {
    if n == 0 then (s, [])
    else
      var (s', passed) := Calls(s, key, limit, now, n - 1);
      var (s'', r) := LimitStep(s', key, limit, now);
      (s'', passed + [r.Ok?])
  }

  /** Within one window the counter only grows: call `i` proceeds iff the
      count before the calls plus `i + 1` is within the limit, and the
      expiry is set at most once, by a first call that proceeds. */
  lemma {:induction false} CallsInWindow(s: Counters, key: string, limit: int, now: int, n: nat)
    ensures |Calls(s, key, limit, now, n).1| == n
    ensures Calls(s, key, limit, now, n).0.Count(key) == s.Count(key) + n
    ensures forall i :: 0 <= i < n ==> (Calls(s, key, limit, now, n).1[i] <==> s.Count(key) + i + 1 <= limit)
    ensures key in Calls(s, key, limit, now, n).0.expiresAt <==>
      key in s.expiresAt || (s.Count(key) == 0 && 1 <= limit && n >= 1)
  {
    if n > 0 {
      CallsInWindow(s, key, limit, now, n - 1);
    }
  }

  /** A fresh caller gets exactly `limit` calls per window, and the window
      starts at its first call; a caller whose first call is refused (a
      limit below one) never gets an expiry and stays refused. */
  lemma FirstLimitCallsPass(s: Counters, key: string, limit: int, now: int, n: nat)
    requires key !in s.counts && s.Valid()
    ensures |Calls(s, key, limit, now, n).1| == n
    ensures forall i :: 0 <= i < n ==> (Calls(s, key, limit, now, n).1[i] <==> i < limit)
    ensures key in Calls(s, key, limit, now, n).0.expiresAt <==> 1 <= limit && n >= 1
  {
    CallsInWindow(s, key, limit, now, n);
  }

  /** Dropping every key whose expiry time has come by `t`. */
  function Evict(s: Counters, t: int): (s': Counters)
    ensures forall k :: k in s'.counts <==> k in s.counts && !(k in s.expiresAt && s.expiresAt[k] <= t)
    ensures forall k :: k in s'.counts ==> s'.counts[k] == s.counts[k]
    ensures forall k :: k in s'.expiresAt <==> k in s.expiresAt && t < s.expiresAt[k]
    ensures s.Valid() ==> s'.Valid()
  {
    Counters(
      map k | k in s.counts && !(k in s.expiresAt && s.expiresAt[k] <= t) :: s.counts[k],
      map k | k in s.expiresAt && t < s.expiresAt[k] :: s.expiresAt[k])
  }

  /** Once a day has passed since a caller's first call, its counter is gone
      and the next call proceeds and opens a new window. */
  lemma WindowResets(s: Counters, key: string, limit: int, first: int, t: int)
    requires s.Valid() && key in s.expiresAt && s.expiresAt[key] == first + SECONDS_IN_ONE_DAY
    requires first + SECONDS_IN_ONE_DAY <= t && 1 <= limit
    ensures LimitStep(Evict(s, t), key, limit, t).1.Ok?
    ensures LimitStep(Evict(s, t), key, limit, t).0.expiresAt[key] == t + SECONDS_IN_ONE_DAY
  {
    assert key !in Evict(s, t).counts;
  }

  /** The redis instance the counters live in, with its clock. */
  class Redis {
    var store: Counters
    var clock: int

    constructor (now: int)
      ensures store == Counters(map[], map[]) && clock == now
    {
      store := Counters(map[], map[]);
      clock := now;
    }

    /** `INCR key` */
    method Incr(key: string) returns (current: nat)
      modifies this`store
      ensures current == old(store).Count(key) + 1
      ensures store == old(store).(counts := old(store).counts[key := current])
    {
      current := store.Count(key) + 1;
      store := store.(counts := store.counts[key := current]);
    }

    /** `EXPIRE key seconds` */
    method Expire(key: string, seconds: int)
      modifies this`store
      ensures store == if key in old(store).counts then old(store).(expiresAt := old(store).expiresAt[key := clock + seconds]) else old(store)
    {
      if key in store.counts {
        store := store.(expiresAt := store.expiresAt[key := clock + seconds]);
      }
    }

    /** Time passes; keys whose expiry has come disappear. */
    method AdvanceTo(t: int)
      requires clock <= t
      modifies this
      ensures clock == t && store == Evict(old(store), t)
    {
      clock := t;
      store := Evict(store, t);
    }
  }

  /** `RateLimit(limit)` for operation `fieldName` on exchange `x`. */
  method RateLimit(redis: Redis, x: Exchange, limit: int, fieldName: string) returns (r: Result<(), Failure>)
    modifies redis`store, x`nextCalls
    ensures (redis.store, r) == LimitStep(old(redis.store), RateLimitKey(fieldName, Caller(x.user, x.ip)), limit, redis.clock)
    ensures x.nextCalls == old(x.nextCalls) + (if r.Ok? then 1 else 0)
  {
    var isNotLoggedIn := x.user.None?;
    var key := RateLimitKey(fieldName, if isNotLoggedIn then x.ip else IdOf(x.user.value));
    var current := redis.Incr(key);
    if current > limit {
      return Err(Fail(TOO_MANY));
    }
    if current == 1 {
      redis.Expire(key, SECONDS_IN_ONE_DAY);
    }
    x.Next();
    return Ok(());
  }
}
