/** Google sign-in (src/resolvers/social.ts). Google's verification of an ID
    token is an oracle: it either raises an error with a message, or yields
    a payload, which may be absent. */
module SocialResolver {
  import opened Wrappers
  import opened Text
  import opened UserModel
  import opened Http
  import opened Store
  import Config
  import Helpers

  const INVALID_TOKEN := "Token is not valid"
  const NOT_ADMIN := "You are not an admin"
  const VERIFY_FIRST := "Please verify your email address"

  /** The fields of Google's token payload the resolvers read. */
  datatype GooglePayload = GooglePayload(email: string, givenName: string, familyName: string, emailVerified: bool)

  /** `getPayloadFromGoogleIdToken(idToken)`: `answer` is what Google's
      verification produced. An error is reported by the part of its message
      before the first colon. */
  function PayloadFrom(answer: Result<Option<GooglePayload>, string>): (r: Result<GooglePayload, Failure>)
    ensures answer.Err? ==> (r.Err? && r.error.Fail? && ':' !in r.error.message &&
      r.error.message <= answer.error && (r.error.message == answer.error || answer.error[|r.error.message|] == ':'))
    ensures answer == Ok(None) ==> r == Err(Fail(INVALID_TOKEN))
    ensures r.Ok? <==> answer.Ok? && answer.value.Some?
    ensures r.Ok? ==> r.value == answer.value.value
  {
    match answer
    case Err(message) => Err(Fail(BeforeFirst(message, ':')))
    case Ok(None) => Err(Fail(INVALID_TOKEN))
    case Ok(Some(payload)) => Ok(payload)
  }

  // ---------------------------------------------------------------------------
  // googleLogin

  /** `googleLogin(tokenId, asAdmin)` before its cookies: the account of the
      token's address; the administrator check comes before the address is
      marked verified. */
  function GoogleLoginResult(users: map<string, User>, emails: map<string, string>,
                             answer: Result<Option<GooglePayload>, string>, asAdmin: bool)
    : (r: (Result<User, Failure>, map<string, User>))
    requires Indexed(users, emails)
    ensures PayloadFrom(answer).Err? ==> r == (Err(PayloadFrom(answer).error), users)
    ensures PayloadFrom(answer).Ok? && PayloadFrom(answer).value.email !in emails ==> r == (Err(Fail(USER_NOT_FOUND)), users)
    ensures r.0.Err? ==> r.1 == users
    ensures var p := PayloadFrom(answer);
      (r.0.Ok? <==> (p.Ok? && p.value.email in emails &&
        (asAdmin ==> ToLower(users[emails[p.value.email]].role) == "admin")))
    ensures var p := PayloadFrom(answer);
      r.0.Ok? ==> (r.0.value == users[emails[p.value.email]].(isEmailVerified := true) &&
        r.1 == users[emails[p.value.email] := r.0.value])
  {
    match PayloadFrom(answer)
    case Err(e) => (Err(e), users)
    case Ok(payload) =>
      match FindByEmail(users, emails, payload.email)
      case None => (Err(Fail(USER_NOT_FOUND)), users)
      case Some(user) =>
        if asAdmin && ToLower(user.role) != "admin" then (Err(Fail(NOT_ADMIN)), users)
        else
          var user' := if !user.isEmailVerified then user.(isEmailVerified := true) else user;
          (Ok(user'), users[user.id := user'])
  }

  /** Signing in with Google twice changes the accounts no more than once:
      the second sign-in finds the address already verified. */
  lemma GoogleLoginIdempotent(users: map<string, User>, emails: map<string, string>,
                              answer: Result<Option<GooglePayload>, string>, asAdmin: bool)
    requires Indexed(users, emails)
    ensures var once := GoogleLoginResult(users, emails, answer, asAdmin);
      Indexed(once.1, emails) &&
      GoogleLoginResult(once.1, emails, answer, asAdmin) == once
  {
    var once := GoogleLoginResult(users, emails, answer, asAdmin);
    if once.0.Ok? {
      var u := once.0.value;
      var id := emails[PayloadFrom(answer).value.email];
      assert u.id == id && u.email == users[id].email && u.role == users[id].role;
      SaveKeepsIndex(users, emails, u);
      assert FindByEmail(once.1, emails, u.email) == Some(u);
      assert once.1[id := u] == once.1;
    }
  }

  method GoogleLogin(db: Db, res: Exchange, answer: Result<Option<GooglePayload>, string>, asAdmin: bool,
                     env: Config.Env, now: int)
    returns (r: Result<User, Failure>)
    requires db.Valid()
    modifies db`users, res
    ensures db.Valid()
    ensures (r, db.users) == GoogleLoginResult(old(db.users), db.emails, answer, asAdmin)
    ensures res.written == old(res.written) + (if r.Ok? then Helpers.CookieResponseOps(r.value, env, now) else [])
    ensures res.user == old(res.user) && res.nextCalls == old(res.nextCalls)
  {
    var payload := PayloadFrom(answer);
    if payload.Err? {
      return Err(payload.error);
    }
    var found := FindByEmail(db.users, db.emails, payload.value.email);
    if found.None? {
      return Err(Fail(USER_NOT_FOUND));
    }
    var user := found.value;
    if asAdmin && ToLower(user.role) != "admin" {
      return Err(Fail(NOT_ADMIN));
    }
    if !user.isEmailVerified {
      user := user.(isEmailVerified := true);
      db.SaveUser(user);
    } else {
      assert db.users[user.id := user] == db.users;
    }
    Helpers.CookieResponse(res, user, env, now);
    return Ok(user);
  }

  // ---------------------------------------------------------------------------
  // googleSignUp

  /** What the user schema accepts on creation: a non-empty address of at
      most 255 characters and both names non-empty and at most 50
      characters (`required` refuses the empty string). */
  predicate SchemaAccepts(email: string, firstname: string, lastname: string) {
    0 < |email| <= 255 && 0 < |firstname| <= 50 && 0 < |lastname| <= 50
  }

  /** The account a Google sign-up creates: already verified, no password. */
  function SignedUp(id: string, payload: GooglePayload): (u: User)
    ensures u == NewUser(id, payload.email, payload.givenName, payload.familyName).(isEmailVerified := true)
    ensures u.password == "" && u.role == DEFAULT_ROLE
  {
    NewUser(id, payload.email, payload.givenName, payload.familyName).(isEmailVerified := true)
  }

  /** `googleSignUp(tokenId)` before its cookies; `newId` is the new
      document's id. Any failure of the creation, a taken address or a name
      the schema refuses, is reported as a taken address. */
  function GoogleSignUpResult(users: map<string, User>, emails: map<string, string>,
                              answer: Result<Option<GooglePayload>, string>, newId: string)
    : (r: (Result<User, Failure>, map<string, User>, map<string, string>))
    ensures PayloadFrom(answer).Err? ==> r == (Err(PayloadFrom(answer).error), users, emails)
    ensures PayloadFrom(answer).Ok? && !PayloadFrom(answer).value.emailVerified ==>
      r == (Err(Fail(VERIFY_FIRST)), users, emails)
    ensures r.0.Err? ==> r.1 == users && r.2 == emails
    ensures var p := PayloadFrom(answer);
      (r.0.Ok? <==> (p.Ok? && p.value.emailVerified && p.value.email !in emails &&
        SchemaAccepts(p.value.email, p.value.givenName, p.value.familyName)))
    ensures var p := PayloadFrom(answer);
      (p.Ok? && p.value.emailVerified && r.0.Err? ==> r.0 == Err(Fail(EMAIL_TAKEN)))
    ensures var p := PayloadFrom(answer);
      r.0.Ok? ==> (r.0.value == SignedUp(newId, p.value) && r.1 == users[newId := r.0.value] &&
        r.2 == emails[p.value.email := newId])
  {
    match PayloadFrom(answer)
    case Err(e) => (Err(e), users, emails)
    case Ok(payload) =>
      if !payload.emailVerified then (Err(Fail(VERIFY_FIRST)), users, emails)
      else if payload.email in emails || !SchemaAccepts(payload.email, payload.givenName, payload.familyName) then
        (Err(Fail(EMAIL_TAKEN)), users, emails)
      else
        var user := SignedUp(newId, payload);
        (Ok(user), users[newId := user], emails[payload.email := newId])
  }

  /** A Google sign-up is immediately followed by a working Google sign-in
      with the same token, without touching the new account again. */
  lemma SignUpThenLogin(users: map<string, User>, emails: map<string, string>,
                        answer: Result<Option<GooglePayload>, string>, newId: string)
    requires Indexed(users, emails) && newId !in users
    requires GoogleSignUpResult(users, emails, answer, newId).0.Ok?
    ensures var up := GoogleSignUpResult(users, emails, answer, newId);
      Indexed(up.1, up.2) &&
      GoogleLoginResult(up.1, up.2, answer, false) == (Ok(up.0.value), up.1)
  {
    var up := GoogleSignUpResult(users, emails, answer, newId);
    CreateExtendsIndex(users, emails, up.0.value);
    assert up.1[newId := up.0.value] == up.1;
  }

  method GoogleSignUp(db: Db, res: Exchange, answer: Result<Option<GooglePayload>, string>, newId: string,
                      env: Config.Env, now: int)
    returns (r: Result<User, Failure>)
    requires db.Valid() && newId !in db.users
    modifies db`users, db`emails, res
    ensures db.Valid()
    ensures (r, db.users, db.emails) == GoogleSignUpResult(old(db.users), old(db.emails), answer, newId)
    ensures res.written == old(res.written) + (if r.Ok? then Helpers.CookieResponseOps(r.value, env, now) else [])
    ensures res.user == old(res.user) && res.nextCalls == old(res.nextCalls)
  {
    var payload := PayloadFrom(answer);
    if payload.Err? {
      return Err(payload.error);
    }
    if !payload.value.emailVerified {
      return Err(Fail(VERIFY_FIRST));
    }
    var email, givenName, familyName := payload.value.email, payload.value.givenName, payload.value.familyName;
    if email in db.emails || !SchemaAccepts(email, givenName, familyName) {
      return Err(Fail(EMAIL_TAKEN));
    }
    var user := SignedUp(newId, payload.value);
    db.CreateUser(user);
    Helpers.CookieResponse(res, user, env, now);
    return Ok(user);
  }
}
