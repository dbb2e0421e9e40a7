/** The password-based account flows (src/resolvers/auth.ts): login and
    logout, registration, password reset, and e-mail verification. bcrypt is
    an oracle pair: `hash` and `compare`. The token e-mails carry is the one
    `generateToken` signs with the general token secret. */
module AuthResolver {
  import opened Wrappers
  import opened Text
  import opened Tokens
  import opened UserModel
  import opened Http
  import opened Store
  import opened Validation
  import Config
  import Helpers

  const INVALID_CREDENTIALS := "Invalid Email or Password"
  const VERIFY_FIRST := "Please verify your email address"
  const NOT_ADMIN := "You are not an admin"
  const INVALID_TOKEN := "Invalid or expired token"
  const ALREADY_VERIFIED := "Account is already verified"

  // ---------------------------------------------------------------------------
  // Validation of the arguments

  function LoginInput(email: string, password: string): map<string, string> {
    map["email" := email, "password" := password]
  }

  function RegisterInput(email: string, password: string, firstname: string, lastname: string): map<string, string> {
    map["email" := email, "password" := password, "firstname" := firstname, "lastname" := lastname]
  }

  /** What the login schema asks of an address and a password. */
  predicate CredentialsAccepted(email: string, password: string, isEmail: string -> bool) {
    isEmail(email) && |email| <= EMAIL_MAX && |password| >= PASSWORD_MIN
  }

  /** The login schema passes exactly when the credentials are acceptable. */
  lemma LoginValidation(email: string, password: string, isEmail: string -> bool)
    ensures Validate(LOGIN_SCHEMA, LoginInput(email, password), isEmail) == [] <==>
      CredentialsAccepted(email, password, isEmail)
  {
    ValidateEmptyIffAllAccepted(LOGIN_SCHEMA, LoginInput(email, password), isEmail);
    assert LOGIN_SCHEMA[0] == ("email", EmailRule) && LOGIN_SCHEMA[1] == ("password", PasswordRule);
  }

  /** The register schema passes exactly when the credentials are acceptable
      and both names are non-empty, short enough and made of name characters. */
  lemma RegisterValidation(email: string, password: string, firstname: string, lastname: string, isEmail: string -> bool)
    ensures Validate(REGISTER_SCHEMA, RegisterInput(email, password, firstname, lastname), isEmail) == [] <==>
      (CredentialsAccepted(email, password, isEmail) &&
       Accepts(NameRule("Firstname"), Some(firstname), isEmail) && Accepts(NameRule("Lastname"), Some(lastname), isEmail))
  {
    var input := RegisterInput(email, password, firstname, lastname);
    ValidateEmptyIffAllAccepted(REGISTER_SCHEMA, input, isEmail);
    assert REGISTER_SCHEMA[0] == ("email", EmailRule) && REGISTER_SCHEMA[1] == ("password", PasswordRule);
    assert REGISTER_SCHEMA[2] == ("firstname", NameRule("Firstname")) && REGISTER_SCHEMA[3] == ("lastname", NameRule("Lastname"));
  }

  // ---------------------------------------------------------------------------
  // login, logout

  /** `login(args)` before its cookies: validation, then the user by address,
      then the password, then verification, then the administrator flag. */
  function LoginResult(users: map<string, User>, emails: map<string, string>, isEmail: string -> bool,
                       compare: (string, string) -> bool, email: string, password: string, asAdmin: bool)
    : (r: Result<User, Failure>)
    requires Indexed(users, emails)
    ensures var errors := Validate(LOGIN_SCHEMA, LoginInput(email, password), isEmail);
      errors != [] ==> r == Err(FieldErrors(FoldErrors(errors)))
    ensures (CredentialsAccepted(email, password, isEmail) &&
      (email !in emails || !compare(password, users[emails[email]].password))) ==> r == Err(Fail(INVALID_CREDENTIALS))
    ensures (CredentialsAccepted(email, password, isEmail) && email in emails &&
      compare(password, users[emails[email]].password) && !users[emails[email]].isEmailVerified) ==> r == Err(Fail(VERIFY_FIRST))
    ensures r.Ok? <==> (CredentialsAccepted(email, password, isEmail) && email in emails &&
      compare(password, users[emails[email]].password) && users[emails[email]].isEmailVerified &&
      (asAdmin ==> ToLower(users[emails[email]].role) == "admin"))
    ensures r.Ok? ==> r.value == users[emails[email]]
  {
    var errors := Validate(LOGIN_SCHEMA, LoginInput(email, password), isEmail);
    LoginValidation(email, password, isEmail);
    if errors != [] then Err(FieldErrors(FoldErrors(errors)))
    else match FindByEmail(users, emails, email)
      case None => Err(Fail(INVALID_CREDENTIALS))
      case Some(user) =>
        if !compare(password, user.password) then Err(Fail(INVALID_CREDENTIALS))
        else if !user.isEmailVerified then Err(Fail(VERIFY_FIRST))
        else if asAdmin && ToLower(user.role) != "admin" then Err(Fail(NOT_ADMIN))
        else Ok(user)
  }

  /** An unknown address and a wrong password for a known one get the same
      answer, so a failed login does not tell which addresses have accounts. */
  lemma UnknownEmailLooksLikeWrongPassword(users: map<string, User>, emails: map<string, string>, isEmail: string -> bool,
                                           compare: (string, string) -> bool, known: string, unknown: string,
                                           password: string, asAdmin: bool)
    requires Indexed(users, emails) && known in emails && unknown !in emails
    requires CredentialsAccepted(known, password, isEmail) && CredentialsAccepted(unknown, password, isEmail)
    requires !compare(password, users[emails[known]].password)
    ensures LoginResult(users, emails, isEmail, compare, known, password, asAdmin) ==
            LoginResult(users, emails, isEmail, compare, unknown, password, asAdmin)
  {
  }

  /** `login(args)`: on success both token cookies are written. */
  method Login(db: Db, res: Exchange, isEmail: string -> bool, compare: (string, string) -> bool,
               email: string, password: string, asAdmin: bool, env: Config.Env, now: int)
    returns (r: Result<User, Failure>)
    requires db.Valid()
    modifies res
    ensures r == LoginResult(db.users, db.emails, isEmail, compare, email, password, asAdmin)
    ensures res.written == old(res.written) + (if r.Ok? then Helpers.CookieResponseOps(r.value, env, now) else [])
    ensures res.user == old(res.user) && res.nextCalls == old(res.nextCalls)
  {
    LoginValidation(email, password, isEmail);
    var errors := GetValidationErrors(LOGIN_SCHEMA, LoginInput(email, password), isEmail);
    if errors.Some? {
      return Err(FieldErrors(errors.value));
    }
    var user := FindByEmail(db.users, db.emails, email);
    if user.None? {
      return Err(Fail(INVALID_CREDENTIALS));
    }
    var isSamePassword := compare(password, user.value.password);
    if !isSamePassword {
      return Err(Fail(INVALID_CREDENTIALS));
    }
    if !user.value.isEmailVerified {
      return Err(Fail(VERIFY_FIRST));
    }
    if asAdmin && ToLower(user.value.role) != "admin" {
      return Err(Fail(NOT_ADMIN));
    }
    Helpers.CookieResponse(res, user.value, env, now);
    return Ok(user.value);
  }

  /** `logout()`: clears both token cookies and always succeeds. */
  method Logout(res: Exchange, env: Config.Env) returns (r: string)
    modifies res
    ensures r == SUCCESS
    ensures res.written == old(res.written) + Helpers.ClearCookiesOps(env)
    ensures res.user == old(res.user) && res.nextCalls == old(res.nextCalls)
  {
    Helpers.ClearCookiesResponse(res, env);
    return SUCCESS;
  }

  // ---------------------------------------------------------------------------
  // register

  /** The document `User.create` stores for a registration. */
  function Registered(id: string, email: string, firstname: string, lastname: string, hashed: string): (u: User)
    ensures u == NewUser(id, email, firstname, lastname).(password := hashed)
    ensures !u.isEmailVerified && u.role == DEFAULT_ROLE
  {
    NewUser(id, email, firstname, lastname).(password := hashed)
  }

  /** `register(args)`: `newId` is the new document's id, `mail` the mail
      service's answer to the verification e-mail. Creation and the e-mail
      share one error handler, so a refused e-mail is reported as a taken
      address although the account was created. */
  function RegisterResult(users: map<string, User>, emails: map<string, string>, isEmail: string -> bool,
                          hash: string -> string, email: string, password: string, firstname: string,
                          lastname: string, newId: string, mail: Delivery)
    : (r: (Result<string, Failure>, map<string, User>, map<string, string>, seq<Effect>))
    ensures var errors := Validate(REGISTER_SCHEMA, RegisterInput(email, password, firstname, lastname), isEmail);
      errors != [] ==> r == (Err(FieldErrors(FoldErrors(errors))), users, emails, [])
    ensures var errors := Validate(REGISTER_SCHEMA, RegisterInput(email, password, firstname, lastname), isEmail);
      r.0.Ok? <==> errors == [] && email !in emails && mail.Sent?
    ensures var errors := Validate(REGISTER_SCHEMA, RegisterInput(email, password, firstname, lastname), isEmail);
      errors == [] && r.0.Err? ==> r.0 == Err(FieldErrors(map["email" := EMAIL_TAKEN]))
    ensures var errors := Validate(REGISTER_SCHEMA, RegisterInput(email, password, firstname, lastname), isEmail);
      (errors == [] && email !in emails ==>
        r.1 == users[newId := Registered(newId, email, firstname, lastname, hash(password))] &&
        r.2 == emails[email := newId])
    ensures r.1 != users ==> r.1 == users[newId := Registered(newId, email, firstname, lastname, hash(password))]
    ensures r.3 == if r.0.Ok? then [VerificationMail(newId)] else []
  {
    var errors := Validate(REGISTER_SCHEMA, RegisterInput(email, password, firstname, lastname), isEmail);
    if errors != [] then (Err(FieldErrors(FoldErrors(errors))), users, emails, [])
    else if email in emails then (Err(FieldErrors(map["email" := EMAIL_TAKEN])), users, emails, [])
    else
      var users', emails' := users[newId := Registered(newId, email, firstname, lastname, hash(password))],
                             emails[email := newId];
      if mail.Refused? then (Err(FieldErrors(map["email" := EMAIL_TAKEN])), users', emails', [])
      else (Ok(SUCCESS), users', emails', [VerificationMail(newId)])
  }

  method Register(db: Db, isEmail: string -> bool, hash: string -> string, email: string, password: string,
                  firstname: string, lastname: string, newId: string, mail: Delivery)
    returns (r: Result<string, Failure>)
    requires db.Valid() && newId !in db.users
    modifies db`users, db`emails, db`effects
    ensures db.Valid()
    ensures var expected := RegisterResult(old(db.users), old(db.emails), isEmail, hash, email, password,
                                           firstname, lastname, newId, mail);
      r == expected.0 && db.users == expected.1 && db.emails == expected.2 && db.effects == old(db.effects) + expected.3
  {
    var errors := GetValidationErrors(REGISTER_SCHEMA, RegisterInput(email, password, firstname, lastname), isEmail);
    if errors.Some? {
      return Err(FieldErrors(errors.value));
    }
    var hashedPassword := hash(password);
    if email in db.emails {
      return Err(FieldErrors(map["email" := EMAIL_TAKEN]));
    }
    db.CreateUser(Registered(newId, email, firstname, lastname, hashedPassword));
    if mail.Refused? {
      return Err(FieldErrors(map["email" := EMAIL_TAKEN]));
    }
    db.Emit(VerificationMail(newId));
    return Ok(SUCCESS);
  }

  // ---------------------------------------------------------------------------
  // resetPassword

  /** `resetPassword(token, password)` before its cookies. The new password
      is hashed as given: no length rule applies here. */
  function ResetPasswordResult(users: map<string, User>, hash: string -> string, token: TokenText, password: string,
                               env: Config.Env, now: int)
    : (r: (Result<User, Failure>, map<string, User>))
    ensures ValidateToken(Some(token), env.tokenSecret, now).None? ==> r == (Err(Fail(INVALID_TOKEN)), users)
    ensures var d := ValidateToken(Some(token), env.tokenSecret, now);
      r.0.Ok? <==> d.Some? && d.value.payload.id in users
    ensures var d := ValidateToken(Some(token), env.tokenSecret, now);
      d.Some? && d.value.payload.id !in users ==> r == (Err(Fail(USER_NOT_FOUND)), users)
    ensures var d := ValidateToken(Some(token), env.tokenSecret, now);
      r.0.Ok? ==> (r.0.value == users[d.value.payload.id].(password := hash(password)) &&
        r.1 == users[d.value.payload.id := r.0.value])
  {
    match ValidateToken(Some(token), env.tokenSecret, now)
    case None => (Err(Fail(INVALID_TOKEN)), users)
    case Some(decoded) =>
      if decoded.payload.id !in users then (Err(Fail(USER_NOT_FOUND)), users)
      else
        var user := users[decoded.payload.id].(password := hash(password));
        (Ok(user), users[decoded.payload.id := user])
  }

  method ResetPassword(db: Db, res: Exchange, hash: string -> string, token: TokenText, password: string,
                       env: Config.Env, now: int)
    returns (r: Result<User, Failure>)
    requires db.Valid()
    modifies db`users, res
    ensures db.Valid()
    ensures (r, db.users) == ResetPasswordResult(old(db.users), hash, token, password, env, now)
    ensures res.written == old(res.written) + (if r.Ok? then Helpers.CookieResponseOps(r.value, env, now) else [])
    ensures res.user == old(res.user) && res.nextCalls == old(res.nextCalls)
  {
    var decoded := ValidateToken(Some(token), env.tokenSecret, now);
    if decoded.None? {
      return Err(Fail(INVALID_TOKEN));
    }
    var id := decoded.value.payload.id;
    if id !in db.users {
      return Err(Fail(USER_NOT_FOUND));
    }
    var user := db.users[id];
    user := user.(password := hash(password));
    db.SaveUser(user);
    Helpers.CookieResponse(res, user, env, now);
    return Ok(user);
  }

  /** A reset does not apply the password rule, so a verified customer who
      resets to a password shorter than twelve characters is then turned
      away by login's validation, whatever bcrypt says. */
  lemma ShortResetPasswordLocksOut(users: map<string, User>, emails: map<string, string>, isEmail: string -> bool,
                                   compare: (string, string) -> bool, hash: string -> string, u: User,
                                   password: string, env: Config.Env, issued: int, now: int)
    requires Indexed(users, emails) && u.id in users && users[u.id] == u
    requires issued <= now < issued + TOKEN_EXPIRES_IN && |password| < PASSWORD_MIN
    ensures var reset := ResetPasswordResult(users, hash, GenerateToken(u.id, env, issued), password, env, now);
      reset.0.Ok? && Indexed(reset.1, emails) &&
      LoginResult(reset.1, emails, isEmail, compare, u.email, password, false).Err? &&
      LoginResult(reset.1, emails, isEmail, compare, u.email, password, false) != Err(Fail(INVALID_CREDENTIALS))
  {
    var reset := ResetPasswordResult(users, hash, GenerateToken(u.id, env, issued), password, env, now);
    SaveKeepsIndex(users, emails, reset.0.value);
    LoginValidation(u.email, password, isEmail);
  }

  // ---------------------------------------------------------------------------
  // resendVerificationMail, sendPasswordResetMail

  /** `resendVerificationMail(email)`: `mail` is the mail service's answer. */
  function ResendVerificationResult(users: map<string, User>, emails: map<string, string>, email: string, mail: Delivery)
    : (r: (Result<string, Failure>, seq<Effect>))
    requires Indexed(users, emails)
    ensures email !in emails ==> r == (Err(Fail(USER_NOT_FOUND)), [])
    ensures email in emails && users[emails[email]].isEmailVerified ==> r == (Err(Fail(ALREADY_VERIFIED)), [])
    ensures r.0.Ok? <==> (email in emails && !users[emails[email]].isEmailVerified && mail.Sent?)
    ensures r.0.Ok? ==> r == (Ok(SUCCESS), [VerificationMail(emails[email])])
    ensures r.0.Err? ==> r.1 == []
  {
    match FindByEmail(users, emails, email)
    case None => (Err(Fail(USER_NOT_FOUND)), [])
    case Some(user) =>
      if user.isEmailVerified then (Err(Fail(ALREADY_VERIFIED)), [])
      else if mail.Refused? then (Err(Fail(mail.message)), [])
      else (Ok(SUCCESS), [VerificationMail(user.id)])
  }

  method ResendVerificationMail(db: Db, email: string, mail: Delivery) returns (r: Result<string, Failure>)
    requires db.Valid()
    modifies db`effects
    ensures var expected := ResendVerificationResult(db.users, db.emails, email, mail);
      r == expected.0 && db.effects == old(db.effects) + expected.1
  {
    var user := FindByEmail(db.users, db.emails, email);
    if user.None? {
      return Err(Fail(USER_NOT_FOUND));
    }
    if user.value.isEmailVerified {
      return Err(Fail(ALREADY_VERIFIED));
    }
    if mail.Refused? {
      return Err(Fail(mail.message));
    }
    db.Emit(VerificationMail(user.value.id));
    return Ok(SUCCESS);
  }

  /** `sendPasswordResetMail(email)`: any account, verified or not. */
  function PasswordResetMailResult(users: map<string, User>, emails: map<string, string>, email: string, mail: Delivery)
    : (r: (Result<string, Failure>, seq<Effect>))
    requires Indexed(users, emails)
    ensures email !in emails ==> r == (Err(Fail(USER_NOT_FOUND)), [])
    ensures r.0.Ok? <==> email in emails && mail.Sent?
    ensures r.0.Ok? ==> r == (Ok(SUCCESS), [PasswordResetMail(emails[email])])
    ensures email in emails && mail.Refused? ==> r == (Err(Fail(mail.message)), [])
  {
    match FindByEmail(users, emails, email)
    case None => (Err(Fail(USER_NOT_FOUND)), [])
    case Some(user) =>
      if mail.Refused? then (Err(Fail(mail.message)), [])
      else (Ok(SUCCESS), [PasswordResetMail(user.id)])
  }

  method SendPasswordResetMail(db: Db, email: string, mail: Delivery) returns (r: Result<string, Failure>)
    requires db.Valid()
    modifies db`effects
    ensures var expected := PasswordResetMailResult(db.users, db.emails, email, mail);
      r == expected.0 && db.effects == old(db.effects) + expected.1
  {
    var user := FindByEmail(db.users, db.emails, email);
    if user.None? {
      return Err(Fail(USER_NOT_FOUND));
    }
    if mail.Refused? {
      return Err(Fail(mail.message));
    }
    db.Emit(PasswordResetMail(user.value.id));
    return Ok(SUCCESS);
  }

  // ---------------------------------------------------------------------------
  // verifyEmail

  /** `verifyEmail(token)` before its cookies: the flag goes from false to
      true, and only once. */
  function VerifyEmailResult(users: map<string, User>, token: TokenText, env: Config.Env, now: int)
    : (r: (Result<User, Failure>, map<string, User>))
    ensures ValidateToken(Some(token), env.tokenSecret, now).None? ==> r == (Err(Fail(INVALID_TOKEN)), users)
    ensures var d := ValidateToken(Some(token), env.tokenSecret, now);
      d.Some? && d.value.payload.id !in users ==> r == (Err(Fail(USER_NOT_FOUND)), users)
    ensures var d := ValidateToken(Some(token), env.tokenSecret, now);
      d.Some? && d.value.payload.id in users && users[d.value.payload.id].isEmailVerified ==>
        r == (Err(Fail(ALREADY_VERIFIED)), users)
    ensures var d := ValidateToken(Some(token), env.tokenSecret, now);
      r.0.Ok? <==> d.Some? && d.value.payload.id in users && !users[d.value.payload.id].isEmailVerified
    ensures var d := ValidateToken(Some(token), env.tokenSecret, now);
      r.0.Ok? ==> (r.0.value == users[d.value.payload.id].(isEmailVerified := true) &&
        r.1 == users[d.value.payload.id := r.0.value])
  {
    match ValidateToken(Some(token), env.tokenSecret, now)
    case None => (Err(Fail(INVALID_TOKEN)), users)
    case Some(decoded) =>
      if decoded.payload.id !in users then (Err(Fail(USER_NOT_FOUND)), users)
      else if users[decoded.payload.id].isEmailVerified then (Err(Fail(ALREADY_VERIFIED)), users)
      else
        var user := users[decoded.payload.id].(isEmailVerified := true);
        (Ok(user), users[decoded.payload.id := user])
  }

  /** A verification link works once: the same token a second time is
      refused and changes nothing. */
  lemma VerifyEmailOnce(users: map<string, User>, token: TokenText, env: Config.Env, now: int, later: int)
    requires VerifyEmailResult(users, token, env, now).0.Ok?
    requires ValidateToken(Some(token), env.tokenSecret, later).Some?
    ensures var once := VerifyEmailResult(users, token, env, now).1;
      VerifyEmailResult(once, token, env, later) == (Err(Fail(ALREADY_VERIFIED)), once)
  {
    var d := ValidateToken(Some(token), env.tokenSecret, now);
    assert ValidateToken(Some(token), env.tokenSecret, later).value.payload == d.value.payload;
  }

  method VerifyEmail(db: Db, res: Exchange, token: TokenText, env: Config.Env, now: int)
    returns (r: Result<User, Failure>)
    requires db.Valid()
    modifies db`users, res
    ensures db.Valid()
    ensures (r, db.users) == VerifyEmailResult(old(db.users), token, env, now)
    ensures res.written == old(res.written) + (if r.Ok? then Helpers.CookieResponseOps(r.value, env, now) else [])
    ensures res.user == old(res.user) && res.nextCalls == old(res.nextCalls)
  {
    var decoded := ValidateToken(Some(token), env.tokenSecret, now);
    if decoded.None? {
      return Err(Fail(INVALID_TOKEN));
    }
    var id := decoded.value.payload.id;
    if id !in db.users {
      return Err(Fail(USER_NOT_FOUND));
    }
    var user := db.users[id];
    if user.isEmailVerified {
      return Err(Fail(ALREADY_VERIFIED));
    }
    user := user.(isEmailVerified := true);
    db.SaveUser(user);
    Helpers.CookieResponse(res, user, env, now);
    return Ok(user);
  }

  /** The account life cycle: a fresh registration cannot log in until its
      address is verified with the e-mailed token, and then logs in with the
      registered password. */
  lemma RegisterVerifyLogin(users: map<string, User>, emails: map<string, string>, isEmail: string -> bool,
                            compare: (string, string) -> bool, hash: string -> string,
                            email: string, password: string, firstname: string, lastname: string,
                            newId: string, mail: Delivery, env: Config.Env, issued: int, now: int)
    requires Indexed(users, emails) && newId !in users && compare(password, hash(password))
    requires RegisterResult(users, emails, isEmail, hash, email, password, firstname, lastname, newId, mail).0.Ok?
    requires issued <= now < issued + TOKEN_EXPIRES_IN
    ensures var reg := RegisterResult(users, emails, isEmail, hash, email, password, firstname, lastname, newId, mail);
      Indexed(reg.1, reg.2) &&
      LoginResult(reg.1, reg.2, isEmail, compare, email, password, false) == Err(Fail(VERIFY_FIRST))
    ensures var reg := RegisterResult(users, emails, isEmail, hash, email, password, firstname, lastname, newId, mail);
      var verified := VerifyEmailResult(reg.1, GenerateToken(newId, env, issued), env, now);
      verified.0.Ok? && Indexed(verified.1, reg.2) &&
      LoginResult(verified.1, reg.2, isEmail, compare, email, password, false) == Ok(verified.1[newId])
  {
    var reg := RegisterResult(users, emails, isEmail, hash, email, password, firstname, lastname, newId, mail);
    RegisterValidation(email, password, firstname, lastname, isEmail);
    var u := Registered(newId, email, firstname, lastname, hash(password));
    CreateExtendsIndex(users, emails, u);
    assert reg.1[newId] == u && reg.2[email] == newId;
    var verified := VerifyEmailResult(reg.1, GenerateToken(newId, env, issued), env, now);
    SaveKeepsIndex(reg.1, reg.2, verified.0.value);
    assert verified.1[newId] == u.(isEmailVerified := true);
  }
}
