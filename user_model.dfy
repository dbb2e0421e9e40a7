/** The user document (src/models/user.ts): its fields and defaults, the
    token payloads it signs and the links its e-mails carry. */
module UserModel {
  import opened Wrappers
  import opened Tokens
  import Config

  datatype User = User(
    id: string,
    email: string,
    firstname: string,
    lastname: string,
    password: string,
    role: string,
    isEmailVerified: bool,
    carts: seq<string>,
    favourites: seq<string>)

  const DEFAULT_ROLE := "Customer"
  const ACCESS_EXPIRES_IN := 60 * 60        // "1h"
  const REFRESH_EXPIRES_IN := 60 * 60 * 24  // "1d"
  const TOKEN_EXPIRES_IN := 60 * 60         // "1h"

  /** A user created with only the required fields: the schema fills in the rest. */
  function NewUser(id: string, email: string, firstname: string, lastname: string): (u: User)
    ensures u.id == id && u.email == email && u.firstname == firstname && u.lastname == lastname
    ensures u.role == "Customer" && !u.isEmailVerified && u.password == ""
    ensures u.carts == [] && u.favourites == []
  {
    User(id, email, firstname, lastname, "", DEFAULT_ROLE, false, [], [])
  }

  /** `generateAccessToken()`: `{email, _id, role}` under the access secret, one hour. */
  function GenerateAccessToken(u: User, env: Config.Env, now: int): TokenText {
    Sign(AccessClaims(u.email, u.id, u.role), env.accessSecret, ACCESS_EXPIRES_IN, now)
  }

  /** `generateRefreshToken()`: `{_id}` under the refresh secret, one day. */
  function GenerateRefreshToken(u: User, env: Config.Env, now: int): TokenText {
    Sign(RefreshClaims(u.id), env.refreshSecret, REFRESH_EXPIRES_IN, now)
  }

  /** `generateToken({_id})`: under the general token secret, one hour. */
  function GenerateToken(id: string, env: Config.Env, now: int): TokenText {
    Sign(IdClaims(id), env.tokenSecret, TOKEN_EXPIRES_IN, now)
  }

  /** Each minted token verifies under its own secret, until its lifetime
      ends, and carries exactly the fields of its payload shape. */
  lemma GeneratedTokensVerify(u: User, env: Config.Env, now: int, later: int)
    requires now <= later
    ensures ValidateToken(Some(GenerateAccessToken(u, env, now)), env.accessSecret, later).Some?
        <==> later < now + 3600
    ensures ValidateToken(Some(GenerateRefreshToken(u, env, now)), env.refreshSecret, later).Some?
        <==> later < now + 86400
    ensures ValidateToken(Some(GenerateToken(u.id, env, now)), env.tokenSecret, later).Some?
        <==> later < now + 3600
    ensures GenerateAccessToken(u, env, now).claims.payload == AccessClaims(u.email, u.id, u.role)
    ensures GenerateRefreshToken(u, env, now).claims.payload == RefreshClaims(u.id)
    ensures GenerateToken(u.id, env, now).claims.payload == IdClaims(u.id)
  {
  }

  /** The link of the verification e-mail; the token is its last path segment. */
  function VerificationLink(origin: string, token: string): (link: string)
    ensures |link| == |origin| + |"/verify-email/"| + |token|
    ensures link[..|origin|] == origin
    ensures link[|origin| + |"/verify-email/"|..] == token
  {
    origin + "/verify-email/" + token
  }

  function SupportLink(origin: string): string { origin + "/support/" }

  /** The link of the password-reset e-mail. It does not carry the token:
      the token travels as a separate template field. */
  function PasswordResetLink(origin: string): string { origin + "/password-reset/" }

  /** Template data of the password-reset e-mail. */
  datatype ResetMailFields = ResetMailFields(firstname: string, lastname: string, link: string, token: string, supportLink: string)

  function PasswordResetFields(u: User, origin: string, token: string): (f: ResetMailFields)
    ensures f.link == PasswordResetLink(origin) && f.token == token
  {
    ResetMailFields(u.firstname, u.lastname, PasswordResetLink(origin), token, SupportLink(origin))
  }

  /** Two reset e-mails for the same user differ only in the token field. */
  lemma ResetLinkIndependentOfToken(u: User, origin: string, t1: string, t2: string)
    ensures PasswordResetFields(u, origin, t1).link == PasswordResetFields(u, origin, t2).link
    ensures PasswordResetFields(u, origin, t1).(token := t2) == PasswordResetFields(u, origin, t2)
  {
  }
}
