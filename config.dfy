/** Environment-derived configuration: the flags read from NODE_ENV, the
    secrets and origins taken from the environment, the cookie names and the
    options every token cookie is written with. */
module Config {
  import opened Wrappers

  /** The part of the process environment the core reads. Unset variables are None. */
  datatype Env = Env(
    nodeEnv: Option<string>,
    accessSecret: string,
    refreshSecret: string,
    tokenSecret: string,
    customerOrigin: Option<string>,
    adminOrigin: Option<string>,
    bucket: string)

  predicate IsProduction(env: Env) { env.nodeEnv == Some("production") }
  predicate IsStaging(env: Env) { env.nodeEnv == Some("staging") }
  predicate IsTesting(env: Env) { env.nodeEnv == Some("test") }

  const ACCESS_TOKEN_COOKIE_NAME := "stcker_acc_token"
  const REFRESH_TOKEN_COOKIE_NAME := "stcker_ref_token"
  const COOKIE_DOMAIN := ".stcker.com"

  const MILLISECONDS_IN_ONE_HOUR := 1000 * 60 * 60
  const MILLISECONDS_IN_ONE_DAY := 1000 * 60 * 60 * 24

  /** Options passed to `res.cookie`/`res.clearCookie`; None is an absent key. */
  datatype CookieOptions = CookieOptions(
    domain: Option<string>,
    httpOnly: bool,
    secure: bool,
    sameSite: Option<string>,
    maxAge: Option<int>)

  /** The shared options; they carry no maxAge. NODE_ENV holds one value,
      so at most one of the environment flags they depend on is set. */
  function BaseCookieOptions(env: Env): (o: CookieOptions)
    ensures o.httpOnly && o.maxAge == None
    ensures o.secure <==> IsProduction(env) || IsStaging(env)
    ensures o.sameSite == Some("none") <==> o.secure
    ensures o.sameSite == None <==> !o.secure
    ensures o.domain == Some(COOKIE_DOMAIN) <==> IsProduction(env)
    ensures o.domain == None <==> !IsProduction(env)
  {
    CookieOptions(
      if IsProduction(env) then Some(COOKIE_DOMAIN) else None,
      true,
      IsProduction(env) || IsStaging(env),
      if IsProduction(env) || IsStaging(env) then Some("none") else None,
      None)
  }

  function AccessCookieOptions(env: Env): CookieOptions {
    BaseCookieOptions(env).(maxAge := Some(MILLISECONDS_IN_ONE_HOUR))
  }

  function RefreshCookieOptions(env: Env): CookieOptions {
    BaseCookieOptions(env).(maxAge := Some(MILLISECONDS_IN_ONE_DAY))
  }

  /** The two token cookies live one hour and one day; they share every
      other option. */
  lemma CookieLifetimes(env: Env)
    ensures AccessCookieOptions(env).maxAge == Some(3600000)
    ensures RefreshCookieOptions(env).maxAge == Some(86400000)
    ensures RefreshCookieOptions(env).maxAge.value == 24 * AccessCookieOptions(env).maxAge.value
    ensures AccessCookieOptions(env).(maxAge := None) == RefreshCookieOptions(env).(maxAge := None)
    ensures AccessCookieOptions(env).httpOnly && RefreshCookieOptions(env).httpOnly
  {
  }
}
