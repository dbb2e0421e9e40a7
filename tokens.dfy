/** Signed tokens. HS256 signing is not modelled: a signed token is the
    claims it carries together with the secret it was signed with, so
    verification succeeds exactly when the secret matches and the token has
    not expired. Any other cookie text is `Garbage` and never verifies. */
module Tokens {
  import opened Wrappers

  /** The three payload shapes the system signs. */
  datatype Payload =
    | AccessClaims(email: string, id: string, role: string)
    | RefreshClaims(id: string)
    | IdClaims(id: string)

  /** A verified payload with its issue and expiry times (seconds). */
  datatype Decoded = Decoded(payload: Payload, iat: int, exp: int)

  /** The text a client presents: a token produced by `Sign`, or anything else. */
  datatype TokenText = Signed(claims: Decoded, secret: string) | Garbage(text: string)

  /** `jwt.sign(payload, secret, { expiresIn })` at time `now`. */
  function Sign(payload: Payload, secret: string, expiresIn: int, now: int): (t: TokenText)
    ensures t.Signed? && t.secret == secret
    ensures t.claims == Decoded(payload, now, now + expiresIn)
  {
    Signed(Decoded(payload, now, now + expiresIn), secret)
  }

  /** `validateToken` (src/utils/tokens.ts): `jwt.verify` with the given
      secret, null instead of an exception. An absent cookie is None. */
  function ValidateToken(token: Option<TokenText>, secret: string, now: int): (r: Option<Decoded>)
    ensures r.Some? <==> token.Some? && token.value.Signed? && token.value.secret == secret && now < token.value.claims.exp
    ensures r.Some? ==> r.value == token.value.claims
  {
    match token
    case Some(Signed(claims, s)) => if s == secret && now < claims.exp then Some(claims) else None
    case _ => None
  }

  /** Signing then verifying with the same secret before expiry gives back the
      payload; any other secret, or a time at or after expiry, gives nothing. */
  lemma SignValidateRoundTrip(payload: Payload, secret: string, other: string, expiresIn: int, issued: int, now: int)
    ensures ValidateToken(Some(Sign(payload, secret, expiresIn, issued)), secret, now) ==
      (if now < issued + expiresIn then Some(Decoded(payload, issued, issued + expiresIn)) else None)
    ensures other != secret ==> ValidateToken(Some(Sign(payload, secret, expiresIn, issued)), other, now) == None
  {
  }
}
