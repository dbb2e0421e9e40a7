/** The express request/response pair one request travels with: the parsed
    cookies and caller address it arrives with, the identity middleware
    attaches to it, the cookies the response writes, and how often the
    pipeline has been told to continue. */
module Http {
  import opened Wrappers
  import opened Tokens
  import opened UserModel
  import Config

  /** `req.user`: either the claims of a verified access token, or a user document. */
  datatype Identity = TokenUser(claims: Decoded) | DocumentUser(user: User)

  /** `req.user._id` */
  function IdOf(i: Identity): string {
    match i
    case TokenUser(c) => c.payload.id
    case DocumentUser(u) => u.id
  }

  /** `req.user.role`; only access claims and user documents carry one. */
  function RoleOf(i: Identity): Option<string> {
    match i
    case TokenUser(c) => if c.payload.AccessClaims? then Some(c.payload.role) else None
    case DocumentUser(u) => Some(u.role)
  }

  /** One cookie written by the response. */
  datatype CookieOp =
    | Write(name: string, value: TokenText, options: Config.CookieOptions)
    | Erase(name: string, options: Config.CookieOptions)

  /** The cookies a browser holds after receiving `ops`: a written cookie
      replaces the old value, a cleared one is dropped. */
  function ApplyCookies(jar: map<string, TokenText>, ops: seq<CookieOp>): (r: map<string, TokenText>)
    decreases |ops|
  {
    if ops == [] then jar
    else
      var jar' := match ops[0]
        case Write(name, value, _) => jar[name := value]
        case Erase(name, _) => jar - {name};
      ApplyCookies(jar', ops[1..])
  }

  class Exchange {
    /** `req.cookies` after cookie parsing. */
    const cookies: map<string, TokenText>
    /** `req.ip` */
    const ip: string
    /** `req.user` */
    var user: Option<Identity>
    /** Every `res.cookie`/`res.clearCookie` call, in order. */
    var written: seq<CookieOp>
    /** How many times `next()` has been called. */
    var nextCalls: nat

    /** A request as it reaches the first middleware: nothing attached yet. */
    constructor (cookies: map<string, TokenText>, ip: string)
      ensures this.cookies == cookies && this.ip == ip
      ensures user == None && written == [] && nextCalls == 0
    {
      this.cookies := cookies;
      this.ip := ip;
      user := None;
      written := [];
      nextCalls := 0;
    }

    /** The value of cookie `name`, None when the request has none. */
    function CookieValue(name: string): (v: Option<TokenText>)
      ensures v.Some? <==> name in cookies
      ensures v.Some? ==> v.value == cookies[name]
    {
      if name in cookies then Some(cookies[name]) else None
    }

    /** `req.user = identity` */
    method SetUser(identity: Option<Identity>)
      modifies this`user
      ensures user == identity
    {
      user := identity;
    }

    /** `res.cookie(name, value, options)` */
    method Cookie(name: string, value: TokenText, options: Config.CookieOptions)
      modifies this`written
      ensures written == old(written) + [Write(name, value, options)]
    {
      written := written + [Write(name, value, options)];
    }

    /** `res.clearCookie(name, options)` */
    method ClearCookie(name: string, options: Config.CookieOptions)
      modifies this`written
      ensures written == old(written) + [Erase(name, options)]
    {
      written := written + [Erase(name, options)];
    }

    /** `next()` */
    method Next()
      modifies this`nextCalls
      ensures nextCalls == old(nextCalls) + 1
    {
      nextCalls := nextCalls + 1;
    }
  }
}
