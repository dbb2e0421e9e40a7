/** The express application's middleware wiring (src/app/middlewares.ts):
    the CORS origin check, the order middlewares are registered in, and the
    final error handler. */
module App {
  import opened Wrappers
  import opened Text
  import Config

  /** `whitelist`: the two client origins, either of which may be unset. */
  function Whitelist(env: Config.Env): seq<Option<string>> {
    [env.customerOrigin, env.adminOrigin]
  }

  /** The CORS `origin` callback's verdict for a request's `Origin` header
      (None when the request has none). */
  function OriginAllowed(env: Config.Env, origin: Option<string>): (ok: bool)
    ensures Config.IsProduction(env) ==> (ok <==> origin.Some? && Contains(origin.value, "stcker.com"))
    ensures !Config.IsProduction(env) ==> (ok <==> origin == env.customerOrigin || origin == env.adminOrigin)
  {
    if Config.IsProduction(env) && origin.Some? && Contains(origin.value, "stcker.com") then true
    else if !Config.IsProduction(env) && origin in Whitelist(env) then true
    else false
  }

  /** The production check is a substring test: any origin that merely
      contains "stcker.com" passes, and a configured client origin that does
      not contain it is refused. */
  lemma ProductionMatchesSubstring(env: Config.Env, host: string)
    requires Config.IsProduction(env)
    ensures OriginAllowed(env, Some("https://stcker.com"))
    ensures OriginAllowed(env, Some("https://" + host + "stcker.com"))
    ensures OriginAllowed(env, Some("https://stcker.com." + host))
    ensures !OriginAllowed(env, None)
  {
    assert OccursAt("https://stcker.com", "stcker.com", 8);
    assert OccursAt("https://" + host + "stcker.com", "stcker.com", 8 + |host|);
    assert OccursAt("https://stcker.com." + host, "stcker.com", 8);
  }

  /** Outside production a request without an `Origin` header passes exactly
      when one of the two client origins is unset. */
  lemma MissingOriginOutsideProduction(env: Config.Env)
    requires !Config.IsProduction(env)
    ensures OriginAllowed(env, None) <==> env.customerOrigin.None? || env.adminOrigin.None?
  {
  }

  /** The middlewares the application runs, by kind. */
  datatype Middleware = Cors | Helmet | JsonBody | CookieParser | TokenValidator | Routes | ErrorHandler

  /** The middlewares `registerMiddlewaresBeforeRoute` adds, in order. */
  const BEFORE_ROUTE: seq<Middleware> := [Cors, Helmet, JsonBody, CookieParser, TokenValidator]

  /** The express application: its middleware stack. */
  class Application {
    var stack: seq<Middleware>

    constructor ()
      ensures stack == []
    {
      stack := [];
    }

    /** `app.use(m)` */
    method Use(m: Middleware)
      modifies this
      ensures stack == old(stack) + [m]
    {
      stack := stack + [m];
    }

    /** `registerMiddlewaresBeforeRoute(app)` */
    method RegisterBeforeRoute()
      modifies this
      ensures stack == old(stack) + BEFORE_ROUTE
    {
      Use(Cors);
      Use(Helmet);
      Use(JsonBody);
      Use(CookieParser);
      Use(TokenValidator);
    }

    /** `registerMiddlewaresAfterRoute(app)` */
    method RegisterAfterRoute()
      modifies this
      ensures stack == old(stack) + [ErrorHandler]
    {
      Use(ErrorHandler);
    }
  }

  /** The position of the first `m` in `stack`. */
  function IndexOf(stack: seq<Middleware>, m: Middleware): (i: nat)
    requires m in stack
    ensures i < |stack| && stack[i] == m && m !in stack[..i]
  {
    if stack[0] == m then 0 else 1 + IndexOf(stack[1..], m)
  }

  /** Wherever the before-route block is registered, the cookie parser runs
      before the token validator and CORS runs before both. */
  lemma {:induction false} CookiesParsedBeforeSession(prefix: seq<Middleware>)
    requires CookieParser !in prefix && TokenValidator !in prefix && Cors !in prefix
    ensures var s := prefix + BEFORE_ROUTE;
      IndexOf(s, Cors) < IndexOf(s, CookieParser) < IndexOf(s, TokenValidator)
  {
    var s := prefix + BEFORE_ROUTE;
    var n := |prefix|;
    assert s[n] == Cors && s[n + 3] == CookieParser && s[n + 4] == TokenValidator;
    assert s[..n] == prefix;
    assert s[..n + 3] == prefix + [Cors, Helmet, JsonBody];
    assert s[..n + 4] == prefix + [Cors, Helmet, JsonBody, CookieParser];
    assert IndexOf(s, Cors) == n by {
      assert forall i :: 0 <= i < n ==> s[i] != Cors;
    }
    assert IndexOf(s, CookieParser) == n + 3 by {
      assert forall i :: 0 <= i < n + 3 ==> s[i] != CookieParser;
    }
    assert IndexOf(s, TokenValidator) == n + 4 by {
      assert forall i :: 0 <= i < n + 4 ==> s[i] != TokenValidator;
    }
  }

  /** An error passed on with `next(err)`: its message and the HTTP status
      it carries (`err.status`), if any. */
  datatype HttpError = HttpError(message: string, status: Option<int>)

  /** A reply body: text the application sends, or a page Express's final
      handler renders itself (its content is Express's). */
  datatype Body = Text(text: string) | ErrorPage(err: HttpError) | NotFoundPage

  datatype Reply = Reply(status: int, body: Body)

  const SERVER_ERROR := "Server error"

  /** The body of the function `registerMiddlewaresAfterRoute` registers:
      whatever the error, the same reply, which neither depends on nor
      reveals it. */
  function HandleError(err: HttpError): (r: Reply)
    ensures r.status == 500 && r.body == Text(SERVER_ERROR)
  {
    Reply(500, Text(SERVER_ERROR))
  }

  /** Express's final handler, which answers an error no handler took: the
      error's own status when it is a 4xx or 5xx one, else 500, with a page
      of its own. */
  function FinalHandler(err: HttpError): (r: Reply)
    ensures 400 <= r.status <= 599 && r.body == ErrorPage(err)
    ensures err.status.Some? && 400 <= err.status.value <= 599 ==> r.status == err.status.value
  {
    if err.status.Some? && 400 <= err.status.value <= 599 then Reply(err.status.value, ErrorPage(err))
    else Reply(500, ErrorPage(err))
  }

  /** The number of parameters the registered function declares:
      `(err, _, res)`. */
  const HANDLER_ARITY := 3

  /** The number Express requires of an error handler: `(err, req, res, next)`. */
  const ERROR_HANDLER_ARITY := 4

  /** How Express passes an error to the last registered function, by the
      number of parameters it declares: only one of four is an error
      handler; any other is skipped and the error reaches the final
      handler. */
  function ErrorReply(arity: nat, err: HttpError): Reply {
    if arity == ERROR_HANDLER_ARITY then HandleError(err) else FinalHandler(err)
  }

  /** The TypeError raised by `res.status(500)` when `res` is bound to `next`. */
  const RES_STATUS_TYPE_ERROR := "TypeError: res.status is not a function"

  /** A request no route answered, reaching the last registered function
      without an error: a function of at most three parameters runs as
      ordinary middleware `(req, res, next)`, so its `res` is `next` and
      `res.status` throws; a function of four is skipped, leaving Express's
      "not found" reply. */
  function UnmatchedReply(arity: nat): Reply {
    if arity <= 3 then FinalHandler(HttpError(RES_STATUS_TYPE_ERROR, None)) else Reply(404, NotFoundPage)
  }

  /** As written, the registered function never answers: an error goes to
      Express's final handler instead, so a malformed JSON body, which the
      body parser rejects with status 400, is answered 400 with Express's
      page, and a request for an unknown path is answered 500 because the
      function itself throws. */
  lemma RegisteredHandlerIsSkipped(err: HttpError)
    ensures ErrorReply(HANDLER_ARITY, err) == FinalHandler(err)
    ensures ErrorReply(HANDLER_ARITY, err).body != Text(SERVER_ERROR)
    ensures ErrorReply(HANDLER_ARITY, HttpError("Unexpected token", Some(400))).status == 400
    ensures UnmatchedReply(HANDLER_ARITY) == Reply(500, ErrorPage(HttpError(RES_STATUS_TYPE_ERROR, None)))
  {
  }

  /** Declared with the four parameters Express requires, the handler
      answers every error alike with 500 "Server error", and an unknown path
      gets Express's "not found" reply. */
  lemma CorrectedHandlerAnswersEveryError(e1: HttpError, e2: HttpError)
    ensures ErrorReply(ERROR_HANDLER_ARITY, e1) == ErrorReply(ERROR_HANDLER_ARITY, e2)
    ensures ErrorReply(ERROR_HANDLER_ARITY, e1) == Reply(500, Text(SERVER_ERROR))
    ensures UnmatchedReply(ERROR_HANDLER_ARITY).status == 404
  {
  }
}
