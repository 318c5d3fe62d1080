/** The API router's callback wrapper: it turns what a route handler settles
    with into writes on the Express response (cookies, a status, a JSON
    body), with a guard for an already-answered request, a fast path for a
    missing request body, and a catch-all for a handler that throws. The
    response is modelled as the trace of writes made on it. */
module ApiRouter {
  import opened Wrappers

  /** A JSON value, as a request body, a response body or cookie options. */
  datatype Json =
    | JNull
    | JBool(b: bool)
    | JNumber(n: int)
    | JString(s: string)
    | JArray(items: seq<Json>)
    | JObject(fields: seq<(string, Json)>)

  /** JavaScript truthiness of `request.body`; `None` is `undefined`. */
  predicate Truthy(body: Option<Json>) {
    match body
    case None => false
    case Some(JNull) => false
    case Some(JBool(b)) => b
    case Some(JNumber(n)) => n != 0
    case Some(JString(s)) => s != ""
    case Some(_) => true
  }

  /** The value and the (opaque, passed-through) options of one cookie. */
  datatype CookieDetails = CookieDetails(value: string, options: Json)

  predicate DistinctNames(c: seq<(string, CookieDetails)>) {
    forall i, j :: 0 <= i < j < |c| ==> c[i].0 != c[j].0
  }

  /** `CookiesObject`: its entries in `Object.keys` order; an object's keys
      are distinct. */
  type CookiesObject = c: seq<(string, CookieDetails)> | DistinctNames(c) witness []

  datatype ApiError = ApiError(code: string, message: string)

  /** `APIResponse`. The source tells the variants apart by whether an
      `error` field is present; here they are tagged. */
  datatype APIResponse =
    | ErrorAPIResponse(statusCode: int, error: ApiError)
    | DataAPIResponse(statusCode: int, cookies: Option<CookiesObject>, data: Json)

  /** How the route's callback settles: with an envelope, or by throwing
      (or rejecting) with an error whose `message` is given. */
  datatype Outcome = Resolves(response: APIResponse) | Rejects(message: string)

  /** `APIRouteOpts`: `requireBody` may be left out. */
  datatype RouteOpts = RouteOpts(requireBody: Option<bool>)

  /** The options object `{}`. */
  const NoOpts := RouteOpts(None)

  datatype Request = Request(body: Option<Json>)

  /** One write on the Express response. */
  datatype Action =
    | SetCookie(name: string, value: string, options: Json)
    | SetStatus(code: int)
    | SendJson(body: Json)

  const UncaughtCode := "uncaught-exception"
  const UncaughtPrefix := "An uncaught exception was thrown: "

  /** The body written for an error envelope: the bare `{code, message}`. */
  function ErrorJson(e: ApiError): Json {
    JObject([("code", JString(e.code)), ("message", JString(e.message))])
  }

  /** The body written by the catch-all: `{error: {code, message}}`. */
  function UncaughtJson(message: string): Json {
    JObject([("error", ErrorJson(ApiError(UncaughtCode, UncaughtPrefix + message)))])
  }

  /** `opts.requireBody && !request.body`. */
  predicate BodyCheckFails(opts: RouteOpts, request: Request) {
    opts.requireBody == Some(true) && !Truthy(request.body)
  }

  /** Whether the wrapper gets as far as invoking the callback. */
  predicate Invokes(headersSent: bool, opts: RouteOpts, request: Request) {
    !headersSent && !BodyCheckFails(opts, request)
  }

  /** One `response.cookie(key, value, options)` per entry, in key order. */
  function CookieWrites(c: seq<(string, CookieDetails)>): (r: seq<Action>)
    ensures |r| == |c|
    ensures forall i :: 0 <= i < |c| ==> r[i] == SetCookie(c[i].0, c[i].1.value, c[i].1.options)
  {
    if c == [] then []
    else [SetCookie(c[0].0, c[0].1.value, c[0].1.options)] + CookieWrites(c[1..])
  }

  /** The writes the wrapper makes, from whether headers were already sent,
      the route's options, the request and how the callback settles. */
  function Written(headersSent: bool, opts: RouteOpts, request: Request, outcome: Outcome): seq<Action> {
    if !Invokes(headersSent, opts, request) then []
    else
      match outcome
      case Rejects(message) => [SetStatus(500), SendJson(UncaughtJson(message))]
      case Resolves(ErrorAPIResponse(code, e)) => [SetStatus(code), SendJson(ErrorJson(e))]
      case Resolves(DataAPIResponse(code, cookies, data)) =>
        CookieWrites(cookies.GetOr([])) + [SetStatus(code), SendJson(data)]
  }

  /** Nothing is written when headers were already sent or when a required
      body is missing, and in no other case; otherwise exactly one body is
      sent, as the last write, right after the one status write. */
  lemma {:induction false} OneResponsePerRequest(headersSent: bool, opts: RouteOpts, request: Request, outcome: Outcome)
    ensures var w := Written(headersSent, opts, request, outcome);
      (w == [] <==> headersSent || BodyCheckFails(opts, request)) &&
      (w != [] ==>
        |w| >= 2 && w[|w| - 1].SendJson? && w[|w| - 2].SetStatus? &&
        forall i :: 0 <= i < |w| - 2 ==> w[i].SetCookie?)
  {
    var w := Written(headersSent, opts, request, outcome);
    if w != [] && outcome.Resolves? && outcome.response.DataAPIResponse? {
      var c := outcome.response.cookies.GetOr([]);
      assert w == CookieWrites(c) + [SetStatus(outcome.response.statusCode), SendJson(outcome.response.data)];
      forall i | 0 <= i < |w| - 2
        ensures w[i].SetCookie?
      {
        assert w[i] == CookieWrites(c)[i];
      }
    }
  }

  /** A route registered with `{}` (every `get` route, and a `post` route
      given no options) never takes the missing-body fast path. */
  lemma NoOptsNeverChecksBody(request: Request)
    ensures !BodyCheckFails(NoOpts, request)
  {
  }

  /** The body check fires exactly when `requireBody` is true and the
      request body is absent or falsy. */
  lemma BodyCheckCases(opts: RouteOpts, request: Request)
    ensures BodyCheckFails(opts, request) <==>
      opts.requireBody == Some(true) &&
      (request.body == None || request.body == Some(JNull) || request.body == Some(JBool(false)) ||
       request.body == Some(JNumber(0)) || request.body == Some(JString("")))
  {
  }

  /** An error envelope writes its status and then its bare `{code, message}`,
      and sets no cookie. */
  lemma ErrorEnvelopeWrites(opts: RouteOpts, request: Request, code: int, e: ApiError)
    requires Invokes(false, opts, request)
    ensures Written(false, opts, request, Resolves(ErrorAPIResponse(code, e))) ==
      [SetStatus(code), SendJson(JObject([("code", JString(e.code)), ("message", JString(e.message))]))]
  {
  }

  /** A data envelope sets each of its cookies exactly once, in key order,
      with its value and options, before writing its status and its data. */
  lemma {:induction false} DataEnvelopeWrites(opts: RouteOpts, request: Request, code: int, cookies: CookiesObject, data: Json)
    requires Invokes(false, opts, request)
    ensures var w := Written(false, opts, request, Resolves(DataAPIResponse(code, Some(cookies), data)));
      |w| == |cookies| + 2 &&
      (forall i :: 0 <= i < |cookies| ==>
        w[i] == SetCookie(cookies[i].0, cookies[i].1.value, cookies[i].1.options)) &&
      w[|cookies|..] == [SetStatus(code), SendJson(data)] &&
      (forall i, j :: 0 <= i < j < |w| && w[i].SetCookie? && w[j].SetCookie? ==> w[i].name != w[j].name)
  {
    var w := Written(false, opts, request, Resolves(DataAPIResponse(code, Some(cookies), data)));
    assert w == CookieWrites(cookies) + [SetStatus(code), SendJson(data)];
    forall i, j | 0 <= i < j < |w| && w[i].SetCookie? && w[j].SetCookie?
      ensures w[i].name != w[j].name
    {
      assert j < |cookies|;
      assert w[i] == CookieWrites(cookies)[i] && w[j] == CookieWrites(cookies)[j];
    }
  }

  /** A callback that throws leaves a 500 whose body nests the fixed code and
      the message built from the error's own message under `error`. */
  lemma UncaughtExceptionWrites(opts: RouteOpts, request: Request, message: string)
    requires Invokes(false, opts, request)
    ensures Written(false, opts, request, Rejects(message)) ==
      [SetStatus(500), SendJson(JObject([("error", JObject([
        ("code", JString("uncaught-exception")),
        ("message", JString("An uncaught exception was thrown: " + message))]))]))]
  {
  }

  /** The Express response, as the writes made on it so far. */
  class Response {
    var headersSent: bool
    var actions: seq<Action>

    constructor (headersSent: bool)
      ensures this.headersSent == headersSent && actions == []
    {
      this.headersSent := headersSent;
      actions := [];
    }

    method Cookie(name: string, value: string, options: Json)
      modifies this
      ensures actions == old(actions) + [SetCookie(name, value, options)]
      ensures headersSent == old(headersSent)
    {
      actions := actions + [SetCookie(name, value, options)];
    }

    method Status(code: int)
      modifies this
      ensures actions == old(actions) + [SetStatus(code)]
      ensures headersSent == old(headersSent)
    {
      actions := actions + [SetStatus(code)];
    }

    /** Sending a body sends the headers. */
    method SendBody(body: Json)
      modifies this
      ensures actions == old(actions) + [SendJson(body)]
      ensures headersSent
    {
      actions := actions + [SendJson(body)];
      headersSent := true;
    }
  }

  /** The route's callback behind `executeCallback`, with the number of
      times it has been invoked. */
  class Callback {
    const outcome: Outcome
    var calls: nat

    constructor (outcome: Outcome)
      ensures this.outcome == outcome && calls == 0
    {
      this.outcome := outcome;
      calls := 0;
    }

    method Execute() returns (o: Outcome)
      modifies this
      ensures o == outcome && calls == old(calls) + 1
    {
      o := outcome;
      calls := calls + 1;
    }
  }

  /** The request handler that `wrapCallback(callback, opts)` returns,
      applied to one request and its response. The fast path for a missing
      body builds an error with the response helper and drops it, so it
      writes nothing. */
  method WrapCallback(callback: Callback, opts: RouteOpts, request: Request, response: Response)
    modifies callback, response
    ensures response.actions ==
      old(response.actions) + Written(old(response.headersSent), opts, request, callback.outcome)
    ensures response.headersSent ==
      (old(response.headersSent) || Written(old(response.headersSent), opts, request, callback.outcome) != [])
    ensures callback.calls ==
      old(callback.calls) + if Invokes(old(response.headersSent), opts, request) then 1 else 0
  {
    if response.headersSent {
      return;
    }
    if BodyCheckFails(opts, request) {
      return;
    }
    var outcome := callback.Execute();
    match outcome {
      case Rejects(message) =>
        response.Status(500);
        response.SendBody(UncaughtJson(message));
      case Resolves(ErrorAPIResponse(code, e)) =>
        response.Status(code);
        response.SendBody(ErrorJson(e));
      case Resolves(DataAPIResponse(code, cookies, data)) =>
        if cookies.Some? {
          var keys := cookies.value;
          for i := 0 to |keys|
            invariant response.actions == old(response.actions) + CookieWrites(keys[..i])
            invariant !response.headersSent
            invariant callback.calls == old(callback.calls) + 1
          {
            CookieWritesSnoc(keys[..i], keys[i]);
            assert keys[..i + 1] == keys[..i] + [keys[i]];
            response.Cookie(keys[i].0, keys[i].1.value, keys[i].1.options);
          }
          assert keys[..|keys|] == keys;
        }
        response.Status(code);
        response.SendBody(data);
    }
  }

  lemma {:induction false} CookieWritesSnoc(c: seq<(string, CookieDetails)>, entry: (string, CookieDetails))
    ensures CookieWrites(c + [entry]) == CookieWrites(c) + [SetCookie(entry.0, entry.1.value, entry.1.options)]
  {
    if c != [] {
      assert (c + [entry])[1..] == c[1..] + [entry];
      CookieWritesSnoc(c[1..], entry);
    }
  }

  datatype Verb = HttpGet | HttpPost

  /** A registered route: its verb, path, callback and options. */
  datatype Route = Route(verb: Verb, path: string, callback: Callback, opts: RouteOpts)

  /** The router, as the routes registered on it in order. */
  class ApiRouter {
    var routes: seq<Route>

    constructor ()
      ensures routes == []
    {
      routes := [];
    }

    /** `get` always registers with `{}`: no body is ever required. */
    method Get(apiPath: string, callback: Callback)
      modifies this
      ensures routes == old(routes) + [Route(HttpGet, apiPath, callback, NoOpts)]
    {
      routes := routes + [Route(HttpGet, apiPath, callback, NoOpts)];
    }

    /** `post` registers with the given options, `{}` when none are given. */
    method Post(apiPath: string, callback: Callback, opts: Option<RouteOpts>)
      modifies this
      ensures routes == old(routes) + [Route(HttpPost, apiPath, callback, opts.GetOr(NoOpts))]
    {
      routes := routes + [Route(HttpPost, apiPath, callback, opts.GetOr(NoOpts))];
    }
  }
}
