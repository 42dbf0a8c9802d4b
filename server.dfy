/**
 * The server: the list of middlewares `use` appends to, the shared-cursor
 * chain `executeMiddlewares` runs, the router middleware the chain may
 * contain, and the error / 404 / status policy of `handleRequest`, which
 * ends in the response record handed to the transport.
 *
 * Middlewares, route handlers and the error hook are user code; here they
 * are scripts of calls into the context module, `throw`s and (for
 * middlewares) calls of `next()`, all synchronous and each awaited.
 */
module Server {
  import opened Common
  import opened JsValues
  import opened Context
  import opened Router

  /** One call a handler makes. */
  datatype Effect =
    | SetSlot(key: Key, v: Value)                             // `setContextValue` or a generated setter
    | SetHeader(name: string, value: HeaderValue)             // `setResponseHeader(name, value)`
    | Respond(json: seq<(string, Json)>, status: Option<int>)  // `respondJson(json, status?)`
    | Fail(message: string)                                   // `throw new Error(message)`

  /** A route handler or the `onError` hook: its calls in order. */
  type Handler = seq<Effect>

  /** One step of a middleware: a call, or a call of its `next` continuation. */
  datatype Step = Do(effect: Effect) | CallNext

  /** What `use` accepts: a middleware script, or `router.middleware()` for a router. */
  datatype Middleware = Script(steps: seq<Step>) | RouterMiddleware(router: Router<Handler>)

  /** The message of the TypeError raised when the request slot holds nothing to destructure. */
  const RequestNotDestructurable := "Cannot destructure property 'method' of the request object"
  const InternalServerError := "Internal server error"
  const NotFound := "Not found"

  /** One effect on the context. */
  function Apply(st: ContextState, e: Effect): Change
  {
    match e
    case SetSlot(k, v) => Change(Stored(st, k, v), Returned)
    case SetHeader(n, v) => HeaderSet(st, n, v)
    case Respond(j, s) => RespondedJson(st, j, s)
    case Fail(m) => Change(st, Threw(m))
  }

  /** A handler's calls in order, up to and including the first that throws. */
  function Effects(st: ContextState, h: Handler): Change
    decreases |h|
  {
    if |h| == 0 then Change(st, Returned)
    else
      var c := Apply(st, h[0]);
      if c.outcome.Threw? then c else Effects(c.state, h[1..])
  }

  /** The routers the middlewares read at request time. */
  function Routers(mws: seq<Middleware>): set<Router<Handler>>
  {
    set i | 0 <= i < |mws| && mws[i].RouterMiddleware? :: mws[i].router
  }

  /**
   * The chain's state: the context, the shared `middlewareNumber` cursor
   * (incremented once per `next()` call) and, as a record of the run, the
   * indices of the middlewares started, in order.
   */
  datatype ChainState = ChainState(ctx: ContextState, cursor: nat, ran: seq<nat>)

  /** A chain state after some code ran, and whether that code threw. */
  datatype Flow = Flow(state: ChainState, outcome: Outcome)

  function Min(a: int, b: int): int
  {
    if a <= b then a else b
  }

  /** The indices `0 .. k-1` in order. */
  function Indices(k: nat): (s: seq<nat>)
    ensures |s| == k && forall i :: 0 <= i < k ==> s[i] == i
  {
    seq(k, i => i)
  }

  lemma IndicesSnoc(k: nat)
    ensures Indices(k) + [k] == Indices(k + 1)
  {
    assert forall i :: 0 <= i < k + 1 ==> (Indices(k) + [k])[i] == i;
  }

  /**
   * The run so far is the prefix of the list up to the cursor: exactly the
   * middlewares `0 .. min(cursor, n-1)` have started, in order.
   */
  predicate Coherent(s: ChainState, n: nat)
  {
    s.ran == Indices(Min(s.cursor + 1, n))
  }

  /** What is left of the list past the cursor (the termination measure of the chain). */
  function Budget(n: nat, cursor: nat): nat
  {
    if cursor < n then n - cursor else 0
  }

  /**
   * `nextMiddleware()`: advance the shared cursor; run the middleware now
   * under it if there is one, otherwise return `undefined` at once.
   */
  function NextFlow(mws: seq<Middleware>, s: ChainState): (f: Flow)
    reads Routers(mws)
    ensures f.state.cursor > s.cursor
    ensures Coherent(s, |mws|) ==> Coherent(f.state, |mws|)
    ensures s.cursor + 1 >= |mws| ==> f == Flow(s.(cursor := s.cursor + 1), Returned)
    decreases Budget(|mws|, s.cursor), 1, 0
  {
    var s' := s.(cursor := s.cursor + 1);
    if s'.cursor < |mws| then StageFlow(mws, s') else Flow(s', Returned)
  }

  /** Start the middleware under the cursor, handing it `nextMiddleware`. */
  function StageFlow(mws: seq<Middleware>, s: ChainState): (f: Flow)
    requires s.cursor < |mws|
    reads Routers(mws)
    ensures f.state.cursor >= s.cursor
    ensures s.ran == Indices(s.cursor) ==> Coherent(f.state, |mws|)
    decreases Budget(|mws|, s.cursor), 3, 0
  {
    IndicesSnoc(s.cursor);
    var s' := s.(ran := s.ran + [s.cursor]);
    match mws[s.cursor]
    case Script(steps) => ScriptFlow(mws, steps, s')
    case RouterMiddleware(r) => RouterFlow(mws, r, s')
  }

  /** A middleware script: its steps in order, up to and including the first that throws. */
  function ScriptFlow(mws: seq<Middleware>, steps: seq<Step>, s: ChainState): (f: Flow)
    reads Routers(mws)
    ensures f.state.cursor >= s.cursor
    ensures Coherent(s, |mws|) ==> Coherent(f.state, |mws|)
    decreases Budget(|mws|, s.cursor), 2, |steps|
  {
    if |steps| == 0 then Flow(s, Returned)
    else
      match steps[0]
      case Do(e) =>
        var c := Apply(s.ctx, e);
        if c.outcome.Threw? then Flow(s.(ctx := c.state), c.outcome)
        else ScriptFlow(mws, steps[1..], s.(ctx := c.state))
      case CallNext =>
        var f := NextFlow(mws, s);
        if f.outcome.Threw? then f else ScriptFlow(mws, steps[1..], f.state)
  }

  /** A route handler, run on the context; it never calls `next`. */
  function HandlerFlow(h: Handler, s: ChainState): (f: Flow)
  {
    var c := Effects(s.ctx, h);
    Flow(s.(ctx := c.state), c.outcome)
  }

  /**
   * The middleware `router.middleware()` returns. The request is read from
   * the context: nothing there makes the destructuring throw, and a request
   * without a method goes to `next()`. An exact-table hit runs its handler
   * outside any `try`, so its throw escapes. Otherwise the trie is walked
   * inside a `try`: a walk that fails calls `next()`; a walk that completes
   * stores the params, then runs the handler found or else `next()`, and a
   * throw from either calls `next()` once more.
   */
  function RouterFlow(mws: seq<Middleware>, r: Router<Handler>, s: ChainState): (f: Flow)
    requires r in Routers(mws)
    reads Routers(mws)
    ensures f.state.cursor >= s.cursor
    ensures Coherent(s, |mws|) ==> Coherent(f.state, |mws|)
    decreases Budget(|mws|, s.cursor), 2, 0
  {
    var request := Getter(s.ctx, RequestKey, Undefined);
    if !Truthy(request) then Flow(s, Threw(RequestNotDestructurable))
    else if !request.RequestHandle? then NextFlow(mws, s)
    else
      match Lookup(r.simple, r.complex, request.verb, request.url)
      case NoMethod => NextFlow(mws, s)
      case SimpleHit(h) => HandlerFlow(h, s)
      case WalkFailed => NextFlow(mws, s)
      case Walked(handler, params) => WalkedFlow(mws, handler, params, s)
  }

  /**
   * A completed trie walk: the params are stored, then the handler found
   * runs, or `next()` when there is none; a throw from either calls
   * `next()` once more.
   */
  function WalkedFlow(mws: seq<Middleware>, handler: Option<Handler>, params: map<string, string>, s: ChainState): (f: Flow)
    reads Routers(mws)
    ensures f.state.cursor >= s.cursor
    ensures Coherent(s, |mws|) ==> Coherent(f.state, |mws|)
    decreases Budget(|mws|, s.cursor), 1, 1
  {
    var s' := s.(ctx := Stored(s.ctx, RouteParamsKey, ParamRecord(params)));
    var tried := if handler.Some? then HandlerFlow(handler.value, s') else NextFlow(mws, s');
    if tried.outcome.Threw? then NextFlow(mws, tried.state) else tried
  }

  /**
   * `executeMiddlewares(mws)`: nothing for an empty list; otherwise the
   * first middleware runs with the cursor at 0. However the middlewares
   * call `next()`, the ones that ran are `0, 1, ...` in order, and their
   * number is one more than the number of `next()` calls, capped at the
   * length of the list.
   */
  function ChainFlow(mws: seq<Middleware>, ctx: ContextState): (f: Flow)
    reads Routers(mws)
    ensures f.state.ran == Indices(Min(|mws|, f.state.cursor + 1))
    ensures |f.state.ran| == Min(|mws|, f.state.cursor + 1)
    ensures |mws| == 0 ==> f == Flow(ChainState(ctx, 0, []), Returned)
  {
    if |mws| == 0 then Flow(ChainState(ctx, 0, []), Returned)
    else StageFlow(mws, ChainState(ctx, 0, []))
  }

  /** A middleware that never calls `next` leaves the cursor where it found it. */
  lemma {:induction false} ScriptWithoutNext(mws: seq<Middleware>, steps: seq<Step>, s: ChainState)
    requires CallNext !in steps
    ensures ScriptFlow(mws, steps, s).state.cursor == s.cursor
    ensures ScriptFlow(mws, steps, s).state.ran == s.ran
  {
    if |steps| > 0 {
      assert steps[0] in steps;
      assert steps[0].Do?;
      var c := Apply(s.ctx, steps[0].effect);
      if c.outcome.Returned? {
        assert forall x :: x in steps[1..] ==> x in steps;
        ScriptWithoutNext(mws, steps[1..], s.(ctx := c.state));
      }
    }
  }

  /**
   * A middleware that never calls `next` stops the chain: when the first
   * middleware is such a script, it is the only one that runs, however long
   * the list.
   */
  lemma HaltingFirstMiddleware(mws: seq<Middleware>, ctx: ContextState)
    requires |mws| > 0 && mws[0].Script? && CallNext !in mws[0].steps
    ensures ChainFlow(mws, ctx).state.ran == [0]
    ensures ChainFlow(mws, ctx).state.cursor == 0
  {
    assert [] + [0] == [0];
    assert ChainFlow(mws, ctx) == ScriptFlow(mws, mws[0].steps, ChainState(ctx, 0, [0]));
    ScriptWithoutNext(mws, mws[0].steps, ChainState(ctx, 0, [0]));
  }

  /** An exact-table hit runs only its handler: no params are stored, `next` is not called, a throw escapes. */
  lemma SimpleHitRunsOnlyItsHandler(mws: seq<Middleware>, r: Router<Handler>, s: ChainState, h: Handler)
    requires r in Routers(mws)
    requires Getter(s.ctx, RequestKey, Undefined).RequestHandle?
    requires var req := Getter(s.ctx, RequestKey, Undefined);
             Lookup(r.simple, r.complex, req.verb, req.url) == SimpleHit(h)
    ensures var f := RouterFlow(mws, r, s);
            && f.state == s.(ctx := Effects(s.ctx, h).state)
            && f.outcome == Effects(s.ctx, h).outcome
  {
  }

  /**
   * A trie-matched handler that throws is swallowed: the params stay
   * stored, what the handler did before throwing stays done, and `next()`
   * runs.
   */
  lemma TrieHandlerThrowFallsThrough(mws: seq<Middleware>, r: Router<Handler>, s: ChainState, h: Handler, params: map<string, string>)
    requires r in Routers(mws)
    requires Getter(s.ctx, RequestKey, Undefined).RequestHandle?
    requires var req := Getter(s.ctx, RequestKey, Undefined);
             Lookup(r.simple, r.complex, req.verb, req.url) == Walked(Some(h), params)
    requires Effects(Stored(s.ctx, RouteParamsKey, ParamRecord(params)), h).outcome.Threw?
    ensures var c := Effects(Stored(s.ctx, RouteParamsKey, ParamRecord(params)), h);
            RouterFlow(mws, r, s) == NextFlow(mws, s.(ctx := c.state))
  {
  }

  /** No route for the request: the router middleware passes the request on by calling `next()`. */
  lemma UnroutedRequestCallsNext(mws: seq<Middleware>, r: Router<Handler>, s: ChainState)
    requires r in Routers(mws)
    requires var req := Getter(s.ctx, RequestKey, Undefined);
             && req.RequestHandle?
             && var d := Lookup(r.simple, r.complex, req.verb, req.url);
                d.NoMethod? || d.WalkFailed? || (d.Walked? && d.handler.None?)
    ensures RouterFlow(mws, r, s).state.cursor > s.cursor
    ensures var req := Getter(s.ctx, RequestKey, Undefined);
            var d := Lookup(r.simple, r.complex, req.verb, req.url);
            !d.Walked? ==> RouterFlow(mws, r, s) == NextFlow(mws, s)
    ensures var req := Getter(s.ctx, RequestKey, Undefined);
            var d := Lookup(r.simple, r.complex, req.verb, req.url);
            d.Walked? ==>
              var f := NextFlow(mws, s.(ctx := Stored(s.ctx, RouteParamsKey, ParamRecord(d.params))));
              RouterFlow(mws, r, s) == if f.outcome.Threw? then NextFlow(mws, f.state) else f
  {
  }

  /** A response as handed to the transport: status, headers in `Map` order, body. */
  datatype Response = Response(status: Value, headers: HeaderEntries, body: Value)

  /** The context after a request, and the response sent (None when finalisation threw before `end`). */
  datatype Exchange = Exchange(state: ContextState, response: Option<Response>)

  /** The stored headers value is one `setResponseHeader` and `forEach` can work on. */
  predicate HeadersUsable(st: ContextState)
  {
    var v := ContextValue(st, ResponseHeadersKey);
    !Truthy(v) || v.HeaderMap?
  }

  /** The JSON body `{"message": m}`. */
  function MessageBody(m: string): seq<(string, Json)>
  {
    [("message", JString(m))]
  }

  /**
   * The outer `catch` of `handleRequest`: status 500 unless a status is
   * set, then the error's message (or the generic text when it is empty)
   * as the JSON body unless a body is set.
   */
  function Recovered(st: ContextState, message: string): Change
  {
    var st1 := if !Truthy(ContextValue(st, StatusCodeKey)) then Stored(st, StatusCodeKey, Num(500)) else st;
    if !Truthy(ContextValue(st1, ResponseBodyKey)) then
      RespondedJson(st1, MessageBody(if message != "" then message else InternalServerError), None)
    else Change(st1, Returned)
  }

  /**
   * The `finally` of `handleRequest`: with neither body nor status set,
   * `respondJson({message: "Not found"}, 404)`; then the status (200 when
   * unset or 0), the headers of the `Map` in effect in insertion order, and
   * the body go out. A throw on the way means nothing is sent.
   */
  function Finalised(st: ContextState): Exchange
  {
    var unanswered := !Truthy(ContextValue(st, ResponseBodyKey)) && !Truthy(ContextValue(st, StatusCodeKey));
    var c := if unanswered then RespondedJson(st, MessageBody(NotFound), Some(404)) else Change(st, Returned);
    var headers := ResponseHeaders(c.state);
    if c.outcome.Threw? || !headers.HeaderMap? then Exchange(c.state, None)
    else
      Exchange(c.state, Some(Response(Or(ContextValue(c.state, StatusCodeKey), Num(200)),
                                      headers.entries,
                                      Getter(c.state, ResponseBodyKey, Undefined))))
  }

  /**
   * The context after the two `try` blocks: unchanged if the chain
   * returned; after a throw, the hook's calls when there is a hook, and the
   * outer `catch` when there is none or the hook threw in turn.
   */
  function Settled(ctx: ContextState, o: Outcome, hook: Option<Handler>): ContextState
  {
    if o.Returned? then ctx
    else if hook.Some? then
      var c := Effects(ctx, hook.value);
      if c.outcome.Threw? then Recovered(c.state, c.outcome.message).state else c.state
    else Recovered(ctx, o.message).state
  }

  /** Entering the request: a fresh scope holding the request id, the request and the response. */
  function Opened(st: ContextState, request: Value, response: Value, id: string): (ctx: ContextState)
    ensures ctx.sharedHeaders == st.sharedHeaders
    ensures ctx.scope == Some(map[RequestIdKey := Str(id), RequestKey := request, ResponseKey := response])
  {
    var entered := ContextState(Some(map[]), st.sharedHeaders);
    Stored(Stored(Stored(entered, RequestIdKey, Str(id)), RequestKey, request), ResponseKey, response)
  }

  /** `handleRequest`: open the scope, run the chain, apply the policy, finalise, leave the scope. */
  function Handled(mws: seq<Middleware>, hook: Option<Handler>, st: ContextState, request: Value, response: Value, id: string): Exchange
    reads Routers(mws)
  {
    var f := ChainFlow(mws, Opened(st, request, response, id));
    var x := Finalised(Settled(f.state.ctx, f.outcome, hook));
    Exchange(x.state.(scope := st.scope), x.response)
  }

  /**
   * The outer `catch` sets status 500 only when no status is set, and the
   * `{"message": ...}` body only when no body is set, using the error's
   * message or, when that is empty, "Internal server error".
   */
  lemma RecoveryRule(st: ContextState, message: string)
    requires st.scope.Some? && HeadersUsable(st)
    ensures var c := Recovered(st, message);
            var status := ContextValue(st, StatusCodeKey);
            var body := ContextValue(st, ResponseBodyKey);
            && c.outcome == Returned
            && HeadersUsable(c.state)
            && ContextValue(c.state, StatusCodeKey) == (if Truthy(status) then status else Num(500))
            && ContextValue(c.state, ResponseBodyKey)
               == (if Truthy(body) then body
                   else Serialized(JObject(MessageBody(if message != "" then message else InternalServerError))))
  {
    var st1 := if !Truthy(ContextValue(st, StatusCodeKey)) then Stored(st, StatusCodeKey, Num(500)) else st;
    assert ContextValue(st1, ResponseBodyKey) == ContextValue(st, ResponseBodyKey);
    assert ContextValue(st1, ResponseHeadersKey) == ContextValue(st, ResponseHeadersKey);
    if !Truthy(ContextValue(st1, ResponseBodyKey)) {
      var m := if message != "" then message else InternalServerError;
      RespondJsonEffect(st1, MessageBody(m), None);
    }
  }

  /**
   * Neither body nor status set at the end: the response is 404 with the
   * `{"message":"Not found"}` body and `Content-Type: application/json`
   * added to the headers in effect.
   */
  lemma NotFoundRule(st: ContextState)
    requires st.scope.Some? && HeadersUsable(st)
    requires !Truthy(ContextValue(st, ResponseBodyKey)) && !Truthy(ContextValue(st, StatusCodeKey))
    ensures Finalised(st).response
            == Some(Response(Num(404), MapSet(EntriesInEffect(st), "Content-Type", JsonContentType),
                             Serialized(JObject(MessageBody(NotFound)))))
  {
    RespondJsonEffect(st, MessageBody(NotFound), Some(404));
    HeaderSetEntries(Stored(Stored(st, ResponseBodyKey, Serialized(JObject(MessageBody(NotFound)))), StatusCodeKey, Num(404)),
                     "Content-Type", JsonContentType);
  }

  /**
   * A body or a status set at the end: nothing more is written; the status
   * is the stored one, or 200 when it is unset or 0, and the stored body and
   * the headers in effect go out.
   */
  lemma AnsweredRule(st: ContextState)
    requires HeadersUsable(st)
    requires Truthy(ContextValue(st, ResponseBodyKey)) || Truthy(ContextValue(st, StatusCodeKey))
    ensures Finalised(st).state == st
    ensures Finalised(st).response
            == Some(Response(if Truthy(ContextValue(st, StatusCodeKey)) then ContextValue(st, StatusCodeKey) else Num(200),
                             EntriesInEffect(st),
                             Getter(st, ResponseBodyKey, Undefined)))
  {
  }

  /** A stored headers value without `set`/`forEach` makes finalisation throw: no response is sent. */
  lemma UnusableHeadersSendNothing(st: ContextState)
    requires !HeadersUsable(st)
    ensures Finalised(st).response == None
  {
  }

  /** With no middlewares, every request is answered 404 `{"message":"Not found"}`, JSON. */
  lemma NoMiddlewaresIsNotFound(st: ContextState, request: Value, response: Value, id: string)
    ensures Handled([], None, st, request, response, id).response
            == Some(Response(Num(404), MapSet(st.sharedHeaders, "Content-Type", JsonContentType),
                             Serialized(JObject(MessageBody(NotFound)))))
  {
    var ctx := Opened(st, request, response, id);
    assert ContextValue(ctx, ResponseHeadersKey) == Undefined;
    NotFoundRule(ctx);
  }

  /**
   * With no headers `Map` stored, `Content-Type` goes into the module-level
   * default `Map`, which every later request then sends as well.
   */
  lemma NotFoundHeaderLeaks(st: ContextState, request: Value, response: Value, id: string)
    ensures Handled([], None, st, request, response, id).state.sharedHeaders
            == MapSet(st.sharedHeaders, "Content-Type", JsonContentType)
    ensures Handled([], None, st, request, response, id).state.scope == st.scope
  {
    var ctx := Opened(st, request, response, id);
    assert ContextValue(ctx, ResponseHeadersKey) == Undefined;
    assert !Truthy(ContextValue(ctx, ResponseBodyKey)) && !Truthy(ContextValue(ctx, StatusCodeKey));
    var withStatus := Stored(Stored(ctx, ResponseBodyKey, Serialized(JObject(MessageBody(NotFound)))), StatusCodeKey, Num(404));
    assert ContextValue(withStatus, ResponseHeadersKey) == Undefined;
    assert Finalised(ctx).state == HeaderSet(withStatus, "Content-Type", JsonContentType).state;
  }

  /**
   * The chain threw with no hook configured: if it had set neither body
   * nor status, the response is 500 with the error's message (or the
   * generic text) as `{"message": ...}`.
   */
  lemma UnhandledErrorIs500(f: Flow)
    requires f.outcome.Threw? && f.state.ctx.scope.Some? && HeadersUsable(f.state.ctx)
    requires !Truthy(ContextValue(f.state.ctx, ResponseBodyKey)) && !Truthy(ContextValue(f.state.ctx, StatusCodeKey))
    ensures var m := if f.outcome.message != "" then f.outcome.message else InternalServerError;
            var r := Finalised(Settled(f.state.ctx, f.outcome, None)).response;
            && r.Some?
            && r.value.status == Num(500)
            && r.value.body == Serialized(JObject(MessageBody(m)))
  {
    RecoveryRule(f.state.ctx, f.outcome.message);
    AnsweredRule(Settled(f.state.ctx, f.outcome, None));
  }

  /** The hook answered (it set a body or a status and did not throw): its answer is the response. */
  lemma HookAnswerStands(f: Flow, hook: Handler)
    requires f.outcome.Threw?
    requires var c := Effects(f.state.ctx, hook);
             && c.outcome.Returned? && HeadersUsable(c.state)
             && (Truthy(ContextValue(c.state, ResponseBodyKey)) || Truthy(ContextValue(c.state, StatusCodeKey)))
    ensures var c := Effects(f.state.ctx, hook);
            var status := ContextValue(c.state, StatusCodeKey);
            Finalised(Settled(f.state.ctx, f.outcome, Some(hook))).response
            == Some(Response(if Truthy(status) then status else Num(200), EntriesInEffect(c.state),
                             Getter(c.state, ResponseBodyKey, Undefined)))
  {
    AnsweredRule(Effects(f.state.ctx, hook).state);
  }

  /** The hook threw: the outer `catch` applies to the hook's error, on top of what the hook did. */
  lemma HookThrowFallsBackTo500(f: Flow, hook: Handler)
    requires f.outcome.Threw?
    requires var c := Effects(f.state.ctx, hook);
             && c.outcome.Threw? && c.state.scope.Some? && HeadersUsable(c.state)
             && !Truthy(ContextValue(c.state, StatusCodeKey))
    ensures var c := Effects(f.state.ctx, hook);
            var r := Finalised(Settled(f.state.ctx, f.outcome, Some(hook))).response;
            var body := ContextValue(c.state, ResponseBodyKey);
            var m := if c.outcome.message != "" then c.outcome.message else InternalServerError;
            && r.Some? && r.value.status == Num(500)
            && r.value.body == if Truthy(body) then body else Serialized(JObject(MessageBody(m)))
  {
    var c := Effects(f.state.ctx, hook);
    RecoveryRule(c.state, c.outcome.message);
    AnsweredRule(Settled(f.state.ctx, f.outcome, Some(hook)));
  }

  /** The hook neither answered nor threw: the 404 rule applies. */
  lemma SilentHookIsNotFound(f: Flow, hook: Handler)
    requires f.outcome.Threw?
    requires var c := Effects(f.state.ctx, hook);
             && c.outcome.Returned? && c.state.scope.Some? && HeadersUsable(c.state)
             && !Truthy(ContextValue(c.state, ResponseBodyKey)) && !Truthy(ContextValue(c.state, StatusCodeKey))
    ensures var r := Finalised(Settled(f.state.ctx, f.outcome, Some(hook))).response;
            r.Some? && r.value.status == Num(404) && r.value.body == Serialized(JObject(MessageBody(NotFound)))
  {
    NotFoundRule(Effects(f.state.ctx, hook).state);
  }

  /**
   * A middleware's call `respondJson(json, 201)` is the response: status
   * 201 and the serialised body.
   */
  lemma MiddlewareAnswer(st: ContextState, request: Value, response: Value, id: string, json: seq<(string, Json)>)
    ensures var r := Handled([Script([Do(Respond(json, Some(201)))])], None, st, request, response, id).response;
            && r.Some? && r.value.status == Num(201) && r.value.body == Serialized(JObject(json))
            && r.value.headers == MapSet(st.sharedHeaders, "Content-Type", JsonContentType)
  {
    var ctx := Opened(st, request, response, id);
    var c := RespondedJson(ctx, json, Some(201));
    assert EntriesInEffect(ctx) == st.sharedHeaders by {
      assert ContextValue(ctx, ResponseHeadersKey) == Undefined;
    }
    assert HeadersUsable(c.state) && ContextValue(c.state, StatusCodeKey) == Num(201)
        && Getter(c.state, ResponseBodyKey, Undefined) == Serialized(JObject(json))
        && EntriesInEffect(c.state) == MapSet(st.sharedHeaders, "Content-Type", JsonContentType) by {
      assert ContextValue(ctx, ResponseHeadersKey) == Undefined;
      RespondJsonEffect(ctx, json, Some(201));
      assert ContextValue(c.state, ResponseHeadersKey) == Undefined;
    }
    var f := ChainFlow([Script([Do(Respond(json, Some(201)))])], ctx);
    assert f.state.ctx == c.state by {
      RespondingScript(ctx, json, Some(201));
    }
    AnsweredRule(c.state);
  }

  /** A lone middleware that only calls `respondJson` leaves the context `respondJson` gives. */
  lemma RespondingScript(ctx: ContextState, json: seq<(string, Json)>, status: Option<int>)
    requires RespondedJson(ctx, json, status).outcome.Returned?
    ensures ChainFlow([Script([Do(Respond(json, status))])], ctx).state.ctx == RespondedJson(ctx, json, status).state
  {
    var mws := [Script([Do(Respond(json, status))])];
    var s0 := ChainState(ctx, 0, [0]);
    var c := RespondedJson(ctx, json, status);
    assert ScriptFlow(mws, [], s0.(ctx := c.state)) == Flow(s0.(ctx := c.state), Returned);
    assert [] + [0] == [0];
    assert mws[0].Script?;
    assert ChainFlow(mws, ctx) == ScriptFlow(mws, [Do(Respond(json, status))], s0);
    assert [Do(Respond(json, status))][1..] == [];
  }

  /** A middleware that throws `Error("Ooopsie")` with no hook configured yields 500 `{"message":"Ooopsie"}`. */
  lemma ThrowingMiddlewareIs500(st: ContextState, request: Value, response: Value, id: string)
    ensures var r := Handled([Script([Do(Fail("Ooopsie"))])], None, st, request, response, id).response;
            r.Some? && r.value.status == Num(500) && r.value.body == Serialized(JObject(MessageBody("Ooopsie")))
  {
    var mws := [Script([Do(Fail("Ooopsie"))])];
    var ctx := Opened(st, request, response, id);
    var f := ChainFlow(mws, ctx);
    assert [] + [0] == [0];
    assert mws[0].Script?;
    assert f == ScriptFlow(mws, [Do(Fail("Ooopsie"))], ChainState(ctx, 0, [0]));
    assert f.state.ctx == ctx && f.outcome == Threw("Ooopsie");
    assert ContextValue(ctx, ResponseHeadersKey) == Undefined;
    UnhandledErrorIs500(f);
  }

  /** The error hook's `respondJson({error: "Custom error"}, 501)` replaces the default 500. */
  lemma CustomErrorHook(st: ContextState, request: Value, response: Value, id: string)
    ensures var hook := [Respond([("error", JString("Custom error"))], Some(501))];
            var r := Handled([Script([Do(Fail("???why"))])], Some(hook), st, request, response, id).response;
            r.Some? && r.value.status == Num(501)
            && r.value.body == Serialized(JObject([("error", JString("Custom error"))]))
  {
    var hook := [Respond([("error", JString("Custom error"))], Some(501))];
    var mws := [Script([Do(Fail("???why"))])];
    var ctx := Opened(st, request, response, id);
    var f := ChainFlow(mws, ctx);
    assert [] + [0] == [0];
    assert mws[0].Script?;
    assert f == ScriptFlow(mws, [Do(Fail("???why"))], ChainState(ctx, 0, [0]));
    assert f.state.ctx == ctx && f.outcome == Threw("???why");
    assert ContextValue(ctx, ResponseHeadersKey) == Undefined;
    RespondJsonEffect(ctx, [("error", JString("Custom error"))], Some(501));
    assert Effects(ctx, hook) == RespondedJson(ctx, [("error", JString("Custom error"))], Some(501));
    HookAnswerStands(f, hook);
  }

  /** One effect, carried out on the context store. */
  method ApplyEffect(store: ContextStore, e: Effect) returns (o: Outcome)
    modifies store
    ensures Change(store.State(), o) == Apply(old(store.State()), e)
  {
    match e
    case SetSlot(k, v) =>
      store.SetContextValue(k, v);
      o := Returned;
    case SetHeader(n, v) =>
      o := store.SetResponseHeader(n, v);
    case Respond(j, s) =>
      o := store.RespondJson(j, s);
    case Fail(m) =>
      o := Threw(m);
  }

  /** A handler's calls, carried out in order until one throws. */
  method RunHandler(store: ContextStore, h: Handler) returns (o: Outcome)
    modifies store
    ensures Change(store.State(), o) == Effects(old(store.State()), h)
  {
    var i := 0;
    o := Returned;
    while i < |h|
      invariant 0 <= i <= |h|
      invariant Effects(old(store.State()), h) == Effects(store.State(), h[i..])
    {
      assert h[i..][1..] == h[i + 1..];
      o := ApplyEffect(store, h[i]);
      if o.Threw? {
        return;
      }
      i := i + 1;
    }
    o := Returned;
  }

  /**
   * One run of `executeMiddlewares`: the list, the context store, and the
   * `middlewareNumber` cursor every `nextMiddleware` closure shares.
   */
  class Chain {
    const middlewares: seq<Middleware>
    const store: ContextStore
    var cursor: nat
    ghost var ran: seq<nat>

    ghost function State(): ChainState
      reads this, store
    {
      ChainState(store.State(), cursor, ran)
    }

    constructor (middlewares: seq<Middleware>, store: ContextStore)
      ensures this.middlewares == middlewares && this.store == store
      ensures cursor == 0 && ran == []
    {
      this.middlewares := middlewares;
      this.store := store;
      cursor := 0;
      ran := [];
    }

    /** The routers the middlewares read are neither this run nor its store, so running changes no route. */
    lemma RoutersApart()
      ensures forall r :: r in Routers(middlewares) ==> (r as object) != (store as object) && (r as object) != (this as object)
    {
    }

    /** `executeMiddlewares(middlewares)`. */
    method Execute() returns (o: Outcome)
      requires cursor == 0 && ran == []
      modifies this, store
      ensures Flow(State(), o) == ChainFlow(middlewares, old(store.State()))
    {
      if |middlewares| == 0 {
        return Returned;
      }
      o := RunStage();
    }

    /** Call the middleware under the cursor with `nextMiddleware`. */
    method RunStage() returns (o: Outcome)
      requires cursor < |middlewares|
      modifies this, store
      ensures Flow(State(), o) == StageFlow(middlewares, old(State()))
      decreases Budget(|middlewares|, cursor), 3, 0
    {
      ran := ran + [cursor];
      match middlewares[cursor]
      case Script(steps) =>
        o := RunScript(steps);
      case RouterMiddleware(r) =>
        o := RunRouter(r);
    }

    /** `nextMiddleware()`. */
    method Next() returns (o: Outcome)
      modifies this, store
      ensures Flow(State(), o) == NextFlow(middlewares, old(State()))
      decreases Budget(|middlewares|, cursor), 1, 0
    {
      cursor := cursor + 1;
      if cursor < |middlewares| {
        o := RunStage();
      } else {
        o := Returned;
      }
    }

    /** A middleware script: its first step, then the rest unless the first threw. */
    method RunScript(steps: seq<Step>) returns (o: Outcome)
      modifies this, store
      ensures Flow(State(), o) == ScriptFlow(middlewares, steps, old(State()))
      decreases Budget(|middlewares|, cursor), 2, |steps|
    {
      if |steps| == 0 {
        return Returned;
      }
      RoutersApart();
      match steps[0] {
        case Do(e) =>
          o := ApplyEffect(store, e);
        case CallNext =>
          o := Next();
      }
      if o.Returned? {
        o := RunScript(steps[1..]);
      }
    }

    /** The router middleware for router `r`. */
    method RunRouter(r: Router<Handler>) returns (o: Outcome)
      requires r in Routers(middlewares)
      modifies this, store
      ensures Flow(State(), o) == RouterFlow(middlewares, r, old(State()))
      decreases Budget(|middlewares|, cursor), 2, 0
    {
      var request := store.Get(RequestKey, Undefined);
      if !Truthy(request) {
        return Threw(RequestNotDestructurable);
      }
      if !request.RequestHandle? {
        o := Next();
        return;
      }
      var d := r.Match(request.verb, request.url);
      match d
      case NoMethod =>
        o := Next();
      case SimpleHit(h) =>
        o := RunHandler(store, h);
      case WalkFailed =>
        o := Next();
      case Walked(handler, params) =>
        o := RunWalked(handler, params);
    }

    /** The `try` block after a completed trie walk. */
    method RunWalked(handler: Option<Handler>, params: map<string, string>) returns (o: Outcome)
      modifies this, store
      ensures Flow(State(), o) == WalkedFlow(middlewares, handler, params, old(State()))
      decreases Budget(|middlewares|, cursor), 1, 1
    {
      RoutersApart();
      store.SetContextValue(RouteParamsKey, ParamRecord(params));
      if handler.Some? {
        o := RunHandler(store, handler.value);
      } else {
        o := Next();
      }
      if o.Threw? {
        o := Next();
      }
    }
  }

  /** The outer `catch` of `handleRequest`, on the store. */
  method Recover(store: ContextStore, message: string) returns (o: Outcome)
    modifies store
    ensures Change(store.State(), o) == Recovered(old(store.State()), message)
  {
    if !Truthy(store.Get(StatusCodeKey, Undefined)) {
      store.SetContextValue(StatusCodeKey, Num(500));
    }
    if !Truthy(store.Get(ResponseBodyKey, Undefined)) {
      o := store.RespondJson(MessageBody(if message != "" then message else InternalServerError), None);
    } else {
      o := Returned;
    }
  }

  /** The two `try` blocks of `handleRequest` after the chain finished with outcome `o`. */
  method Settle(store: ContextStore, o: Outcome, hook: Option<Handler>)
    modifies store
    ensures store.State() == Settled(old(store.State()), o, hook)
  {
    if o.Threw? {
      var failure := o;
      if hook.Some? {
        failure := RunHandler(store, hook.value);
      }
      if failure.Threw? {
        var recovered := Recover(store, failure.message);
      }
    }
  }

  /** The `finally` of `handleRequest`, on the store; the response record replaces `res.statusCode`, `setHeader` and `end`. */
  method Finalise(store: ContextStore) returns (sent: Option<Response>)
    modifies store
    ensures Exchange(store.State(), sent) == Finalised(old(store.State()))
  {
    var o := Returned;
    if !Truthy(store.Get(ResponseBodyKey, Undefined)) && !Truthy(store.Get(StatusCodeKey, Undefined)) {
      o := store.RespondJson(MessageBody(NotFound), Some(404));
    }
    var headers := store.GetResponseHeaders();
    if o.Threw? || !headers.HeaderMap? {
      return None;
    }
    sent := Some(Response(Or(store.Get(StatusCodeKey, Undefined), Num(200)), headers.entries, store.Get(ResponseBodyKey, Undefined)));
  }

  /** What `createServer` returns: the middleware list and the configured `onError` hook. */
  class Server {
    var middlewares: seq<Middleware>
    const onError: Option<Handler>

    /** `createServer({onError})`: no middlewares yet. */
    constructor (onError: Option<Handler>)
      ensures middlewares == [] && this.onError == onError
    {
      middlewares := [];
      this.onError := onError;
    }

    /** `use(middleware)`: `push`, which returns the new length. */
    method Use(m: Middleware) returns (count: nat)
      modifies this
      ensures middlewares == old(middlewares) + [m]
      ensures count == |middlewares|
    {
      middlewares := middlewares + [m];
      count := |middlewares|;
    }

    /**
     * `handleRequest` for one request: `request` and `response` are the
     * transport's handles and `id` the value `randomUUID` produced.
     */
    method HandleRequest(store: ContextStore, request: Value, response: Value, id: string) returns (sent: Option<Response>)
      modifies store
      ensures Exchange(store.State(), sent) == Handled(middlewares, onError, old(store.State()), request, response, id)
    {
      assert forall r :: r in Routers(middlewares) ==> (r as object) != (store as object);
      ghost var st := store.State();
      var outer := store.Enter();
      store.SetContextValue(RequestIdKey, Str(id));
      store.SetContextValue(RequestKey, request);
      store.SetContextValue(ResponseKey, response);
      ghost var start := Opened(st, request, response, id);
      assert store.State() == start;
      var chain := new Chain(middlewares, store);
      var o := chain.Execute();
      ghost var f := ChainFlow(middlewares, start);
      assert Flow(chain.State(), o) == f;
      Settle(store, o, onError);
      // Hints: after each call that changes the store, restate that the
      // chain's flow (which reads the routers) is still the one recorded.
      assert ChainFlow(middlewares, start) == f;
      assert store.State() == Settled(f.state.ctx, f.outcome, onError);
      sent := Finalise(store);
      assert ChainFlow(middlewares, start) == f;
      store.Leave(outer);
      assert ChainFlow(middlewares, start) == f;
    }
  }
}
