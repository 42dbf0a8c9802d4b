# piu — a verified model of the request core

piu is a small HTTP toolkit for Node. A server keeps a list of
middlewares; each incoming request gets its own context scope holding
the request, the response and a random request id. The middlewares run
through a shared `next` cursor. Afterwards the server turns whatever the
middlewares left in the context into one HTTP response: a 500 for an
unhandled error, a 404 when nothing answered, and otherwise the stored
status, headers and body. A router is a middleware. It keeps an exact
table for patterns without `:params` and a per-method trie for patterns
with them. Two proxy utilities record property writes and calls, or give
a read-only view of an object.

This project models those four parts in Dafny and proves what they
promise.

- `text.dfy` (`Text`): URL normalisation, `split` and `join`, first
  occurrence, and decimal text for numeric property keys.
- `jsvalues.dfy` (`JsValues`): the JavaScript values the context stores,
  truthiness and `||`, and an insertion-ordered `Map` of response headers.
- `context.dfy` (`Context`): the per-request store as functions on a
  `ContextState`, and a `ContextStore` class whose methods update it in
  place.
  - There is one module-level default headers `Map`. The getter returns
    it whenever the headers value stored in the scope is falsy or absent,
    and it outlives every scope.
- `router.dfy` (`Router`): route registration and lookup.
  - The exact table and the trie.
  - The registration relation `Grows`, and the greedy trie walk
    `WalkFrom`.
  - A `Router` class whose `Handle` and `Match` methods are proved
    against those functions.
- `server.dfy` (`Server`): the middleware chain.
  - The chain is a family of mutually recursive flow functions
    (`ChainFlow`, `StageFlow`, `NextFlow`, `ScriptFlow`, `RouterFlow`,
    `WalkedFlow`) over a shared cursor.
  - A `Chain` class whose methods run it in place and are proved equal to
    those functions.
  - The error policy and finalisation (`Recovered`, `Settled`,
    `Finalised`, `Handled`).
  - A `Server` class with `Use` and `HandleRequest`.
- `proxy.dfy` (`Proxy`): the recording super-proxy and the read-only
  proxy. Both are classes over a shared path array and a mutable
  recorder, so the aliasing of the path array is visible.

Middlewares and handlers are user code, so they are modelled as data:
- A route handler is a list of context effects: set a value, set a
  header, `respondJson`, throw.
- A middleware is either a script of such effects interleaved with calls
  to `next`, or a router.

## Model

| member | source | states |
|---|---|---|
| Text.NormalizeUrl | src/router.ts:149-151 | The result is the URL without one leading slash and one trailing slash, and is at most two characters shorter. |
| Text.NormalizeKeepsColons | src/router.ts:37-39 | Normalising does not add or remove a `:`, so the simple-or-trie decision is the same before and after. |
| Text.Split | src/router.ts:47 | Splitting always yields at least one piece, and no piece contains the separator. |
| Text.JoinSplit | src/router.ts:47 | Joining the pieces of a split with the same separator gives back the original string. |
| Text.SplitJoin | src/utils/proxy.ts:36 | Splitting the join of a non-empty list of separator-free pieces gives back the pieces; a piece may itself be empty. |
| Text.Join | src/utils/proxy.ts:36 | No contract of its own: `paths.join(".")`. `JoinSplit` and `SplitJoin` state that it inverts `Split`. |
| Text.IndexOf | src/router.ts:130 | The index found holds the character, and no earlier position does. |
| Text.RemoveFirst | src/router.ts:130 | Removing the first `:` deletes exactly the first occurrence and keeps the other characters in order; a segment without `:` is unchanged. |
| Text.DecimalText | src/utils/proxy.ts:13 | The text of a numeric key is all digits, with no leading zero unless the key is 0. |
| Text.DecimalRoundTrip | src/utils/proxy.ts:13 | Reading the decimal text of a natural number back gives the number. |
| JsValues.Or | src/context.ts:61 | `a \|\| b` is `a` when `a` is truthy, and `b` otherwise. |
| JsValues.Truthy | src/context.ts:61 | No contract of its own: JavaScript truthiness, where `undefined`, `null`, `false`, `0` and `""` are falsy. `Or`, `Getter` and the server rules use it. |
| JsValues.Names | src/server.ts:66-68 | The header names are listed in entry order, one per entry. |
| JsValues.MapGet | src/context.ts:44-45 | A header is found exactly when its name is among the entries, and the value found is the one of the first entry with that name. |
| JsValues.MapSet | src/context.ts:45 | After `set(k, v)`, `get(k)` gives v and every other name reads as before. |
| JsValues.MapSetNames | src/context.ts:45 | `set` keeps the insertion order: an existing name keeps its place, and a new name is appended. |
| JsValues.DistinctNamesIff | src/context.ts:45 | A header list has no repeated name exactly when its list of names has none. |
| JsValues.MapSetDistinct | src/context.ts:45 | `set` never produces a duplicate header name. |
| Context.ContextValue | src/context.ts:20-23 | Outside a scope every key reads undefined; inside, a stored key reads the value stored under it, and a key never set reads undefined. |
| Context.Getter | src/context.ts:56-64 | A getter returns the stored value when it is truthy, and the default otherwise. |
| Context.Stored | src/context.ts:15-18 | Inside a scope the slot reads back exactly the value written, falsy or not; a setter never creates or drops a scope and never touches the shared default headers. |
| Context.ResponseHeaders | src/context.ts:38-42 | A truthy headers value stored in the scope is returned as it is; otherwise the getter returns the shared default `Map`. |
| Context.OutsideScopeIsInert | src/context.ts:15-23 | Outside a scope, setting changes nothing and every getter returns its default. |
| Context.GetAfterSet | src/context.ts:56-64 | Inside a scope, a getter after its setter returns the value set when it is truthy, and the default when it is not; other keys are unaffected. |
| Context.HeaderSetEntries | src/context.ts:43-46 | `setResponseHeader` writes into the `Map` in effect: the stored one, or the shared default when none is stored. |
| Context.HeaderSetTouchesOnlyName | src/context.ts:43-46 | `setResponseHeader` changes the value under its own name and no other header. |
| Context.HeaderSetKeepsOtherSlots | src/context.ts:43-46 | `setResponseHeader` leaves every context slot other than the headers as it was. |
| Context.HeaderSet | src/context.ts:43-46 | No contract of its own: `setResponseHeader`. `HeaderSetEntries`, `HeaderSetTouchesOnlyName` and `HeaderSetKeepsOtherSlots` state what it does. |
| Context.RespondJsonSlots | src/context.ts:48-53 | After `respondJson` the body slot holds the serialised body, and the status slot holds the given status or keeps its old value. |
| Context.RespondJsonHeaders | src/context.ts:54 | `respondJson` returns normally, and the headers `Map` in effect is the old one with `Content-Type` set by `set`. |
| Context.RespondedJson | src/context.ts:48-55 | No contract of its own: `respondJson`. `RespondJsonSlots`, `RespondJsonHeaders` and `RespondJsonEffect` state what it does. |
| Context.DefaultHeadersOutliveScope | src/context.ts:38-46 | A header set while no headers are stored lands in the shared default `Map`, and is still there after the scope is left. |
| Context.RespondJsonEffect | src/context.ts:48-55 | `respondJson` returns normally. It stores the serialised body, stores the status only when one is given, and the headers `Map` in effect becomes the old one with `Content-Type: application/json` set. |
| Context.ContextStore.constructor | src/context.ts:4-42 | A new store has no scope open (the storage at line 4) and an empty shared default headers `Map` (the getter default at lines 38-42). |
| Context.ContextStore.Enter | src/context.ts:6-9 | Each request scope starts from a fresh empty context; the outer scope is handed back for `Leave`. |
| Context.ContextStore.Leave | src/context.ts:6-9 | Leaving restores the outer scope and keeps the shared default headers. |
| Context.ContextStore.SetContextValue | src/context.ts:15-18 | The store's new state is `Stored` of the old one. |
| Context.ContextStore.SetResponseHeader | src/context.ts:43-46 | The store's new state and the outcome are `HeaderSet` of the old state, which the lemmas above characterise. |
| Context.ContextStore.RespondJson | src/context.ts:48-55 | The store's new state and the outcome are `RespondedJson` of the old state; `RespondJsonEffect` states what that stores. |
| Router.MethodName | src/router.ts:3-12 | Every method name is non-empty and contains no `]`, which is what makes exact-table keys unambiguous. |
| Router.SimpleRouteKeyInjective | src/router.ts:146-148 | Two different (method, URL) pairs never share an exact-table key. |
| Router.SimpleRouteKey | src/router.ts:146-148 | No contract of its own: `[METHOD]url`. `SimpleRouteKeyInjective` states that it keeps (method, URL) pairs apart. |
| Router.KeyPath | src/router.ts:50-51 | The trie path of a pattern has one step per segment: a literal child for a plain segment, and the param child for a `:` segment. |
| Router.SameKeyPath | src/router.ts:50-51 | Two patterns reach the same node exactly when they have the same number of segments, their `:` segments sit at the same positions, and their plain segments are equal. |
| Router.FreshNode | src/router.ts:50-56 | A node created for a segment is named after that segment and is a param node exactly when the segment contains `:`. Only the pattern's last node gets the handler; the others get none. |
| Router.GrowsOverExisting | src/router.ts:61-66 | A node that registration finds along the path was already in the trie, and registration goes on from it. |
| Router.GrowsByFresh | src/router.ts:68-77 | A node missing along the path was missing before, and registration goes on by adding a fresh node there (under the method root for the first segment, under the previous node for the others). |
| Router.GrowsWellFormed | src/router.ts:49-80 | Registration keeps the trie well formed: every node's parent exists and points to it. |
| Router.GrowsNothing | src/router.ts:49-80 | A pattern whose whole path already exists leaves the trie unchanged. |
| Router.HandlerSilentlyDropped | src/router.ts:49-80 | When the pattern's last node already exists without a handler, registration succeeds but stores nothing: the trie is unchanged and the node still has no handler. |
| Router.ParamNamesDoNotDistinguish | src/router.ts:49-80 | After a new pattern is registered, a pattern that differs from it only in its parameter names reaches the same node, which holds the first handler; registering it therefore conflicts. |
| Router.InsertPath | src/router.ts:47-80 | Registration throws exactly when the last node already exists with a handler, and then leaves the trie unchanged; otherwise the trie grows along the pattern's path and stays well formed. |
| Router.Router.constructor | src/router.ts:27-34 | A new router has an empty exact table and no trie for any method. |
| Router.Router.Handle | src/router.ts:36-81 | A pattern without `:` goes into the exact table and throws iff its key is already there; a pattern with `:` goes into the trie as `InsertPath` states. Nothing else changes. |
| Router.Router.Insert | src/router.ts:47-80 | The trie of the given method is updated as `InsertPath` states; the other methods' tries and the exact table are unchanged. |
| Router.Router.Route | src/router.ts:87-96 | `handle` with a method given by value: `get`/`post`/`put`/`patch`/`delete` are it with their own fixed method, and it accepts every method of the enum, including those without a helper. An exact pattern throws iff it is already registered, and is otherwise added to the exact table. A pattern with `:` throws iff its node already holds a handler, and otherwise grows the method's trie along its path. |
| Router.Router.Match | src/router.ts:103-133 | The dispatch decision equals `Lookup`: no method, an exact-table hit, a walk that fails, or a walk that completes with its handler and params. |
| Router.Pick | src/router.ts:124-128 | The walk takes the literal child named after the segment when it exists, the param child only when it does not, and has nowhere to go exactly when both are absent. |
| Router.Collect | src/router.ts:129-131 | No contract of its own: a param node with a name records the segment under the name without its first `:`. `CollectAlong` states it along a registered path. |
| Router.WalkFrom | src/router.ts:113-133 | No contract of its own: the greedy walk. `WalkAlongPath`, `RegisteredRouteMatches`, `OnlyPatternMatches` and `NoBacktracking` state what it finds. |
| Router.Lookup | src/router.ts:103-133 | No contract of its own: the router's dispatch decision. `Router.Router.Match` is proved equal to it, and `SimpleTableFirst` states that the exact table wins. |
| Router.SimpleTableFirst | src/router.ts:107-112 | When the exact table has the normalised URL, it wins and the trie is not consulted. |
| Router.PickAlong | src/router.ts:124-128 | On a path whose parameter steps have no literal sibling named after the request segment, each step of the walk picks the path's own next node. |
| Router.CollectAlong | src/router.ts:129-131 | Passing a node records the request segment exactly when the node's stored name contains `:`, under that name without its first `:`. |
| Router.WalkStepAlong | src/router.ts:118-133 | One step of the walk along such a path moves to the next node with that node's param recorded, or ends with the last node's handler. |
| Router.PatternParamsStep | src/router.ts:129-131 | The params are collected one segment at a time, from the first to the last. |
| Router.GrowsAlong | src/router.ts:49-80 | After registration every prefix of the pattern's path is a node. When registration created the last node, it holds the new handler, and every node it created is named after its own segment. |
| Router.WalkAlongPath | src/router.ts:118-133 | On such a path of a well-formed trie, the walk from any depth reaches the path's last node and its handler. It records each request segment under the stored name of every param node it passes. |
| Router.RegisteredRouteMatches | src/router.ts:113-133 | Round trip on a trie that may hold other routes: after a pattern is registered, a URL that fits it is walked to the pattern's node, provided no literal sibling captures one of its param segments. The result is that node's handler, which is the new one when registration created the node. The params are collected under the names stored along the path, which are the pattern's own for the nodes it created. |
| Router.OnlyPatternMatches | src/router.ts:113-133 | On a method with no earlier routes, a URL that fits the registered pattern dispatches to its handler, with the params named by the pattern's own `:` segments. |
| Router.PatternParamsKeeps | src/router.ts:129-131 | Names the pattern does not mention keep the value they had before the walk. |
| Router.PatternParamsAt | src/router.ts:129-131 | A `:` segment's name gets the URL text at its position when no later `:` segment has the same name; when names repeat, the last one wins. |
| Router.PatternParamsNames | src/router.ts:129-131 | A name is among the collected params exactly when it was there before or is the name of one of the pattern's `:` segments. |
| Router.RouteParamsScenario | src/__tests__/router.test.ts:80-95 | `/api/user/:id/:name/:age` matched against `/api/user/666/bob/22` yields id 666, name bob and age 22. |
| Router.NoBacktracking | src/router.ts:122-133 | The walk never backtracks. With `/a/:x/c` and then `/a/b/d/:z` registered on an empty method, `/a/b/c` takes the literal `b` and ends without a handler, although the first pattern fits it and its node holds a handler. |
| Server.NextFlow | src/server.ts:80-86 | `next()` always advances the shared cursor, keeps the record of which middlewares ran coherent, and past the end of the list returns without running anything. |
| Server.StageFlow | src/server.ts:79-85 | Running the middleware under the cursor records it as run and never moves the cursor back. |
| Server.ScriptFlow | src/server.ts:79-86 | A middleware never moves the cursor back and keeps the run record coherent, however often it calls `next`. |
| Server.RouterFlow | src/router.ts:101-144 | The router middleware never moves the cursor back and keeps the run record coherent. |
| Server.WalkedFlow | src/router.ts:134-142 | A completed walk never moves the cursor back and keeps the run record coherent, including the second `next()` after a throw. |
| Server.HandlerFlow | src/router.ts:110-111 | No contract of its own: a route handler runs on the context and never calls `next`. `SimpleHitRunsOnlyItsHandler` and `TrieHandlerThrowFallsThrough` state how its outcome is used. |
| Server.ChainFlow | src/server.ts:74-87 | The middlewares that ran are 0, 1, ... in order, and there is one more of them than there were `next()` calls, capped at the list's length. An empty list runs nothing. |
| Server.ScriptWithoutNext | src/server.ts:79-86 | A middleware that never calls `next` leaves the cursor and the run record where it found them. |
| Server.Apply | src/context.ts:15-55 | No contract of its own: one handler effect (set a value, set a header, `respondJson`, throw). `Server.ApplyEffect` is proved equal to it, and the Context lemmas state each case. |
| Server.Effects | src/router.ts:135-137 | No contract of its own: a handler's effects in order, up to the first throw. `Server.RunHandler` is proved equal to it. |
| Server.HaltingFirstMiddleware | src/server.ts:79-86 | When the first middleware never calls `next`, it is the only one that runs. |
| Server.SimpleHitRunsOnlyItsHandler | src/router.ts:107-112 | An exact-table hit runs only its handler: no params are stored, `next` is not called, and a throw escapes. |
| Server.TrieHandlerThrowFallsThrough | src/router.ts:134-142 | A trie handler that throws is swallowed: its effects and the params stay, and `next()` runs. |
| Server.UnroutedRequestCallsNext | src/router.ts:103-142 | A request with no handler always moves the cursor on. With no method or a failed walk, the router's flow is exactly `next()`. When the walk completes without a handler, the params are stored and `next()` runs, and runs once more if it throws. |
| Server.Opened | src/server.ts:38-41 | A request scope starts holding exactly the request id, the request and the response, and shares the default headers. |
| Server.Recovered | src/server.ts:52-60 | No contract of its own: the outer `catch`. `RecoveryRule` states it, and `Server.Recover` is proved equal to it. |
| Server.Settled | src/server.ts:42-60 | No contract of its own: the two `try` blocks with or without an `onError` hook. `UnhandledErrorIs500`, `HookAnswerStands`, `HookThrowFallsBackTo500` and `SilentHookIsNotFound` state it, and `Server.Settle` is proved equal to it. |
| Server.Finalised | src/server.ts:61-70 | No contract of its own: the `finally` block. `NotFoundRule`, `AnsweredRule` and `UnusableHeadersSendNothing` state it, and `Server.Finalise` is proved equal to it. |
| Server.Handled | src/server.ts:27-72 | No contract of its own: the whole `handleRequest`. The scenario lemmas (`NoMiddlewaresIsNotFound`, `MiddlewareAnswer`, `ThrowingMiddlewareIs500`, `CustomErrorHook`) state it, and `Server.Server.HandleRequest` is proved equal to it. |
| Server.RecoveryRule | src/server.ts:52-60 | On an unhandled error, the status becomes 500 unless one is set, and the body becomes `{message}` unless one is set. |
| Server.NotFoundRule | src/server.ts:61-64 | With neither a body nor a status set, the response is 404 with `{"message":"Not found"}` as JSON. |
| Server.AnsweredRule | src/server.ts:65-69 | With a body or a status set, that answer is sent unchanged; the status defaults to 200. |
| Server.UnusableHeadersSendNothing | src/server.ts:66-68 | When the stored headers value is truthy but not a `Map`, finalisation throws before `end`, and no response is sent. |
| Server.NoMiddlewaresIsNotFound | src/__tests__/server.test.ts:6-11 | A server with no middlewares answers 404 with `{"message":"Not found"}`. |
| Server.NotFoundHeaderLeaks | src/server.ts:62-63 | The 404 path writes `Content-Type` into the shared default headers `Map`, so it outlives the request. |
| Server.UnhandledErrorIs500 | src/server.ts:45-60 | Without a hook, a thrown error with nothing answered becomes a 500 with the error's message, or "Internal server error" when the message is empty. |
| Server.HookAnswerStands | src/server.ts:46-48 | When the `onError` hook answers and returns, its answer is what is sent. |
| Server.HookThrowFallsBackTo500 | src/server.ts:46-60 | When the `onError` hook throws and no status is set, the response is a 500. Its body is the body already set, if any; otherwise it is `{message}` with the hook's error message, or "Internal server error" when that message is empty. |
| Server.SilentHookIsNotFound | src/server.ts:46-64 | When the `onError` hook returns without answering, the request ends as a 404. |
| Server.MiddlewareAnswer | src/__tests__/server.test.ts:13-22 | A middleware that calls `respondJson(body, 201)` gets a 201 with that JSON body. Its headers are the shared defaults with `Content-Type: application/json` set. |
| Server.RespondingScript | src/__tests__/server.test.ts:13-22 | A single middleware that only responds leaves the context exactly as `respondJson` does. |
| Server.ThrowingMiddlewareIs500 | src/__tests__/server.test.ts:24-33 | A middleware that throws "Ooopsie" yields a 500 with `{"message":"Ooopsie"}`. |
| Server.CustomErrorHook | src/__tests__/server.test.ts:35-48 | An `onError` hook that responds 501 with a custom message overrides the 500. |
| Server.ApplyEffect | src/context.ts:43-62 | Performing one handler effect on the store changes it exactly as `Apply` says. |
| Server.RunHandler | src/router.ts:137 | Running a handler on the store changes it exactly as `Effects` says, stopping at the first throw. |
| Server.Chain.constructor | src/server.ts:78 | A chain starts with the cursor at 0, nothing run, and the given store. |
| Server.Chain.Execute | src/server.ts:74-87 | Executing the chain leaves the store and the cursor as `ChainFlow` says. |
| Server.Chain.RunStage | src/server.ts:79-85 | Running the middleware under the cursor follows `StageFlow`. |
| Server.Chain.Next | src/server.ts:80-86 | `nextMiddleware` follows `NextFlow`. |
| Server.Chain.RunScript | src/server.ts:79-86 | A middleware script runs as `ScriptFlow` says. |
| Server.Chain.RunRouter | src/router.ts:101-144 | The router middleware runs as `RouterFlow` says. |
| Server.Chain.RunWalked | src/router.ts:134-142 | A completed trie walk runs as `WalkedFlow` says. |
| Server.Recover | src/server.ts:52-60 | The catch block changes the store as `Recovered` says. |
| Server.Settle | src/server.ts:42-60 | The two try blocks, with or without an `onError` hook, leave the store as `Settled` says. |
| Server.Finalise | src/server.ts:61-70 | The finally block produces the response and the store that `Finalised` gives. |
| Server.Server.constructor | src/server.ts:12-13 | A new server has no middlewares. |
| Server.Server.Use | src/server.ts:22 | `use` appends the middleware and returns the new count. |
| Server.Server.HandleRequest | src/server.ts:27-72 | Handling a request sends the response `Handled` describes, restores the outer scope, and leaves the shared headers as `Handled` says. |
| Proxy.KeyText | src/utils/proxy.ts:13 | A numeric property key becomes its decimal text, which reads back as the number. |
| Proxy.DottedKeyRecoversPath | src/utils/proxy.ts:36 | For paths whose keys contain no `.`, the dotted record key determines the path. |
| Proxy.DottedKeysCollide | src/utils/proxy.ts:36 | A key containing a `.` collides with a longer path: `["a.b"]` and `["a","b"]` record under the same key. |
| Proxy.LastWriteWins | src/utils/proxy.ts:35-38 | A later assignment to the same dotted key replaces the earlier one, and other keys are untouched. |
| Proxy.CallsKeepOrder | src/utils/proxy.ts:39-45 | Calls to one path are appended in call order, and other paths' calls are untouched. |
| Proxy.PathArray.constructor | src/utils/proxy.ts:12 | A path array starts with the given items. |
| Proxy.PathArray.Push | src/utils/proxy.ts:13 | `push` appends one key. |
| Proxy.Recorder.constructor | src/utils/proxy.ts:30-33 | The result record starts with no sets and no calls. |
| Proxy.NestedProxy.constructor | src/utils/proxy.ts:1-10 | A nested proxy holds the given path array (possibly none) and recorder. |
| Proxy.NestedProxy.Get | src/utils/proxy.ts:11-15 | A property read records nothing. It pushes the key onto the shared path array and returns a child proxy aliasing that array; at the root it starts a fresh array. |
| Proxy.NestedProxy.Set | src/utils/proxy.ts:16-19 | An assignment records the value under the dotted path plus the key, and records no call. |
| Proxy.NestedProxy.Apply | src/utils/proxy.ts:20-22 | Calling the root proxy throws, because the path is undefined, and records nothing; any other call appends its arguments under the dotted path. |
| Proxy.CreateSuperProxy | src/utils/proxy.ts:29-51 | A super-proxy starts at the root with an empty, fresh record. |
| Proxy.Walk | src/utils/proxy.ts:11-15 | A chain of property reads from the root reaches a proxy whose path is the keys' texts. |
| Proxy.Assign | src/utils/proxy.ts:16-19 | `root.k1...kn = v` records v under the dotted key of all n keys. |
| Proxy.Invoke | src/utils/proxy.ts:20-22 | `root.k1...kn(args)` appends args under the dotted key of the n keys. |
| Proxy.RecordingScenario | src/__tests__/proxy.test.ts:4-19 | The sets and calls of the super-proxy test are recorded exactly as the test expects. |
| Proxy.KeyZFD99 | src/__tests__/proxy.test.ts:7 | `z.f.d[99]` records under `"z.f.d.99"`. |
| Proxy.KeyZEE33G | src/__tests__/proxy.test.ts:10 | `z.ee[33].g` records under `"z.ee.33.g"`. |
| Proxy.AliasingScenario | src/utils/proxy.ts:12-14 | Because siblings share one path array, `const p = s.a; p.b; p.c = 1` records under `"a.b.c"`. |
| Proxy.RootCallScenario | src/utils/proxy.ts:21 | Calling the bare root proxy throws and records nothing. |
| Proxy.ReadThroughShadows | src/utils/proxy.ts:60-67 | A written property shadows the target, other properties still read through, and a property in neither reads undefined. |
| Proxy.ReadonlyProxy.constructor | src/utils/proxy.ts:55 | A read-only proxy pairs a target with a distinct change record. |
| Proxy.ReadonlyProxy.Set | src/utils/proxy.ts:56-59 | A write goes into the change record and never into the target. |
| Proxy.ReadonlyProxy.Get | src/utils/proxy.ts:60-67 | A read returns the recorded change if there is one, otherwise the target's property, otherwise undefined. |
| Proxy.CreateReadonlyProxy | src/utils/proxy.ts:53-73 | A read-only proxy starts with an empty change record, separate from the target. |
| Proxy.ReadonlyScenario | src/__tests__/proxy.test.ts:20-29 | After writes through the proxy, the target is unchanged and the proxy and the change record show the new values. |

## Left out

- Asynchronous context propagation is not modelled. The scope is either none or one `Map` for the request being handled, and concurrent requests are out of scope.
- Promises, `await` and async rejections are not modelled. Handlers and middlewares run synchronously. The value `next()` returns, which callers may ignore, is not modelled.
- The error object handed to `onError` is not modelled: the hook is a handler with no parameter, and only its effects and outcome count. A thrown error is represented by its message.
- `JSON.stringify` is modelled as the datatype constructor `Serialized`, which wraps the JSON value itself. Two different bodies therefore never serialise to the same value, and a serialised body is never empty, since every object serialises to at least `{}`. The exact text, including key order and escaping, is not modelled.
- The HTTP transport is not modelled. `res.statusCode`, `res.setHeader` and `res.end` are captured as one `Response` record: status, headers in `Map` order, body.
- `crypto.randomUUID()` is the `id` parameter of `HandleRequest`.
- Property keys inherited from `Object.prototype` (`in`, `children[key]`, `result[p]` on names such as `toString`) are not modelled. Every lookup sees only own keys.
- Symbol property keys are not modelled. Proxy keys are strings or non-negative integer indices.
- The request's `url || ""` fallback is not modelled: a request handle always carries a string URL.
- `NaN` and non-integer status codes are not modelled: a status is an integer.
- A stored headers value that is truthy but not a `Map` is modelled as making `setResponseHeader` and finalisation throw. The JavaScript would throw a `TypeError` there too.
- Routers are read live from the heap while the chain runs. A handler cannot register routes while the chain runs, because handlers only act on the context.
- The body parsers (`src/body-parsers.ts`) and the listener (`src/listener.ts`) are not part of this model.
- Middlewares are modelled as scripts of effects and `next` calls, plus routers. Arbitrary user code that inspects results is not modelled.
- Text.DecimalText: a numeric proxy key is written as plain decimal digits for every natural number. JavaScript writes 1e21 and larger in exponent form (`"1e+21"`), and a `Number` cannot hold every integer above 2^53 exactly; neither is modelled.
- The message thrown when the request is missing (`RequestNotDestructurable` in `server.dfy`) stands for the engine's `TypeError` text and does not reproduce it.
