/**
 * The router: registration sorts routes into a flat table of exact routes
 * and, per HTTP method, a segment trie for routes with parameters;
 * matching probes the table, then walks the trie greedily.
 *
 * A trie is kept as the map from each node's key path (the child keys from
 * the method's root down to the node) to the node. A nested-object trie and
 * such a map describe the same tree: a node's children are the entries
 * whose path is one key longer.
 */
module Router {
  import opened Common
  import opened Text

  /** The HTTP methods the router's helpers register under. */
  datatype HttpMethod = POST | GET | PUT | PATCH | DELETE | OPTIONS | HEAD | TRACE

  /** The string value of an HTTP method. */
  function MethodName(m: HttpMethod): (s: string)
    ensures s != "" && ']' !in s
  {
    match m
    case POST => "POST"
    case GET => "GET"
    case PUT => "PUT"
    case PATCH => "PATCH"
    case DELETE => "DELETE"
    case OPTIONS => "OPTIONS"
    case HEAD => "HEAD"
    case TRACE => "TRACE"
  }

  /** Under which key a node hangs from its parent: its literal segment, or the one shared parameter key. */
  datatype ChildKey = Literal(segment: string) | Param

  /** The key path of a trie node from its method's root. */
  type TriePath = seq<ChildKey>

  /** A trie node: whether it is a parameter node, the segment it was created from, its handler if any. */
  datatype RouteNode<H> = RouteNode(isParam: bool, name: string, handler: Option<H>)

  /** The nodes of one method's trie below its root, by key path. */
  type Trie<H> = map<TriePath, RouteNode<H>>

  /** The outcome of a lookup in the router. */
  datatype Dispatch<H> =
      /** The request has no method: the router calls `next()`. */
    | NoMethod
      /** The exact-route table holds a handler for the request. */
    | SimpleHit(simpleHandler: H)
      /** The trie walk threw (no trie for the method, or a missing intermediate node). */
    | WalkFailed
      /** The trie walk finished: the handler of the last node reached, if any, and the params it collected. */
    | Walked(handler: Option<H>, params: map<string, string>)

  const RouteExists := "Provided route already exists"
  const HandlerExists := "Handler for the route is already defined"

  /** `getSimpleRouteKey(method, url)`: `[METHOD]url`. */
  function SimpleRouteKey(verb: string, url: string): string
  {
    "[" + verb + "]" + url
  }

  /** Methods are kept apart: no two (method, path) pairs share a key, methods having no `]`. */
  lemma SimpleRouteKeyInjective(verb1: string, url1: string, verb2: string, url2: string)
    requires ']' !in verb1 && ']' !in verb2
    requires SimpleRouteKey(verb1, url1) == SimpleRouteKey(verb2, url2)
    ensures verb1 == verb2 && url1 == url2
  {
    var k1, k2 := SimpleRouteKey(verb1, url1), SimpleRouteKey(verb2, url2);
    assert k1 == "[" + verb1 + ("]" + url1);
    assert k2 == "[" + verb2 + ("]" + url2);
    assert k1[1..] == verb1 + ("]" + url1);
    assert k2[1..] == verb2 + ("]" + url2);
    IndexOfPrefix(verb1, "]" + url1, ']');
    IndexOfPrefix(verb2, "]" + url2, ']');
    assert verb1 == k1[1..][..|verb1|];
    assert verb2 == k2[1..][..|verb2|];
    assert url1 == k1[|verb1| + 2..];
    assert url2 == k2[|verb2| + 2..];
  }

  /** The child key a pattern segment is stored under: a segment containing `:` is a parameter. */
  function KeyOf(segment: string): ChildKey
  {
    if ':' in segment then Param else Literal(segment)
  }

  /** The key path of a pattern's segments. */
  function KeyPath(segs: seq<string>): (path: TriePath)
    ensures |path| == |segs|
    ensures forall i :: 0 <= i < |segs| ==> path[i] == KeyOf(segs[i])
  {
    seq(|segs|, i requires 0 <= i < |segs| => KeyOf(segs[i]))
  }

  /**
   * Two patterns share a key path exactly when they have the same length,
   * `:` segments at the same positions, and the same literal segments.
   */
  lemma SameKeyPath(a: seq<string>, b: seq<string>)
    ensures KeyPath(a) == KeyPath(b) <==>
            && |a| == |b|
            && (forall i :: 0 <= i < |a| ==> (':' in a[i] <==> ':' in b[i]))
            && (forall i :: 0 <= i < |a| && ':' !in a[i] ==> a[i] == b[i])
  {
    if KeyPath(a) == KeyPath(b) {
      forall i | 0 <= i < |a|
        ensures (':' in a[i] <==> ':' in b[i]) && (':' !in a[i] ==> a[i] == b[i])
      {
        assert KeyPath(a)[i] == KeyPath(b)[i];
      }
    }
  }

  /**
   * The shape registration keeps: every node below the root, its parent
   * present, a node is a parameter node exactly when its key is the
   * parameter key, and its name is a segment stored under that key.
   */
  ghost predicate WellFormed<H>(t: Trie<H>)
  {
    && (forall p :: p in t ==> |p| >= 1)
    && (forall p :: p in t && |p| > 1 ==> p[..|p| - 1] in t)
    && (forall p :: p in t ==> t[p].isParam == (p[|p| - 1] == Param))
    && (forall p :: p in t ==> KeyOf(t[p].name) == p[|p| - 1])
  }

  /** The node registration creates for the `n`-th segment of a pattern; only the last one gets the handler. */
  function FreshNode<H>(segs: seq<string>, n: nat, h: H): (node: RouteNode<H>)
    requires 1 <= n <= |segs|
    ensures node.isParam == (KeyOf(segs[n - 1]) == Param)
    ensures node.name == segs[n - 1] && KeyOf(node.name) == KeyOf(segs[n - 1])
    ensures node.handler == if n == |segs| then Some(h) else None
  {
    RouteNode(':' in segs[n - 1], segs[n - 1], if n == |segs| then Some(h) else None)
  }

  /**
   * `t2` is `t` after registration walked the first `depth` segments of
   * `segs`: every existing node is kept as it was, every missing node on
   * the pattern's key path is created, and nothing else is added.
   */
  ghost predicate Grows<H>(t: Trie<H>, t2: Trie<H>, segs: seq<string>, depth: nat, h: H)
    requires depth <= |segs|
  {
    var path := KeyPath(segs);
    && (forall p :: p in t ==> p in t2 && t2[p] == t[p])
    && (forall n :: 1 <= n <= depth && path[..n] !in t ==> path[..n] in t2 && t2[path[..n]] == FreshNode(segs, n, h))
    && (forall p :: p in t2 && p !in t ==> 1 <= |p| <= depth && p == path[..|p|])
  }

  /** One step of registration over a node that exists: it was there before, and is reused. */
  lemma GrowsOverExisting<H>(t: Trie<H>, t2: Trie<H>, segs: seq<string>, i: nat, h: H)
    requires i < |segs| && Grows(t, t2, segs, i, h)
    requires KeyPath(segs)[..i + 1] in t2
    ensures KeyPath(segs)[..i + 1] in t
    ensures Grows(t, t2, segs, i + 1, h)
  {
  }

  /** One step of registration over a missing node: the node is created. */
  lemma GrowsByFresh<H>(t: Trie<H>, t2: Trie<H>, segs: seq<string>, i: nat, h: H)
    requires i < |segs| && Grows(t, t2, segs, i, h)
    requires KeyPath(segs)[..i + 1] !in t2
    ensures KeyPath(segs)[..i + 1] !in t
    ensures Grows(t, t2[KeyPath(segs)[..i + 1] := FreshNode(segs, i + 1, h)], segs, i + 1, h)
  {
    var path := KeyPath(segs);
    var t3 := t2[path[..i + 1] := FreshNode(segs, i + 1, h)];
    forall n | 1 <= n <= i + 1 && path[..n] !in t
      ensures path[..n] in t3 && t3[path[..n]] == FreshNode(segs, n, h)
    {
      if n <= i {
        assert |path[..n]| != |path[..i + 1]|;
      }
    }
  }

  /** In a well-formed trie every non-empty prefix of a node's path is a node. */
  lemma {:induction false} PrefixesPresent<H>(t: Trie<H>, p: TriePath, n: nat)
    requires WellFormed(t) && p in t && 1 <= n <= |p|
    ensures p[..n] in t
    decreases |p| - n
  {
    if n < |p| {
      PrefixesPresent(t, p, n + 1);
      assert p[..n + 1][..n] == p[..n];
    } else {
      assert p[..n] == p;
    }
  }

  /** The key path one step longer than a prefix. */
  lemma PrefixStep(path: TriePath, i: nat)
    requires i < |path|
    ensures path[..i + 1] == path[..i] + [path[i]]
  {
  }

  /** Registration keeps a trie well formed. */
  lemma GrowsWellFormed<H>(t: Trie<H>, t2: Trie<H>, segs: seq<string>, h: H)
    requires WellFormed(t) && Grows(t, t2, segs, |segs|, h)
    ensures WellFormed(t2)
  {
    var path := KeyPath(segs);
    forall p | p in t2 && p !in t
      ensures |p| > 1 ==> p[..|p| - 1] in t2
      ensures t2[p].isParam == (p[|p| - 1] == Param)
      ensures KeyOf(t2[p].name) == p[|p| - 1]
    {
      var n := |p|;
      assert p == path[..n];
      assert t2[p] == FreshNode(segs, n, h);
      if n > 1 {
        assert p[..n - 1] == path[..n - 1];
      }
    }
  }

  /** Once the pattern's terminal node exists, every node on its path exists and registration adds nothing. */
  lemma GrowsNothing<H>(t: Trie<H>, t2: Trie<H>, segs: seq<string>, depth: nat, h: H)
    requires WellFormed(t) && depth <= |segs| && Grows(t, t2, segs, depth, h)
    requires 1 <= depth && KeyPath(segs)[..depth] in t
    ensures t2 == t
  {
    var path := KeyPath(segs);
    forall p | p in t2
      ensures p in t
    {
      if p !in t {
        assert path[..depth][..|p|] == p;
        PrefixesPresent(t, path[..depth], |p|);
      }
    }
  }

  /**
   * The quirk of a terminal node that already exists without a handler:
   * registration succeeds, nothing changes, and the new handler is dropped.
   */
  lemma HandlerSilentlyDropped<H>(t: Trie<H>, t2: Trie<H>, segs: seq<string>, h: H)
    requires WellFormed(t) && |segs| >= 1 && Grows(t, t2, segs, |segs|, h)
    requires KeyPath(segs) in t && t[KeyPath(segs)].handler.None?
    ensures t2 == t && t2[KeyPath(segs)].handler.None?
  {
    assert KeyPath(segs)[..|segs|] == KeyPath(segs);
    GrowsNothing(t, t2, segs, |segs|, h);
  }

  /**
   * Parameter names are not part of the key: once a pattern is registered
   * with a new terminal node, a pattern with the same literal segments and
   * parameters at the same positions, whatever their names, reaches the same
   * node, which holds the first handler and the first names, so registering
   * it throws.
   */
  lemma ParamNamesDoNotDistinguish<H>(t: Trie<H>, t2: Trie<H>, segs1: seq<string>, segs2: seq<string>, h: H)
    requires |segs1| >= 1 && Grows(t, t2, segs1, |segs1|, h)
    requires KeyPath(segs1) !in t
    requires |segs2| == |segs1|
    requires forall i :: 0 <= i < |segs1| ==> (':' in segs1[i] <==> ':' in segs2[i])
    requires forall i :: 0 <= i < |segs1| && ':' !in segs1[i] ==> segs1[i] == segs2[i]
    ensures KeyPath(segs2) in t2
    ensures t2[KeyPath(segs2)] == RouteNode(true, segs1[|segs1| - 1], Some(h)) || ':' !in segs1[|segs1| - 1]
    ensures t2[KeyPath(segs2)].handler == Some(h)
  {
    var p1, p2 := KeyPath(segs1), KeyPath(segs2);
    assert p1 == p2;
    assert p1[..|segs1|] == p1;
  }

  /** The child the walk takes under `at` for raw segment `seg`: the literal child first, else the parameter child. */
  function Pick<H>(t: Trie<H>, at: TriePath, seg: string): (next: Option<TriePath>)
    ensures next.Some? ==> next.value in t
    ensures at + [Literal(seg)] in t ==> next == Some(at + [Literal(seg)])
    ensures at + [Literal(seg)] !in t && at + [Param] in t ==> next == Some(at + [Param])
    ensures next.None? <==> at + [Literal(seg)] !in t && at + [Param] !in t
  {
    if at + [Literal(seg)] in t then Some(at + [Literal(seg)])
    else if at + [Param] in t then Some(at + [Param])
    else None
  }

  /** The route-param name of a parameter node: its name with the first `:` removed. */
  function ParamName(name: string): string
  {
    RemoveFirst(name, ':')
  }

  /** The params after visiting a node reached by segment `seg`: a named parameter node records `seg`. */
  function Collect<H>(t: Trie<H>, at: Option<TriePath>, seg: string, params: map<string, string>): map<string, string>
    requires at.Some? ==> at.value in t
  {
    if at.Some? && t[at.value].isParam && t[at.value].name != "" then params[ParamName(t[at.value].name) := seg]
    else params
  }

  /**
   * The trie walk of `convertRouterToHandler` from node `at` over the
   * remaining raw segments: no backtracking; a missing node before the last
   * segment makes the next step throw; at the last segment the handler of
   * whichever node was picked (if any) is the result.
   */
  function WalkFrom<H>(t: Trie<H>, at: TriePath, segs: seq<string>, params: map<string, string>): Dispatch<H>
    requires |segs| >= 1
    decreases |segs|
  {
    var next := Pick(t, at, segs[0]);
    var params' := Collect(t, next, segs[0], params);
    if |segs| == 1 then Walked(if next.Some? then t[next.value].handler else None, params')
    else if next.None? then WalkFailed
    else WalkFrom(t, next.value, segs[1..], params')
  }

  /** What the router middleware decides for a request with method `verb` and URL `url`. */
  function Lookup<H>(simple: map<string, H>, complex: map<string, Trie<H>>, verb: string, url: string): Dispatch<H>
  {
    if verb == "" then NoMethod
    else
      var path := NormalizeUrl(url);
      var key := SimpleRouteKey(verb, path);
      if key in simple then SimpleHit(simple[key])
      else if verb !in complex then WalkFailed
      else WalkFrom(complex[verb], [], Split(path, '/'), map[])
  }

  /** The exact-route table is probed first: a hit shadows the trie and collects no params. */
  lemma SimpleTableFirst<H>(simple: map<string, H>, complex: map<string, Trie<H>>, verb: string, url: string)
    requires verb != "" && SimpleRouteKey(verb, NormalizeUrl(url)) in simple
    ensures Lookup(simple, complex, verb, url) == SimpleHit(simple[SimpleRouteKey(verb, NormalizeUrl(url))])
  {
  }

  /**
   * The params a request's segments bind to a pattern's parameters, in
   * pattern order (a later parameter of the same name wins), starting from
   * `acc`: a reference definition that reads the pattern, not the trie.
   */
  function PatternParams(segs: seq<string>, request: seq<string>, acc: map<string, string>): map<string, string>
    requires |segs| == |request|
  {
    if |segs| == 0 then acc
    else PatternParams(segs[1..], request[1..], if ':' in segs[0] then acc[ParamName(segs[0]) := request[0]] else acc)
  }

  /** The request segments fit a pattern: same count, and equal wherever the pattern is literal. */
  predicate Fits(segs: seq<string>, request: seq<string>)
  {
    && |segs| == |request| >= 1
    && forall i :: 0 <= i < |segs| && ':' !in segs[i] ==> request[i] == segs[i]
  }

  /**
   * A request follows a key path: one segment per step, and every literal
   * step is the request's own segment.
   */
  predicate Follows(path: TriePath, request: seq<string>)
  {
    && |path| == |request| >= 1
    && forall j :: 0 <= j < |path| && path[j] != Param ==> path[j] == Literal(request[j])
  }

  /** No parameter step of the path has a literal sibling named after the request's segment, which the walk would take instead. */
  predicate Unshadowed<H>(t: Trie<H>, path: TriePath, request: seq<string>)
    requires |path| == |request|
  {
    forall j :: 0 <= j < |path| && path[j] == Param ==> path[..j] + [Literal(request[j])] !in t
  }

  /** Every non-empty prefix of the path is a node. */
  predicate Along<H>(t: Trie<H>, path: TriePath)
  {
    forall n :: 1 <= n <= |path| ==> path[..n] in t
  }

  /** The names stored in the nodes along a path, from the root down. */
  function NodeNames<H>(t: Trie<H>, path: TriePath): (names: seq<string>)
    requires Along(t, path)
    ensures |names| == |path|
  {
    seq(|path|, j requires 0 <= j < |path| => t[path[..j + 1]].name)
  }

  /** One step of the walk along a followed, unshadowed path picks the path's next node. */
  lemma PickAlong<H>(t: Trie<H>, path: TriePath, request: seq<string>, k: nat)
    requires Along(t, path) && Follows(path, request) && Unshadowed(t, path, request) && k < |path|
    ensures Pick(t, path[..k], request[k]) == Some(path[..k + 1])
  {
    assert path[..k + 1] == path[..k] + [path[k]];
  }

  /** Visiting the `k`-th node of a path records the request's segment exactly when the node's stored name has a `:`. */
  lemma CollectAlong<H>(t: Trie<H>, path: TriePath, seg: string, k: nat, acc: map<string, string>)
    requires WellFormed(t) && Along(t, path) && k < |path|
    ensures var name := NodeNames(t, path)[k];
            Collect(t, Some(path[..k + 1]), seg, acc) == if ':' in name then acc[ParamName(name) := seg] else acc
  {
    var node := path[..k + 1];
    assert node in t;
    assert NodeNames(t, path)[k] == t[node].name;
    assert t[node].isParam == (node[|node| - 1] == Param);
    assert KeyOf(t[node].name) == node[|node| - 1];
  }

  /** One step of the walk along a followed, unshadowed path: pick the path's next node and collect its parameter. */
  lemma WalkStepAlong<H>(t: Trie<H>, path: TriePath, request: seq<string>, k: nat, acc: map<string, string>)
    requires WellFormed(t) && Along(t, path) && Follows(path, request) && Unshadowed(t, path, request)
    requires k < |path|
    ensures path in t
    ensures var name := NodeNames(t, path)[k];
            var acc' := if ':' in name then acc[ParamName(name) := request[k]] else acc;
            WalkFrom(t, path[..k], request[k..], acc)
            == if k + 1 < |path| then WalkFrom(t, path[..k + 1], request[k + 1..], acc') else Walked(t[path].handler, acc')
  {
    assert path[..|path|] == path;
    var rest := request[k..];
    PickAlong(t, path, request, k);
    CollectAlong(t, path, request[k], k, acc);
    assert rest[0] == request[k];
    assert rest[1..] == request[k + 1..];
  }

  /** `PatternParams` consumes one name and one segment at a time. */
  lemma PatternParamsStep(names: seq<string>, request: seq<string>, k: nat, acc: map<string, string>)
    requires |names| == |request| && k < |names|
    ensures PatternParams(names[k..], request[k..], acc)
            == PatternParams(names[k + 1..], request[k + 1..], if ':' in names[k] then acc[ParamName(names[k]) := request[k]] else acc)
  {
    assert names[k..][0] == names[k];
    assert names[k..][1..] == names[k + 1..];
    assert request[k..][1..] == request[k + 1..];
  }

  /**
   * The walk from depth `k` along a followed, unshadowed path of a
   * well-formed trie reaches the path's last node and records the request's
   * segment under the stored name of every parameter node it passes.
   */
  lemma {:induction false} WalkAlongPath<H>(t: Trie<H>, path: TriePath, request: seq<string>, k: nat, acc: map<string, string>)
    requires WellFormed(t) && Along(t, path) && Follows(path, request) && Unshadowed(t, path, request)
    requires k < |path|
    ensures path in t
    ensures WalkFrom(t, path[..k], request[k..], acc)
            == Walked(t[path].handler, PatternParams(NodeNames(t, path)[k..], request[k..], acc))
    decreases |path| - k
  {
    var names := NodeNames(t, path);
    var acc' := if ':' in names[k] then acc[ParamName(names[k]) := request[k]] else acc;
    WalkStepAlong(t, path, request, k, acc);
    PatternParamsStep(names, request, k, acc);
    if k + 1 < |path| {
      WalkAlongPath(t, path, request, k + 1, acc');
    }
  }

  /**
   * After registration every node on the pattern's key path is present, the
   * pattern's node holds the new handler when this registration created it,
   * and every node it created is named after its own segment.
   */
  lemma GrowsAlong<H>(t0: Trie<H>, t: Trie<H>, segs: seq<string>, h: H)
    requires Grows(t0, t, segs, |segs|, h)
    ensures Along(t, KeyPath(segs))
    ensures |segs| >= 1 && KeyPath(segs) !in t0 ==> KeyPath(segs) in t && t[KeyPath(segs)].handler == Some(h)
    ensures forall j :: 0 <= j < |segs| && KeyPath(segs)[..j + 1] !in t0 ==> NodeNames(t, KeyPath(segs))[j] == segs[j]
  {
    var path := KeyPath(segs);
    forall n | 1 <= n <= |path|
      ensures path[..n] in t
    {
      if path[..n] in t0 {
        assert path[..n] in t;
      }
    }
    assert path[..|segs|] == path;
    forall j | 0 <= j < |segs| && path[..j + 1] !in t0
      ensures NodeNames(t, path)[j] == segs[j]
    {
      assert t[path[..j + 1]] == FreshNode(segs, j + 1, h);
    }
  }

  /**
   * The round trip of registration and matching, on a trie that may hold
   * other routes: after registering a pattern, a request that fits it and
   * whose parameter segments are not captured by literal siblings walks to
   * the pattern's node. The handler found is the new one when the node was
   * created by this registration; the params are recorded under the names
   * stored along the path, which are the pattern's own names for every node
   * this registration created (an existing node keeps its first name).
   */
  lemma RegisteredRouteMatches<H>(t0: Trie<H>, t: Trie<H>, segs: seq<string>, request: seq<string>, h: H)
    requires WellFormed(t0) && Grows(t0, t, segs, |segs|, h)
    requires Fits(segs, request) && Unshadowed(t, KeyPath(segs), request)
    ensures Along(t, KeyPath(segs)) && KeyPath(segs) in t
    ensures WalkFrom(t, [], request, map[])
            == Walked(t[KeyPath(segs)].handler, PatternParams(NodeNames(t, KeyPath(segs)), request, map[]))
    ensures KeyPath(segs) !in t0 ==> t[KeyPath(segs)].handler == Some(h)
    ensures forall j :: 0 <= j < |segs| && KeyPath(segs)[..j + 1] !in t0 ==> NodeNames(t, KeyPath(segs))[j] == segs[j]
  {
    var path := KeyPath(segs);
    GrowsWellFormed(t0, t, segs, h);
    GrowsAlong(t0, t, segs, h);
    assert Follows(path, request);
    WalkAlongPath(t, path, request, 0, map[]);
    assert path[..0] == [] && request[0..] == request && NodeNames(t, path)[0..] == NodeNames(t, path);
  }

  /**
   * The round trip for a method with no other parametric routes: the
   * request reaches the new handler with the pattern's own params.
   */
  lemma OnlyPatternMatches<H>(t: Trie<H>, segs: seq<string>, request: seq<string>, h: H)
    requires Grows(map[], t, segs, |segs|, h)
    requires Fits(segs, request)
    ensures WalkFrom(t, [], request, map[]) == Walked(Some(h), PatternParams(segs, request, map[]))
  {
    var t0: Trie<H> := map[];
    var path := KeyPath(segs);
    forall j | 0 <= j < |path| && path[j] == Param
      ensures path[..j] + [Literal(request[j])] !in t
    {
      var q := path[..j] + [Literal(request[j])];
      assert q[j] != path[..|q|][j];
    }
    RegisteredRouteMatches(t0, t, segs, request, h);
    var names := NodeNames(t, path);
    forall j | 0 <= j < |segs|
      ensures names[j] == segs[j]
    {
      assert path[..j + 1] !in t0;
    }
    assert names == segs;
  }

  /** Params given by a later parameter position do not touch a name no later position uses. */
  lemma {:induction false} PatternParamsKeeps(segs: seq<string>, request: seq<string>, acc: map<string, string>, name: string)
    requires |segs| == |request|
    requires forall j :: 0 <= j < |segs| && ':' in segs[j] ==> ParamName(segs[j]) != name
    ensures name in PatternParams(segs, request, acc) <==> name in acc
    ensures name in acc ==> PatternParams(segs, request, acc)[name] == acc[name]
  {
    if |segs| > 0 {
      var acc' := if ':' in segs[0] then acc[ParamName(segs[0]) := request[0]] else acc;
      PatternParamsKeeps(segs[1..], request[1..], acc', name);
    }
  }

  /**
   * A parameter of the pattern maps to the request segment at its position
   * when no later parameter has the same name: the last one of a name wins.
   */
  lemma {:induction false} PatternParamsAt(segs: seq<string>, request: seq<string>, acc: map<string, string>, i: nat)
    requires |segs| == |request| && i < |segs| && ':' in segs[i]
    requires forall j :: i < j < |segs| && ':' in segs[j] ==> ParamName(segs[j]) != ParamName(segs[i])
    ensures ParamName(segs[i]) in PatternParams(segs, request, acc)
    ensures PatternParams(segs, request, acc)[ParamName(segs[i])] == request[i]
  {
    var acc' := if ':' in segs[0] then acc[ParamName(segs[0]) := request[0]] else acc;
    if i == 0 {
      PatternParamsKeeps(segs[1..], request[1..], acc', ParamName(segs[0]));
    } else {
      PatternParamsAt(segs[1..], request[1..], acc', i - 1);
    }
  }

  /** The collected param names are exactly the names there before plus the names of the pattern's parameters. */
  lemma {:induction false} PatternParamsNames(segs: seq<string>, request: seq<string>, acc: map<string, string>, name: string)
    requires |segs| == |request|
    ensures name in PatternParams(segs, request, acc)
            <==> name in acc || exists j :: 0 <= j < |segs| && ':' in segs[j] && ParamName(segs[j]) == name
  {
    if |segs| > 0 {
      var acc' := if ':' in segs[0] then acc[ParamName(segs[0]) := request[0]] else acc;
      PatternParamsNames(segs[1..], request[1..], acc', name);
      if exists j :: 0 <= j < |segs| - 1 && ':' in segs[1..][j] && ParamName(segs[1..][j]) == name {
        var j :| 0 <= j < |segs| - 1 && ':' in segs[1..][j] && ParamName(segs[1..][j]) == name;
        assert segs[j + 1] == segs[1..][j];
      }
      if exists j :: 0 <= j < |segs| && ':' in segs[j] && ParamName(segs[j]) == name {
        var j :| 0 <= j < |segs| && ':' in segs[j] && ParamName(segs[j]) == name;
        if j > 0 {
          assert segs[1..][j - 1] == segs[j];
        }
      }
    }
  }

  /** The literal segments of the params test. */
  lemma ScenarioLiterals()
    ensures ':' !in "api" && ':' !in "user"
  {
    assert "api"[0] != ':' && "api"[1] != ':' && "api"[2] != ':';
    assert "user"[0] != ':' && "user"[1] != ':' && "user"[2] != ':' && "user"[3] != ':';
  }

  /** The parameter segments of the params test, and the names they record. */
  lemma ScenarioSegments()
    ensures ':' in ":id" && ':' in ":name" && ':' in ":age"
    ensures ParamName(":id") == "id" && ParamName(":name") == "name" && ParamName(":age") == "age"
  {
    assert ":id"[0] == ':' && ":name"[0] == ':' && ":age"[0] == ':';
    assert IndexOf(":id", ':') == 0;
    assert IndexOf(":name", ':') == 0;
    assert IndexOf(":age", ':') == 0;
  }

  /** A pattern ending in one parameter segment records the request segment under its name. */
  lemma PatternParamsLastParam(seg: string, r: string, acc: map<string, string>)
    requires ':' in seg
    ensures PatternParams([seg], [r], acc) == acc[ParamName(seg) := r]
  {
    assert [seg][1..] == [] && [r][1..] == [];
  }

  /** The last parameter position of the params test. */
  lemma ScenarioParamsAge(m2: map<string, string>)
    ensures PatternParams([":age"], ["22"], m2) == m2["age" := "22"]
  {
    ScenarioSegments();
    PatternParamsLastParam(":age", "22", m2);
  }

  /** The last two parameter positions of the params test. */
  lemma ScenarioParamsLast(m1: map<string, string>)
    ensures PatternParams([":name", ":age"], ["bob", "22"], m1) == m1["name" := "bob"]["age" := "22"]
  {
    var m2 := m1["name" := "bob"];
    ScenarioSegments();
    ScenarioParamsAge(m2);
    assert [":name", ":age"][1..] == [":age"] && ["bob", "22"][1..] == ["22"];
  }

  /** The parameter positions `:id/:name/:age` against `666/bob/22`. */
  lemma ScenarioParamsTail()
    ensures PatternParams([":id", ":name", ":age"], ["666", "bob", "22"], map[])
            == map["id" := "666"]["name" := "bob"]["age" := "22"]
  {
    var m0: map<string, string> := map[];
    ScenarioSegments();
    ScenarioParamsLast(m0["id" := "666"]);
    assert [":id", ":name", ":age"][1..] == [":name", ":age"] && ["666", "bob", "22"][1..] == ["bob", "22"];
  }

  /** The request `api/user/666/bob/22` fits the pattern `api/user/:id/:name/:age`. */
  lemma ScenarioFits()
    ensures Fits(["api", "user", ":id", ":name", ":age"], ["api", "user", "666", "bob", "22"])
  {
    var segs: seq<string> := ["api", "user", ":id", ":name", ":age"];
    var request: seq<string> := ["api", "user", "666", "bob", "22"];
    assert segs[2][0] == ':' && segs[3][0] == ':' && segs[4][0] == ':';
    forall i | 0 <= i < |segs| && ':' !in segs[i]
      ensures request[i] == segs[i]
    {
      assert i < 2;
    }
  }

  /** The params `api/user/:id/:name/:age` collects from `api/user/666/bob/22`. */
  lemma ScenarioParams()
    ensures PatternParams(["api", "user", ":id", ":name", ":age"], ["api", "user", "666", "bob", "22"], map[])
            == map["id" := "666"]["name" := "bob"]["age" := "22"]
  {
    var m0: map<string, string> := map[];
    ScenarioParamsTail();
    ScenarioLiterals();
    assert PatternParams(["user", ":id", ":name", ":age"], ["user", "666", "bob", "22"], m0)
        == PatternParams([":id", ":name", ":age"], ["666", "bob", "22"], m0) by {
      assert ["user", ":id", ":name", ":age"][1..] == [":id", ":name", ":age"];
      assert ["user", "666", "bob", "22"][1..] == ["666", "bob", "22"];
    }
    assert ["api", "user", ":id", ":name", ":age"][1..] == ["user", ":id", ":name", ":age"];
    assert ["api", "user", "666", "bob", "22"][1..] == ["user", "666", "bob", "22"];
  }

  /**
   * The params test: with `api/user/:id/:name/:age` registered on a method
   * with no routes, the request `api/user/666/bob/22` reaches the handler
   * with params `{id: "666", name: "bob", age: "22"}`.
   */
  lemma RouteParamsScenario<H>(t: Trie<H>, h: H)
    requires Grows(map[], t, ["api", "user", ":id", ":name", ":age"], 5, h)
    ensures WalkFrom(t, [], ["api", "user", "666", "bob", "22"], map[])
            == Walked(Some(h), map["id" := "666"]["name" := "bob"]["age" := "22"])
  {
    ScenarioFits();
    ScenarioParams();
    OnlyPatternMatches(t, ["api", "user", ":id", ":name", ":age"], ["api", "user", "666", "bob", "22"], h);
  }

  /** The nodes of a method trie after registering `a/:x/c` on it when it was empty. */
  lemma FirstPatternNodes<H>(t1: Trie<H>, h1: H)
    requires Grows(map[], t1, ["a", ":x", "c"], 3, h1)
    ensures [Literal("a")] in t1 && t1[[Literal("a")]] == RouteNode(false, "a", None)
    ensures [Literal("a"), Param, Literal("c")] in t1
    ensures t1[[Literal("a"), Param, Literal("c")]].handler == Some(h1)
    ensures forall p :: p in t1 ==> 1 <= |p| <= 3 && p[0] == Literal("a") && (|p| > 1 ==> p[1] == Param)
  {
    var s1: seq<string> := ["a", ":x", "c"];
    var p1 := KeyPath(s1);
    assert p1 == [Literal("a"), Param, Literal("c")];
    assert p1[..1] == [Literal("a")];
    assert p1[..3] == p1;
    forall p | p in t1
      ensures 1 <= |p| <= 3 && p[0] == Literal("a") && (|p| > 1 ==> p[1] == Param)
    {
      assert p == p1[..|p|];
    }
  }

  /** What registering `a/b/d/:z` keeps and adds along `a/b`. */
  lemma SecondPatternNodes<H>(t1: Trie<H>, t2: Trie<H>, h1: H, h2: H)
    requires [Literal("a")] in t1 && t1[[Literal("a")]] == RouteNode(false, "a", None)
    requires [Literal("a"), Param, Literal("c")] in t1
    requires t1[[Literal("a"), Param, Literal("c")]].handler == Some(h1)
    requires forall p :: p in t1 ==> 1 <= |p| <= 3 && p[0] == Literal("a") && (|p| > 1 ==> p[1] == Param)
    requires Grows(t1, t2, ["a", "b", "d", ":z"], 4, h2)
    ensures [Literal("a")] in t2 && !t2[[Literal("a")]].isParam
    ensures [Literal("a"), Literal("b")] in t2 && !t2[[Literal("a"), Literal("b")]].isParam
    ensures [Literal("a"), Param, Literal("c")] in t2
    ensures t2[[Literal("a"), Param, Literal("c")]].handler == Some(h1)
  {
    var s2: seq<string> := ["a", "b", "d", ":z"];
    var p2 := KeyPath(s2);
    assert p2[1] == Literal("b");
    var ab := [Literal("a"), Literal("b")];
    assert p2[..2] == ab;
    assert ab !in t1 by { assert ab[1] != Param; }
  }

  /** Registering `a/b/d/:z` gives `a/b` no child `c` and no parameter child. */
  lemma SecondPatternAbsent<H>(t1: Trie<H>, t2: Trie<H>, h2: H)
    requires forall p :: p in t1 ==> 1 <= |p| <= 3 && p[0] == Literal("a") && (|p| > 1 ==> p[1] == Param)
    requires Grows(t1, t2, ["a", "b", "d", ":z"], 4, h2)
    ensures [Literal("a"), Literal("b"), Literal("c")] !in t2
    ensures [Literal("a"), Literal("b"), Param] !in t2
  {
    var s2: seq<string> := ["a", "b", "d", ":z"];
    var p2 := KeyPath(s2);
    assert p2[2] == Literal("d");
    var abc, abp := [Literal("a"), Literal("b"), Literal("c")], [Literal("a"), Literal("b"), Param];
    assert abc !in t1 && abc[2] != p2[2];
    assert abp !in t1 && abp[2] != p2[2];
  }

  /** The walk of `a/b/c` over a trie whose node `a/b` has neither a child `c` nor a parameter child. */
  lemma WalkStopsUnderAB<H>(t: Trie<H>)
    requires [Literal("a")] in t && !t[[Literal("a")]].isParam
    requires [Literal("a"), Literal("b")] in t && !t[[Literal("a"), Literal("b")]].isParam
    requires [Literal("a"), Literal("b"), Literal("c")] !in t
    requires [Literal("a"), Literal("b"), Param] !in t
    ensures WalkFrom(t, [], ["a", "b", "c"], map[]) == Walked(None, map[])
  {
    var a, ab := [Literal("a")], [Literal("a"), Literal("b")];
    assert [] + [Literal("a")] == a;
    assert Pick(t, [], "a") == Some(a);
    assert a + [Literal("b")] == ab;
    assert Pick(t, a, "b") == Some(ab);
    assert ab + [Literal("c")] == [Literal("a"), Literal("b"), Literal("c")];
    assert ab + [Param] == [Literal("a"), Literal("b"), Param];
    assert Pick(t, ab, "c") == None;
    assert ["a", "b", "c"][1..] == ["b", "c"];
    assert ["b", "c"][1..] == ["c"];
  }

  /**
   * The walk never backtracks: with routes `a/:x/c` and `a/b/d/:z`
   * registered on an empty method, the request `a/b/c` takes the literal
   * child `b`, finds no child `c` under it, and ends without a handler, even
   * though `a/:x/c` would match it.
   */
  lemma NoBacktracking<H>(t1: Trie<H>, t2: Trie<H>, h1: H, h2: H)
    requires Grows(map[], t1, ["a", ":x", "c"], 3, h1)
    requires Grows(t1, t2, ["a", "b", "d", ":z"], 4, h2)
    ensures Fits(["a", ":x", "c"], ["a", "b", "c"])
    ensures [Literal("a"), Param, Literal("c")] in t2 && t2[[Literal("a"), Param, Literal("c")]].handler == Some(h1)
    ensures WalkFrom(t2, [], ["a", "b", "c"], map[]) == Walked(None, map[])
  {
    assert Fits(["a", ":x", "c"], ["a", "b", "c"]) by {
      assert "c"[0] != ':';
      assert "a"[0] != ':';
    }
    FirstPatternNodes(t1, h1);
    SecondPatternNodes(t1, t2, h1, h2);
    SecondPatternAbsent(t1, t2, h2);
    WalkStopsUnderAB(t2);
  }

  /**
   * The walk of `handle` through one method's trie for the segments of a
   * pattern with a `:`: each segment containing `:` is keyed under the one
   * parameter key; an existing node is reused (keeping its name and
   * handler), a missing one is created; the walk throws exactly when the
   * terminal node already holds a handler, and then has changed nothing.
   */
  method InsertPath<H>(t0: Trie<H>, segs: seq<string>, h: H) returns (o: Outcome, trie: Trie<H>)
    requires WellFormed(t0)
    ensures WellFormed(trie)
    ensures o.Threw? <==> KeyPath(segs) in t0 && t0[KeyPath(segs)].handler.Some?
    ensures o.Threw? ==> o == Threw(HandlerExists) && trie == t0
    ensures o.Returned? ==> Grows(t0, trie, segs, |segs|, h)
  {
    var path := KeyPath(segs);
    // A conflict can only be found before the first node is created, so
    // growing a copy that the caller stores on success is the same as
    // creating each node in place.
    trie := t0;
    var prefix: TriePath := [];
    var i := 0;
    while i < |segs|
      invariant 0 <= i <= |segs|
      invariant prefix == path[..i]
      invariant Grows(t0, trie, segs, i, h)
      invariant i == |segs| ==> !(path in t0 && t0[path].handler.Some?)
    {
      var routeKey := KeyOf(segs[i]);
      var isLastPart := i == |segs| - 1;
      var child := prefix + [routeKey];
      PrefixStep(path, i);
      if child in trie {
        GrowsOverExisting(t0, trie, segs, i, h);
        if isLastPart && trie[child].handler.Some? {
          assert path[..i + 1] == path;
          GrowsNothing(t0, trie, segs, i + 1, h);
          return Threw(HandlerExists), trie;
        }
      } else {
        GrowsByFresh(t0, trie, segs, i, h);
        trie := trie[child := FreshNode(segs, i + 1, h)];
      }
      if isLastPart {
        assert path[..i + 1] == path;
      }
      prefix := child;
      i := i + 1;
    }
    GrowsWellFormed(t0, trie, segs, h);
    return Returned, trie;
  }

  /**
   * The router object: the exact-route table keyed `[METHOD]path` and the
   * parametric tries by method, as `createRouter` allocates them.
   */
  class Router<H> {
    var simple: map<string, H>
    var complex: map<string, Trie<H>>

    ghost predicate Valid()
      reads this
    {
      forall m :: m in complex ==> WellFormed(complex[m])
    }

    /** `createRouter()`: both tables empty. */
    constructor ()
      ensures Valid() && simple == map[] && complex == map[]
    {
      simple := map[];
      complex := map[];
    }

    /**
     * `handle(method, url, handler)`. A normalised pattern without `:` goes
     * into the exact table under `[METHOD]path` and throws if the key is
     * taken. Any other pattern is walked segment by segment through the
     * method's trie, reusing existing nodes and creating missing ones; it
     * throws exactly when its terminal node already holds a handler, and
     * then leaves the trie as it was.
     */
    method Handle(verb: string, url: string, h: H) returns (o: Outcome)
      requires Valid()
      modifies this
      ensures Valid()
      ensures var key := SimpleRouteKey(verb, NormalizeUrl(url));
              ':' !in NormalizeUrl(url) ==>
                && complex == old(complex)
                && (key in old(simple) ==> o == Threw(RouteExists) && simple == old(simple))
                && (key !in old(simple) ==> o == Returned && simple == old(simple)[key := h])
      ensures var segs := Split(NormalizeUrl(url), '/');
              var t0 := if verb in old(complex) then old(complex)[verb] else map[];
              ':' in NormalizeUrl(url) ==>
                && simple == old(simple)
                && (o.Threw? <==> KeyPath(segs) in t0 && t0[KeyPath(segs)].handler.Some?)
                && (o.Threw? ==> o == Threw(HandlerExists) && complex == old(complex))
                && (o.Returned? ==> verb in complex && complex == old(complex)[verb := complex[verb]]
                                     && Grows(t0, complex[verb], segs, |segs|, h))
    {
      var normalized := NormalizeUrl(url);
      var key := SimpleRouteKey(verb, normalized);
      if ':' !in normalized {
        if key in simple {
          return Threw(RouteExists);
        }
        simple := simple[key := h];
        return Returned;
      }
      o := Insert(verb, Split(normalized, '/'), h);
    }

    /**
     * The trie half of `handle`, for the segments of a pattern with a `:`:
     * the method's trie (a fresh root when the method has none) is grown
     * along the pattern; on a conflict nothing is stored.
     */
    method Insert(verb: string, segs: seq<string>, h: H) returns (o: Outcome)
      requires Valid()
      modifies this
      ensures Valid() && simple == old(simple)
      ensures var t0 := if verb in old(complex) then old(complex)[verb] else map[];
              && (o.Threw? <==> KeyPath(segs) in t0 && t0[KeyPath(segs)].handler.Some?)
              && (o.Threw? ==> o == Threw(HandlerExists) && complex == old(complex))
              && (o.Returned? ==> verb in complex && complex == old(complex)[verb := complex[verb]]
                                   && Grows(t0, complex[verb], segs, |segs|, h))
    {
      var t0: Trie<H> := if verb in complex then complex[verb] else map[];
      var t;
      o, t := InsertPath(t0, segs, h);
      if o.Returned? {
        complex := complex[verb := t];
      }
    }
    /** `router.get/post/put/patch/delete(url, handler)` and their siblings: `handle` with a fixed method. */
    method Route(m: HttpMethod, url: string, h: H) returns (o: Outcome)
      requires Valid()
      modifies this
      ensures Valid()
      ensures var key := SimpleRouteKey(MethodName(m), NormalizeUrl(url));
              ':' !in NormalizeUrl(url) ==>
                && complex == old(complex)
                && (o.Threw? <==> key in old(simple))
                && simple == (if key in old(simple) then old(simple) else old(simple)[key := h])
      ensures var verb := MethodName(m);
              var segs := Split(NormalizeUrl(url), '/');
              var t0 := if verb in old(complex) then old(complex)[verb] else map[];
              ':' in NormalizeUrl(url) ==>
                && simple == old(simple)
                && (o.Threw? <==> KeyPath(segs) in t0 && t0[KeyPath(segs)].handler.Some?)
                && (o.Threw? ==> o == Threw(HandlerExists) && complex == old(complex))
                && (o.Returned? ==> verb in complex && complex == old(complex)[verb := complex[verb]]
                                     && Grows(t0, complex[verb], segs, |segs|, h))
    {
      o := Handle(MethodName(m), url, h);
    }

    /**
     * The decision of the router middleware for a request: no method means
     * `next()`; the exact table is probed with the normalised URL; otherwise
     * the trie is walked, literal child before parameter child, collecting
     * params under each parameter node's stored name.
     */
    method Match(verb: string, url: string) returns (d: Dispatch<H>)
      ensures d == Lookup(simple, complex, verb, url)
    {
      if verb == "" {
        return NoMethod;
      }
      var normalized := NormalizeUrl(url);
      var key := SimpleRouteKey(verb, normalized);
      if key in simple {
        return SimpleHit(simple[key]);
      }
      var segs := Split(normalized, '/');
      var prev: Option<TriePath> := if verb in complex then Some([]) else None;
      var trie: Trie<H> := if verb in complex then complex[verb] else map[];
      ghost var result := Lookup(simple, complex, verb, url);
      var handler: Option<H> := None;
      var params: map<string, string> := map[];
      var i := 0;
      while i < |segs|
        invariant 0 <= i <= |segs|
        invariant prev.Some? ==> prev.value in trie || prev.value == []
        invariant i < |segs| && prev.None? ==> result == WalkFailed
        invariant i < |segs| && prev.Some? ==> result == WalkFrom(trie, prev.value, segs[i..], params)
        invariant i == |segs| ==> result == Walked(handler, params)
        invariant i == 0 ==> params == map[] && (prev.Some? <==> verb in complex)
      {
        if prev.None? {
          return WalkFailed;
        }
        var seg := segs[i];
        var at := prev.value;
        var current: Option<TriePath> := None;
        if at + [Literal(seg)] in trie {
          current := Some(at + [Literal(seg)]);
        } else if at + [Param] in trie {
          current := Some(at + [Param]);
        }
        assert current == Pick(trie, at, seg);
        if i == |segs| - 1 {
          handler := if current.Some? then trie[current.value].handler else None;
        }
        if current.Some? && trie[current.value].isParam && trie[current.value].name != "" {
          params := params[ParamName(trie[current.value].name) := seg];
        }
        assert segs[i..][0] == seg;
        assert segs[i..][1..] == segs[i + 1..];
        prev := current;
        i := i + 1;
      }
      return Walked(handler, params);
    }
  }
}
