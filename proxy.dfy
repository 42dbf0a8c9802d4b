/**
 * The recording proxies used to run foreign middleware against a stand-in
 * object: the nested "super" proxy, which turns every property path into a
 * dotted key and records assignments and invocations under it, and the
 * readonly proxy, which shadows assignments in a `changes` record and never
 * writes to its target.
 *
 * The `Proxy` traps are explicit operations: Get (`proxy.k`), Set
 * (`proxy.k = v`) and Apply (`proxy(...args)`).
 */
module Proxy {
  import opened Common
  import opened JsValues
  import opened Text

  /** A property key as written at the access site: `.name` or `[index]`. */
  datatype PropertyKey = Name(name: string) | Index(index: nat)

  /** The string a trap receives: an index arrives as its decimal text. */
  function KeyText(k: PropertyKey): (s: string)
    ensures k.Index? ==> (forall i :: 0 <= i < |s| ==> '0' <= s[i] <= '9') && DecimalValue(s) == k.index
  {
    match k
    case Name(n) => n
    case Index(i) => DecimalRoundTrip(i); DecimalText(i)
  }

  /** The key a path is recorded under: `paths.join(".")`. */
  function DottedKey(path: seq<string>): string
  {
    Join(path, '.')
  }

  /** A path whose segments hold no `.` is recovered from its dotted key. */
  lemma DottedKeyRecoversPath(path: seq<string>)
    requires |path| >= 1
    requires forall k :: 0 <= k < |path| ==> '.' !in path[k]
    ensures Split(DottedKey(path), '.') == path
  {
    SplitJoin(path, '.');
  }

  /** A segment that holds a `.` is recorded under the same key as the path it spells out. */
  lemma DottedKeysCollide()
    ensures DottedKey(["a.b"]) == DottedKey(["a", "b"])
  {
    assert DottedKey(["a", "b"]) == "a" + "." + "b";
  }

  /** The calls recorded under `key` so far (none before the first). */
  function CallsAt(calls: map<string, seq<seq<Value>>>, key: string): seq<seq<Value>>
  {
    if key in calls then calls[key] else []
  }

  /** The `setCb` of `createSuperProxy`: `sets[path.join(".")] = value`. */
  function Assigned(sets: map<string, Value>, path: seq<string>, v: Value): map<string, Value>
  {
    sets[DottedKey(path) := v]
  }

  /** The `callCb` of `createSuperProxy`: the argument list is pushed onto `calls[path.join(".")]`, created empty first. */
  function Invoked(calls: map<string, seq<seq<Value>>>, path: seq<string>, args: seq<Value>): map<string, seq<seq<Value>>>
  {
    calls[DottedKey(path) := CallsAt(calls, DottedKey(path)) + [args]]
  }

  /** Invocations at one path, in order. */
  function InvokedAll(calls: map<string, seq<seq<Value>>>, path: seq<string>, argss: seq<seq<Value>>): map<string, seq<seq<Value>>>
    decreases |argss|
  {
    if |argss| == 0 then calls else InvokedAll(Invoked(calls, path, argss[0]), path, argss[1..])
  }

  /** A later assignment to the same dotted key overwrites the earlier one; other keys keep their value. */
  lemma LastWriteWins(sets: map<string, Value>, p: seq<string>, q: seq<string>, v1: Value, v2: Value, other: string)
    requires DottedKey(p) == DottedKey(q)
    requires other != DottedKey(p)
    ensures Assigned(Assigned(sets, p, v1), q, v2) == Assigned(sets, q, v2)
    ensures other in Assigned(sets, p, v1) <==> other in sets
    ensures other in sets ==> Assigned(sets, p, v1)[other] == sets[other]
  {
  }

  /**
   * Invocations at a path are recorded one argument list each, in call
   * order, after the ones already there; every other key keeps its calls.
   */
  lemma {:induction false} CallsKeepOrder(calls: map<string, seq<seq<Value>>>, path: seq<string>, argss: seq<seq<Value>>, other: string)
    requires other != DottedKey(path)
    ensures CallsAt(InvokedAll(calls, path, argss), DottedKey(path)) == CallsAt(calls, DottedKey(path)) + argss
    ensures CallsAt(InvokedAll(calls, path, argss), other) == CallsAt(calls, other)
    decreases |argss|
  {
    if |argss| > 0 {
      var next := Invoked(calls, path, argss[0]);
      CallsKeepOrder(next, path, argss[1..], other);
      assert CallsAt(calls, DottedKey(path)) + [argss[0]] + argss[1..] == CallsAt(calls, DottedKey(path)) + argss;
    }
  }

  /** A JavaScript array of path segments, shared by whoever holds it. */
  class PathArray {
    var items: seq<string>

    constructor (items: seq<string>)
      ensures this.items == items
    {
      this.items := items;
    }

    /** `push(s)`, in place. */
    method Push(s: string)
      modifies this
      ensures items == old(items) + [s]
    {
      items := items + [s];
    }
  }

  /** The `result` record `createSuperProxy` returns as `changes`. */
  class Recorder {
    var sets: map<string, Value>
    var calls: map<string, seq<seq<Value>>>

    constructor ()
      ensures sets == map[] && calls == map[]
    {
      sets := map[];
      calls := map[];
    }
  }

  /** The message of the TypeError raised when an invocation has no path to join. */
  const JoinOfUndefined := "Cannot read properties of undefined (reading 'join')"

  /**
   * A proxy made by `createNestedProxy`: the `paths` array it closed over
   * (null for `undefined`, as on the root) and the recorder its callbacks
   * write to. Its target is a no-op function.
   */
  class NestedProxy {
    const paths: PathArray?
    const recorder: Recorder

    constructor (paths: PathArray?, recorder: Recorder)
      ensures this.paths == paths && this.recorder == recorder
    {
      this.paths := paths;
      this.recorder := recorder;
    }

    /** The segments of `paths`, or none when it is `undefined`. */
    function Path(): seq<string>
      reads this, paths
    {
      if paths == null then [] else paths.items
    }

    /**
     * The `get` trap: the segment is pushed onto `paths` (a fresh array
     * when there is none) and a proxy closing over that same array is
     * returned. Nothing is recorded.
     */
    method Get(key: PropertyKey) returns (child: NestedProxy)
      modifies paths
      ensures fresh(child) && child.recorder == recorder
      ensures child.Path() == old(Path()) + [KeyText(key)]
      ensures paths == null ==> child.paths != null && fresh(child.paths)
      ensures paths != null ==> child.paths == paths
    {
      var local := paths;
      if local == null {
        local := new PathArray([]);
      }
      local.Push(KeyText(key));
      child := new NestedProxy(local, recorder);
    }

    /** The `set` trap: `setCb` gets a copy of the path with the key appended. */
    method Set(key: PropertyKey, value: Value)
      modifies recorder
      ensures recorder.sets == Assigned(old(recorder.sets), Path() + [KeyText(key)], value)
      ensures recorder.calls == old(recorder.calls)
    {
      var path := if paths == null then [] else paths.items;
      recorder.sets := recorder.sets[DottedKey(path + [KeyText(key)]) := value];
    }

    /** The `apply` trap: `callCb` joins `paths`, which throws when it is `undefined`. */
    method Apply(args: seq<Value>) returns (o: Outcome)
      modifies recorder
      ensures paths == null ==> o == Threw(JoinOfUndefined) && recorder.sets == old(recorder.sets) && recorder.calls == old(recorder.calls)
      ensures paths != null ==> o == Returned && recorder.sets == old(recorder.sets)
                                && recorder.calls == Invoked(old(recorder.calls), paths.items, args)
    {
      if paths == null {
        return Threw(JoinOfUndefined);
      }
      var key := DottedKey(paths.items);
      if key !in recorder.calls {
        recorder.calls := recorder.calls[key := []];
      }
      recorder.calls := recorder.calls[key := recorder.calls[key] + [args]];
      o := Returned;
    }
  }

  /** `createSuperProxy()`: a root proxy with no path over an empty recorder. */
  method CreateSuperProxy() returns (proxy: NestedProxy, changes: Recorder)
    ensures fresh(proxy) && fresh(changes)
    ensures proxy.paths == null && proxy.recorder == changes
    ensures changes.sets == map[] && changes.calls == map[]
  {
    changes := new Recorder();
    proxy := new NestedProxy(null, changes);
  }

  /** The strings the traps receive for a sequence of keys. */
  function Texts(keys: seq<PropertyKey>): (texts: seq<string>)
    ensures |texts| == |keys|
    ensures forall i :: 0 <= i < |keys| ==> texts[i] == KeyText(keys[i])
  {
    seq(|keys|, i requires 0 <= i < |keys| => KeyText(keys[i]))
  }

  /**
   * Reading `root.k1.k2...kn` from the root: each read starts from the
   * proxy the previous one returned, so the result's path is the keys in
   * order, in an array no earlier proxy holds; nothing is recorded.
   */
  method Walk(root: NestedProxy, keys: seq<PropertyKey>) returns (p: NestedProxy)
    requires root.paths == null
    ensures p.recorder == root.recorder
    ensures p.Path() == Texts(keys)
    ensures |keys| > 0 ==> p.paths != null && fresh(p.paths)
    ensures |keys| == 0 ==> p == root
  {
    p := root;
    var i := 0;
    while i < |keys|
      invariant 0 <= i <= |keys|
      invariant p.recorder == root.recorder
      invariant p.Path() == Texts(keys[..i])
      invariant i > 0 ==> p.paths != null && fresh(p.paths)
      invariant i == 0 ==> p == root
    {
      assert Texts(keys[..i + 1]) == Texts(keys[..i]) + [KeyText(keys[i])];
      p := p.Get(keys[i]);
      i := i + 1;
    }
    assert keys[..i] == keys;
  }

  /** `root.k1...kn[last] = value` records `value` under the dotted key of the whole path. */
  method Assign(root: NestedProxy, keys: seq<PropertyKey>, last: PropertyKey, value: Value)
    requires root.paths == null
    modifies root.recorder
    ensures root.recorder.sets == Assigned(old(root.recorder.sets), Texts(keys + [last]), value)
    ensures root.recorder.calls == old(root.recorder.calls)
  {
    var p := Walk(root, keys);
    p.Set(last, value);
    assert Texts(keys + [last]) == Texts(keys) + [KeyText(last)];
  }

  /** `root.k1...kn(...args)` with at least one key appends `args` under the dotted key of the path. */
  method Invoke(root: NestedProxy, keys: seq<PropertyKey>, args: seq<Value>) returns (o: Outcome)
    requires root.paths == null && |keys| > 0
    modifies root.recorder
    ensures o == Returned
    ensures root.recorder.calls == Invoked(old(root.recorder.calls), Texts(keys), args)
    ensures root.recorder.sets == old(root.recorder.sets)
  {
    var p := Walk(root, keys);
    o := p.Apply(args);
  }

  /**
   * The recording of the proxy test: `a.b.c = 1`, `z.f.d[99] = 12`,
   * `z.ee.g(1, 2, 3)`, `z.ee.g(3)` and `z.ee[33].g(4, 2)`, each written
   * from the root.
   */
  method RecordingScenario() returns (sets: map<string, Value>, calls: map<string, seq<seq<Value>>>)
    ensures sets == map["a.b.c" := Num(1), "z.f.d.99" := Num(12)]
    ensures calls == map["z.ee.g" := [[Num(1), Num(2), Num(3)], [Num(3)]], "z.ee.33.g" := [[Num(4), Num(2)]]]
  {
    var root, changes := CreateSuperProxy();
    KeyABC();
    KeyZFD99();
    KeyZEEG();
    KeyZEE33G();
    Assign(root, [Name("a"), Name("b")], Name("c"), Num(1));
    assert changes.sets == map["a.b.c" := Num(1)];
    Assign(root, [Name("z"), Name("f"), Name("d")], Index(99), Num(12));
    assert changes.sets == map["a.b.c" := Num(1), "z.f.d.99" := Num(12)];
    assert changes.calls == map[];
    var o := Invoke(root, [Name("z"), Name("ee"), Name("g")], [Num(1), Num(2), Num(3)]);
    assert CallsAt(map[], "z.ee.g") + [[Num(1), Num(2), Num(3)]] == [[Num(1), Num(2), Num(3)]];
    assert changes.calls == map["z.ee.g" := [[Num(1), Num(2), Num(3)]]];
    o := Invoke(root, [Name("z"), Name("ee"), Name("g")], [Num(3)]);
    assert [[Num(1), Num(2), Num(3)]] + [[Num(3)]] == [[Num(1), Num(2), Num(3)], [Num(3)]];
    assert changes.calls == map["z.ee.g" := [[Num(1), Num(2), Num(3)], [Num(3)]]];
    o := Invoke(root, [Name("z"), Name("ee"), Index(33), Name("g")], [Num(4), Num(2)]);
    assert CallsAt(map["z.ee.g" := [[Num(1), Num(2), Num(3)], [Num(3)]]], "z.ee.33.g") == [];
    assert [] + [[Num(4), Num(2)]] == [[Num(4), Num(2)]];
    sets := changes.sets;
    calls := changes.calls;
  }

  /** `a.b.c`. */
  lemma KeyABC()
    ensures DottedKey(Texts([Name("a"), Name("b")] + [Name("c")])) == "a.b.c"
  {
    assert Texts([Name("a"), Name("b")] + [Name("c")]) == ["a", "b", "c"];
    assert DottedKey(["c"]) == "c";
    assert DottedKey(["b", "c"]) == "b.c";
  }

  /** The numeric keys of the recording test, as JavaScript spells them. */
  lemma IndexTexts()
    ensures KeyText(Index(99)) == "99" && KeyText(Index(33)) == "33"
  {
    assert DecimalText(9) == "9" && DecimalText(3) == "3";
  }

  /** `z.f.d.99`: the index 99 becomes the segment `99`. */
  lemma KeyZFD99()
    ensures DottedKey(Texts([Name("z"), Name("f"), Name("d")] + [Index(99)])) == "z.f.d.99"
  {
    IndexTexts();
    assert Texts([Name("z"), Name("f"), Name("d")] + [Index(99)]) == ["z", "f", "d", "99"];
    assert DottedKey(["99"]) == "99";
    assert DottedKey(["d", "99"]) == "d.99";
    assert DottedKey(["f", "d", "99"]) == "f.d.99";
  }

  /** `z.ee.g`. */
  lemma KeyZEEG()
    ensures DottedKey(Texts([Name("z"), Name("ee"), Name("g")])) == "z.ee.g"
  {
    assert Texts([Name("z"), Name("ee"), Name("g")]) == ["z", "ee", "g"];
    assert DottedKey(["g"]) == "g";
    assert DottedKey(["ee", "g"]) == "ee.g";
  }

  /** `z.ee.33.g`: the index 33 becomes the segment `33`. */
  lemma KeyZEE33G()
    ensures DottedKey(Texts([Name("z"), Name("ee"), Index(33), Name("g")])) == "z.ee.33.g"
  {
    assert Texts([Name("z"), Name("ee"), Index(33), Name("g")]) == ["z", "ee", "33", "g"] by {
      IndexTexts();
    }
    DottedZEE33G();
  }

  /** The dotted key of the segments `z`, `ee`, `33`, `g`. */
  lemma DottedZEE33G()
    ensures DottedKey(["z", "ee", "33", "g"]) == "z.ee.33.g"
  {
    assert DottedKey(["g"]) == "g";
    assert DottedKey(["33", "g"]) == "33.g";
    assert DottedKey(["ee", "33", "g"]) == "ee.33.g";
  }

  /**
   * Reading through a kept intermediate proxy pushes into that proxy's own
   * array: after `const p = proxy.a; p.b;`, the assignment `p.c = 1` is
   * recorded under `a.b.c`, not `a.c`.
   */
  method AliasingScenario() returns (sets: map<string, Value>)
    ensures sets == map["a.b.c" := Num(1)]
  {
    var root, changes := CreateSuperProxy();
    var p := root.Get(Name("a"));
    var pb := p.Get(Name("b"));
    assert p.Path() == ["a", "b"];
    p.Set(Name("c"), Num(1));
    assert ["a", "b"] + [KeyText(Name("c"))] == ["a", "b", "c"];
    assert DottedKey(["a", "b", "c"]) == "a.b.c";
    sets := changes.sets;
  }

  /** Calling the root proxy itself throws, and nothing is recorded. */
  method RootCallScenario() returns (o: Outcome, calls: map<string, seq<seq<Value>>>)
    ensures o == Threw(JoinOfUndefined) && calls == map[]
  {
    var root, changes := CreateSuperProxy();
    o := root.Apply([Num(1)]);
    calls := changes.calls;
  }

  /** A plain JavaScript object, reduced to its own string-keyed properties. */
  class JsObject {
    var props: map<string, Value>

    constructor (props: map<string, Value>)
      ensures this.props == props
    {
      this.props := props;
    }
  }

  /** `obj[p]` on a plain object: the property, or `undefined` when it has none. */
  function Property(props: map<string, Value>, p: string): Value
  {
    if p in props then props[p] else Undefined
  }

  /** What the readonly proxy's `get` trap returns: a shadowing write, else the target's property, else `undefined`. */
  function ReadThrough(changes: map<string, Value>, target: map<string, Value>, p: string): Value
  {
    if p in changes then changes[p] else Property(target, p)
  }

  /** A shadowing write is read back; a property never written reads from the target, or is `undefined`. */
  lemma ReadThroughShadows(changes: map<string, Value>, target: map<string, Value>, p: string, q: string, v: Value)
    requires q != p
    ensures ReadThrough(changes[p := v], target, p) == v
    ensures ReadThrough(changes[p := v], target, q) == ReadThrough(changes, target, q)
    ensures ReadThrough(map[], target, q) == if q in target then target[q] else Undefined
  {
  }

  /** The proxy `createReadonlyProxy(target)` returns, with its `changes` record. */
  class ReadonlyProxy {
    const target: JsObject
    const changes: JsObject

    /** The changes record is a different object from the target. */
    ghost predicate Valid()
      reads this
    {
      target != changes
    }

    constructor (target: JsObject, changes: JsObject)
      requires target != changes
      ensures this.target == target && this.changes == changes && Valid()
    {
      this.target := target;
      this.changes := changes;
    }

    /** The `set` trap: the value goes into `changes`; the target is not written. */
    method Set(p: string, v: Value)
      requires Valid()
      modifies changes
      ensures changes.props == old(changes.props)[p := v]
      ensures target.props == old(target.props)
    {
      changes.props := changes.props[p := v];
    }

    /** The `get` trap. */
    method Get(p: string) returns (v: Value)
      ensures v == ReadThrough(changes.props, target.props, p)
    {
      if p in changes.props {
        return changes.props[p];
      }
      if p in target.props {
        return target.props[p];
      }
      return Undefined;
    }
  }

  /** `createReadonlyProxy(target)`: a proxy over `target` with an empty `changes` record. */
  method CreateReadonlyProxy(target: JsObject) returns (proxy: ReadonlyProxy, changes: JsObject)
    ensures fresh(proxy) && fresh(changes)
    ensures proxy.target == target && proxy.changes == changes && proxy.Valid()
    ensures changes.props == map[]
  {
    changes := new JsObject(map[]);
    proxy := new ReadonlyProxy(target, changes);
  }

  /**
   * The readonly proxy test: over `{test: 1}`, the assignments
   * `test = 100` and `another = "sup"` land in `changes`, the object keeps
   * `test: 1` and gains no `another`, and reading `test` through the proxy
   * gives 100.
   */
  method ReadonlyScenario() returns (objTest: Value, objAnother: Value, changedTest: Value, changedAnother: Value, readTest: Value)
    ensures objTest == Num(1) && objAnother == Undefined
    ensures changedTest == Num(100) && changedAnother == Str("sup")
    ensures readTest == Num(100)
  {
    var obj := new JsObject(map["test" := Num(1)]);
    var proxy, changes := CreateReadonlyProxy(obj);
    proxy.Set("test", Num(100));
    proxy.Set("another", Str("sup"));
    objTest := Property(obj.props, "test");
    objAnother := Property(obj.props, "another");
    changedTest := changes.props["test"];
    changedAnother := changes.props["another"];
    readTest := proxy.Get("test");
  }
}
