/**
 * The JavaScript values the toolkit stores and passes around, JavaScript
 * truthiness (which drives every `||` default and `if (!x)` test of the
 * core), and the insertion-ordered `Map` used for response headers.
 */
module JsValues {
  import opened Common

  /** A JSON document, as handed to `respondJson`. */
  datatype Json =
    | JNull
    | JBool(b: bool)
    | JNumber(n: int)
    | JString(s: string)
    | JArray(items: seq<Json>)
    | JObject(members: seq<(string, Json)>)

  /** A header value: `string | string[]`. */
  datatype HeaderValue = Single(text: string) | Multiple(texts: seq<string>)

  /** An insertion-ordered JavaScript `Map` from header names to values. */
  type HeaderEntries = seq<(string, HeaderValue)>

  /** The values a context slot, a recorded assignment or an argument can hold. */
  datatype Value =
    | Undefined
    | Null
    | Bool(b: bool)
    | Num(n: int)
    | Str(s: string)
      /** The string `JSON.stringify(json)` returns; never the empty string. */
    | Serialized(json: Json)
    | HeaderMap(entries: HeaderEntries)
    | ParamRecord(params: map<string, string>)
      /** The inbound request handle, reduced to the two fields the router reads. */
    | RequestHandle(verb: string, url: string)
      /** Any other object (the response handle, functions, plain objects). */
    | ObjectRef(id: nat)

  /** JavaScript truthiness: `undefined`, `null`, `false`, `0` and `""` are falsy. */
  predicate Truthy(v: Value)
  {
    match v
    case Undefined => false
    case Null => false
    case Bool(b) => b
    case Num(n) => n != 0
    case Str(s) => s != ""
    case _ => true
  }

  /** JavaScript `a || b`. */
  function Or(a: Value, b: Value): (r: Value)
    ensures Truthy(a) ==> r == a
    ensures !Truthy(a) ==> r == b
  {
    if Truthy(a) then a else b
  }

  /** The names of a `Map`, in insertion order (the order `forEach` visits them). */
  function Names<V>(m: seq<(string, V)>): (ks: seq<string>)
    ensures |ks| == |m|
    ensures forall i :: 0 <= i < |m| ==> ks[i] == m[i].0
  {
    if |m| == 0 then [] else [m[0].0] + Names(m[1..])
  }

  /** No name occurs twice: what a JavaScript `Map` guarantees. */
  predicate DistinctNames<V>(m: seq<(string, V)>)
  {
    forall i, j :: 0 <= i < j < |m| ==> m[i].0 != m[j].0
  }

  /** The position of the first entry named `k`. */
  function FirstIndex<V>(m: seq<(string, V)>, k: string): (i: nat)
    requires k in Names(m)
    ensures i < |m| && m[i].0 == k && k !in Names(m[..i])
  {
    if m[0].0 == k then
      assert m[..0] == [];
      0
    else
      var i := FirstIndex(m[1..], k);
      assert Names(m[..i + 1]) == [m[0].0] + Names(m[1..][..i]);
      i + 1
  }

  /** `map.get(k)`: the value of the entry named `k`, if there is one. */
  function MapGet<V>(m: seq<(string, V)>, k: string): (r: Option<V>)
    ensures r.Some? <==> k in Names(m)
    ensures r.Some? ==> r.value == m[FirstIndex(m, k)].1
  {
    if |m| == 0 then None
    else if m[0].0 == k then Some(m[0].1)
    else MapGet(m[1..], k)
  }

  /**
   * `map.set(k, v)`: a name already present keeps its position and gets the
   * new value; a new name goes to the end (see MapSetNames).
   */
  function MapSet<V>(m: seq<(string, V)>, k: string, v: V): (r: seq<(string, V)>)
    ensures MapGet(r, k) == Some(v)
    ensures forall k' :: k' != k ==> MapGet(r, k') == MapGet(m, k')
  {
    if |m| == 0 then [(k, v)]
    else if m[0].0 == k then [(k, v)] + m[1..]
    else [m[0]] + MapSet(m[1..], k, v)
  }

  /** `set` keeps the insertion order: only a new name is added, at the end. */
  lemma {:induction false} MapSetNames<V>(m: seq<(string, V)>, k: string, v: V)
    ensures Names(MapSet(m, k, v)) == if k in Names(m) then Names(m) else Names(m) + [k]
  {
    if |m| > 0 && m[0].0 != k {
      MapSetNames(m[1..], k, v);
      assert Names(m) == [m[0].0] + Names(m[1..]);
    }
  }

  /** A sequence of names in which none occurs twice. */
  predicate Distinct(ns: seq<string>)
  {
    forall i, j :: 0 <= i < j < |ns| ==> ns[i] != ns[j]
  }

  lemma DistinctNamesIff<V>(m: seq<(string, V)>)
    ensures DistinctNames(m) <==> Distinct(Names(m))
  {
    var ns := Names(m);
    assert forall i :: 0 <= i < |m| ==> ns[i] == m[i].0;
  }

  lemma DistinctAppend(ns: seq<string>, k: string)
    requires Distinct(ns) && k !in ns
    ensures Distinct(ns + [k])
  {
    var r := ns + [k];
    assert forall i :: 0 <= i < |ns| ==> r[i] == ns[i];
  }

  /** `set` never introduces a second entry for a name. */
  lemma MapSetDistinct<V>(m: seq<(string, V)>, k: string, v: V)
    requires DistinctNames(m)
    ensures DistinctNames(MapSet(m, k, v))
  {
    DistinctNamesIff(m);
    MapSetNames(m, k, v);
    if k !in Names(m) {
      DistinctAppend(Names(m), k);
    }
    DistinctNamesIff(MapSet(m, k, v));
  }
}
