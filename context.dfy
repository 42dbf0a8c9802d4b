/**
 * The per-request context store: a keyed Map that exists only while a
 * request scope is open, the getters that fall back to a default when the
 * stored value is missing or falsy, the response-header Map and the
 * `respondJson` helper.
 *
 * Scope propagation across asynchronous calls is not modelled: the store
 * is either absent (outside every scope) or one Map.
 */
module Context {
  import opened Common
  import opened JsValues

  /** The symbols under which the toolkit stores its slots; UserKey is any other `Symbol`. */
  datatype Key =
    | RequestKey
    | ResponseKey
    | StatusCodeKey
    | RequestIdKey
    | ResponseBodyKey
    | ResponseHeadersKey
    | RouteParamsKey
    | UserKey(id: nat)

  /** The Map of one request scope. */
  type Store = map<Key, Value>

  /**
   * Everything the context module holds: the store of the scope the code
   * runs in (None outside every scope) and the module-level default headers
   * Map, one instance shared by every scope.
   */
  datatype ContextState = ContextState(scope: Option<Store>, sharedHeaders: HeaderEntries)

  /** What an operation that may throw leaves behind. */
  datatype Change = Change(state: ContextState, outcome: Outcome)

  /** `getContextValue(key)`: the stored value, `undefined` when the key is unset or no scope is open. */
  function ContextValue(st: ContextState, key: Key): (v: Value)
    ensures st.scope.None? ==> v == Undefined
    ensures st.scope.Some? && key in st.scope.value ==> v == st.scope.value[key]
    ensures st.scope.Some? && key !in st.scope.value ==> v == Undefined
  {
    match st.scope
    case None => Undefined
    case Some(store) => if key in store then store[key] else Undefined
  }

  /** A getter made by `createContextGetterSetter(key, default)`: `getContextValue(key) || default`. */
  function Getter(st: ContextState, key: Key, default: Value): (v: Value)
    ensures v == default || (Truthy(v) && v == ContextValue(st, key))
    ensures Truthy(ContextValue(st, key)) ==> v == ContextValue(st, key)
  {
    Or(ContextValue(st, key), default)
  }

  /** `setContextValue(key, v)`: overwrite the slot; nothing happens outside a scope. */
  function Stored(st: ContextState, key: Key, v: Value): (st': ContextState)
    ensures st'.sharedHeaders == st.sharedHeaders
    ensures st'.scope.Some? <==> st.scope.Some?
    ensures st.scope.Some? ==> ContextValue(st', key) == v
  {
    match st.scope
    case None => st
    case Some(store) => st.(scope := Some(store[key := v]))
  }

  /** `getResponseHeaders()`: the stored Map when truthy, otherwise the module-level default Map. */
  function ResponseHeaders(st: ContextState): (h: Value)
    ensures !Truthy(ContextValue(st, ResponseHeadersKey)) ==> h == HeaderMap(st.sharedHeaders)
    ensures Truthy(ContextValue(st, ResponseHeadersKey)) ==> h == ContextValue(st, ResponseHeadersKey)
  {
    Getter(st, ResponseHeadersKey, HeaderMap(st.sharedHeaders))
  }

  /** The message of the TypeError thrown when the stored headers value has no `set` method. */
  const HeadersSetIsNotAFunction := "headers.set is not a function"

  /**
   * `setResponseHeader(name, value)`: `set` on whichever Map
   * `getResponseHeaders()` returns. A truthy stored value that is not a Map
   * makes the call throw.
   */
  function HeaderSet(st: ContextState, name: string, value: HeaderValue): Change
  {
    var stored := ContextValue(st, ResponseHeadersKey);
    if !Truthy(stored) then
      Change(st.(sharedHeaders := MapSet(st.sharedHeaders, name, value)), Returned)
    else if stored.HeaderMap? then
      Change(Stored(st, ResponseHeadersKey, HeaderMap(MapSet(stored.entries, name, value))), Returned)
    else
      Change(st, Threw(HeadersSetIsNotAFunction))
  }

  /** The `Content-Type` header `respondJson` sets. */
  const JsonContentType := Single("application/json")

  /**
   * `respondJson(body, statusCode?)`: body first, then the status when one
   * is given, then the `Content-Type` header.
   */
  function RespondedJson(st: ContextState, body: seq<(string, Json)>, status: Option<int>): Change
  {
    var withBody := Stored(st, ResponseBodyKey, Serialized(JObject(body)));
    var withStatus := if status.Some? then Stored(withBody, StatusCodeKey, Num(status.value)) else withBody;
    HeaderSet(withStatus, "Content-Type", JsonContentType)
  }

  /** Outside every scope a write is dropped and every getter yields its default. */
  lemma OutsideScopeIsInert(st: ContextState, key: Key, v: Value, default: Value)
    requires st.scope.None?
    ensures Stored(st, key, v) == st
    ensures Getter(st, key, default) == default
  {
  }

  /**
   * In a scope, a getter reads back what its setter wrote, or its default
   * when the written value is falsy; every other slot keeps its value.
   */
  lemma GetAfterSet(st: ContextState, key: Key, v: Value, default: Value, other: Key)
    requires st.scope.Some?
    requires other != key
    ensures Getter(Stored(st, key, v), key, default) == if Truthy(v) then v else default
    ensures ContextValue(Stored(st, key, v), other) == ContextValue(st, other)
  {
  }

  /** The headers Map in effect after a successful `setResponseHeader`. */
  function EntriesInEffect(st: ContextState): HeaderEntries
  {
    var h := ResponseHeaders(st);
    if h.HeaderMap? then h.entries else []
  }

  /** A successful `setResponseHeader` is `set` on the Map in effect. */
  lemma HeaderSetEntries(st: ContextState, name: string, value: HeaderValue)
    requires HeaderSet(st, name, value).outcome.Returned?
    ensures EntriesInEffect(HeaderSet(st, name, value).state) == MapSet(EntriesInEffect(st), name, value)
  {
    var stored := ContextValue(st, ResponseHeadersKey);
    var st' := HeaderSet(st, name, value).state;
    if Truthy(stored) {
      assert ContextValue(st', ResponseHeadersKey) == HeaderMap(MapSet(stored.entries, name, value));
    }
  }

  /**
   * `setResponseHeader(name, value)` sets `name` and only `name` in the Map
   * in effect: re-setting replaces the value in place, a new name is
   * appended, every other name keeps its value.
   */
  lemma HeaderSetTouchesOnlyName(st: ContextState, name: string, value: HeaderValue)
    requires HeaderSet(st, name, value).outcome.Returned?
    ensures var after := EntriesInEffect(HeaderSet(st, name, value).state);
            && MapGet(after, name) == Some(value)
            && (forall n :: n != name ==> MapGet(after, n) == MapGet(EntriesInEffect(st), n))
            && Names(after) == if name in Names(EntriesInEffect(st)) then Names(EntriesInEffect(st))
                               else Names(EntriesInEffect(st)) + [name]
  {
    HeaderSetEntries(st, name, value);
    MapSetNames(EntriesInEffect(st), name, value);
  }

  /** `setResponseHeader` changes no slot of the store but the headers slot. */
  lemma HeaderSetKeepsOtherSlots(st: ContextState, name: string, value: HeaderValue, k: Key)
    requires k != ResponseHeadersKey
    ensures ContextValue(HeaderSet(st, name, value).state, k) == ContextValue(st, k)
  {
  }

  /**
   * With no headers Map stored in the scope, `setResponseHeader` writes into
   * the module-level default Map, which outlives the scope: the next request
   * scope, opened fresh and empty, already sees the header.
   */
  lemma DefaultHeadersOutliveScope(st: ContextState, name: string, value: HeaderValue)
    requires !Truthy(ContextValue(st, ResponseHeadersKey))
    ensures var next := ContextState(Some(map[]), HeaderSet(st, name, value).state.sharedHeaders);
            MapGet(EntriesInEffect(next), name) == Some(value)
  {
  }

  /** The body and status slots after `respondJson`. */
  lemma RespondJsonSlots(st: ContextState, body: seq<(string, Json)>, status: Option<int>)
    requires st.scope.Some?
    ensures var c := RespondedJson(st, body, status);
            && ContextValue(c.state, ResponseBodyKey) == Serialized(JObject(body))
            && ContextValue(c.state, StatusCodeKey) == (if status.Some? then Num(status.value) else ContextValue(st, StatusCodeKey))
  {
    var withBody := Stored(st, ResponseBodyKey, Serialized(JObject(body)));
    var withStatus := if status.Some? then Stored(withBody, StatusCodeKey, Num(status.value)) else withBody;
    assert ContextValue(withStatus, ResponseBodyKey) == Serialized(JObject(body));
    HeaderSetKeepsOtherSlots(withStatus, "Content-Type", JsonContentType, ResponseBodyKey);
    HeaderSetKeepsOtherSlots(withStatus, "Content-Type", JsonContentType, StatusCodeKey);
  }

  /** The headers Map in effect after `respondJson`. */
  lemma RespondJsonHeaders(st: ContextState, body: seq<(string, Json)>, status: Option<int>)
    requires st.scope.Some?
    requires !Truthy(ContextValue(st, ResponseHeadersKey)) || ContextValue(st, ResponseHeadersKey).HeaderMap?
    ensures var c := RespondedJson(st, body, status);
            && c.outcome == Returned
            && EntriesInEffect(c.state) == MapSet(EntriesInEffect(st), "Content-Type", JsonContentType)
  {
    var withBody := Stored(st, ResponseBodyKey, Serialized(JObject(body)));
    var withStatus := if status.Some? then Stored(withBody, StatusCodeKey, Num(status.value)) else withBody;
    assert ContextValue(withStatus, ResponseHeadersKey) == ContextValue(st, ResponseHeadersKey);
    assert EntriesInEffect(withStatus) == EntriesInEffect(st);
    HeaderSetEntries(withStatus, "Content-Type", JsonContentType);
  }

  /**
   * `respondJson` stores the serialised body, stores the status only when
   * one is given (leaving the earlier status otherwise), and sets
   * `Content-Type: application/json` in the headers Map in effect.
   */
  lemma RespondJsonEffect(st: ContextState, body: seq<(string, Json)>, status: Option<int>)
    requires st.scope.Some?
    requires !Truthy(ContextValue(st, ResponseHeadersKey)) || ContextValue(st, ResponseHeadersKey).HeaderMap?
    ensures var c := RespondedJson(st, body, status);
            && c.outcome == Returned
            && ContextValue(c.state, ResponseBodyKey) == Serialized(JObject(body))
            && Truthy(ContextValue(c.state, ResponseBodyKey))
            && ContextValue(c.state, StatusCodeKey) == (if status.Some? then Num(status.value) else ContextValue(st, StatusCodeKey))
            && EntriesInEffect(c.state) == MapSet(EntriesInEffect(st), "Content-Type", JsonContentType)
            && MapGet(EntriesInEffect(c.state), "Content-Type") == Some(JsonContentType)
  {
    RespondJsonSlots(st, body, status);
    RespondJsonHeaders(st, body, status);
  }

  /**
   * The context module's state as one object: `runWithContext` opens a
   * scope, the setters and helpers change it in place, the getters read it.
   */
  class ContextStore {
    var scope: Option<Store>
    var sharedHeaders: HeaderEntries

    function State(): ContextState
      reads this
    {
      ContextState(scope, sharedHeaders)
    }

    /** The module as loaded: no scope open, the default headers Map empty. */
    constructor ()
      ensures State() == ContextState(None, [])
    {
      scope := None;
      sharedHeaders := [];
    }

    /**
     * Entering `runWithContext`: a fresh, empty Map becomes the store. The
     * enclosing scope is returned so that Leave can restore it.
     */
    method Enter() returns (outer: Option<Store>)
      modifies this
      ensures scope == Some(map[]) && sharedHeaders == old(sharedHeaders)
      ensures outer == old(scope)
    {
      outer := scope;
      scope := Some(map[]);
    }

    /** Leaving `runWithContext`: the enclosing scope is in effect again. */
    method Leave(outer: Option<Store>)
      modifies this
      ensures scope == outer && sharedHeaders == old(sharedHeaders)
    {
      scope := outer;
    }

    /** `getContextValue(key)`. */
    function GetContextValue(key: Key): Value
      reads this
    {
      ContextValue(State(), key)
    }

    /** A generated getter with its default (`undefined` for every slot but the headers). */
    function Get(key: Key, default: Value): Value
      reads this
    {
      Getter(State(), key, default)
    }

    /** `getResponseHeaders()`. */
    function GetResponseHeaders(): Value
      reads this
    {
      ResponseHeaders(State())
    }

    /** `setContextValue(key, v)` and every generated setter. */
    method SetContextValue(key: Key, v: Value)
      modifies this
      ensures State() == Stored(old(State()), key, v)
    {
      if scope.Some? {
        scope := Some(scope.value[key := v]);
      }
    }

    /** `setResponseHeader(name, value)`. */
    method SetResponseHeader(name: string, value: HeaderValue) returns (o: Outcome)
      modifies this
      ensures Change(State(), o) == HeaderSet(old(State()), name, value)
    {
      var headers := GetResponseHeaders();
      if !Truthy(GetContextValue(ResponseHeadersKey)) {
        sharedHeaders := MapSet(sharedHeaders, name, value);
        o := Returned;
      } else if headers.HeaderMap? {
        SetContextValue(ResponseHeadersKey, HeaderMap(MapSet(headers.entries, name, value)));
        o := Returned;
      } else {
        o := Threw(HeadersSetIsNotAFunction);
      }
    }

    /** `respondJson(body, statusCode?)`. */
    method RespondJson(body: seq<(string, Json)>, status: Option<int>) returns (o: Outcome)
      modifies this
      ensures Change(State(), o) == RespondedJson(old(State()), body, status)
    {
      SetContextValue(ResponseBodyKey, Serialized(JObject(body)));
      if status.Some? {
        SetContextValue(StatusCodeKey, Num(status.value));
      }
      o := SetResponseHeader("Content-Type", JsonContentType);
    }
  }
}
