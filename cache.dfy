/**
 * The cached call every exchange request goes through, and the dispatch in
 * front of it (exchanges/exchange.base.js, execute and cache_exec).
 *
 * The underlying call (a normaliser method of the binding or a method of the
 * connectivity library) is a parameter, `respond`: given how many underlying
 * calls were made before it and the call itself, it returns or throws. The
 * cache store is a map from key to value and time-to-live; expiry happens
 * inside the store and is not part of this model.
 */
module Cache {
  import opened Js

  datatype CallKind = Normalizer | Ccxt

  /** An underlying call: a normaliser method or a pass-through, with its argument list. */
  datatype Call = Call(kind: CallKind, methodName: string, args: seq<Value>)

  datatype Outcome = Returned(value: Value) | Threw(error: Value)

  /** A stored value and the time-to-live it was stored with (None: null). */
  datatype Entry = Entry(value: Value, ttl: Option<int>)

  /** The metric a completed call records, named `shortname:stub:type:method`. */
  datatype Stat = Stat(name: string, cached: bool)

  /**
   * The cache key: md5 of `shortname|stub|type|method|serialize(params)`, with
   * md5 taken as injective in those fields.
   */
  datatype CacheKey = CacheKey(shortname: string, stub: string, kind: CallKind, methodName: string, serialized: string)

  /** What is fixed for one binding: its names, the params serialiser and the world it calls. */
  datatype CacheEnv = CacheEnv(
    shortname: string,
    stub: string,
    serialize: Value -> string,
    respond: (nat, Call) -> Outcome)

  /** The store, the underlying calls made so far, and the metrics recorded so far. */
  datatype CacheState = CacheState(store: map<CacheKey, Entry>, calls: seq<Call>, stats: seq<Stat>)

  datatype Step = Step(result: Value, state: CacheState)

  function KindName(kind: CallKind): string {
    match kind
    case Normalizer => "normalizer"
    case Ccxt => "ccxt"
  }

  function StatName(env: CacheEnv, kind: CallKind, methodName: string): string {
    env.shortname + ":" + env.stub + ":" + KindName(kind) + ":" + methodName
  }

  function KeyOf(env: CacheEnv, kind: CallKind, methodName: string, args: seq<Value>): CacheKey {
    CacheKey(env.shortname, env.stub, kind, methodName, env.serialize(Arr(args)))
  }

  /** The per-method time-to-live table a binding starts with, in seconds. */
  const DefaultTtls: map<string, Option<int>> := map[
    "balances" := Some(5),
    "position" := Some(2),
    "market" := Some(60),
    "symbols" := Some(300),
    "fetch_markets" := Some(60),
    "fetch_orders" := Some(5),
    "fetch_open_orders" := Some(5),
    "fetch_closed_orders" := Some(5),
    "get_market_by_id" := Some(5),
    "get_market_by_symbol" := Some(5),
    "get_market_by_id_or_symbol" := Some(5)]

  /** `cache.hasOwnProperty(method) ? cache[method] : null`. */
  function CacheTime(ttls: map<string, Option<int>>, methodName: string): Option<int> {
    if methodName in ttls then ttls[methodName] else None
  }

  /** The value `cache_exec` answers with when the underlying call throws. */
  function ErrorResult(error: Value): (r: Value)
    ensures r.Obj? && Member(r, "result") == Str("error") && Member(r, "data") == error
  {
    var props := [("result", Str("error")), ("data", error)];
    assert Lookup(props[1..], "data") == Some(error);
    Obj(props)
  }

  /** Whether the cache is consulted at all, and what it holds for the key if so. */
  function Cached(ttls: map<string, Option<int>>, s: CacheState, key: CacheKey, methodName: string, nocache: bool): Value {
    if CacheTime(ttls, methodName).None? || nocache || key !in s.store then Undefined else s.store[key].value
  }

  /** One `cache_exec(type, method, args, nocache)`. */
  function CacheExec(env: CacheEnv, ttls: map<string, Option<int>>, s: CacheState, kind: CallKind, methodName: string, args: seq<Value>, nocache: bool): Step
  {
    var key := KeyOf(env, kind, methodName, args);
    var cached := Cached(ttls, s, key, methodName, nocache);
    if !Nullish(cached) then
      Step(cached, s.(stats := s.stats + [Stat(StatName(env, kind, methodName), true)]))
    else
      var call := Call(kind, methodName, args);
      var calls := s.calls + [call];
      match env.respond(|s.calls|, call)
      case Threw(e) => Step(ErrorResult(e), s.(calls := calls))
      case Returned(v) =>
        var store := if Nullish(v) then s.store else s.store[key := Entry(v, CacheTime(ttls, methodName))];
        Step(v, CacheState(store, calls, s.stats + [Stat(StatName(env, kind, methodName), false)]))
  }

  /**
   * With `nocache` set or no time-to-live for the method, the store is not
   * read: exactly one underlying call is made.
   */
  lemma BypassCallsOnce(env: CacheEnv, ttls: map<string, Option<int>>, s: CacheState, kind: CallKind, methodName: string, args: seq<Value>, nocache: bool)
    requires nocache || CacheTime(ttls, methodName).None?
    ensures CacheExec(env, ttls, s, kind, methodName, args, nocache).state.calls == s.calls + [Call(kind, methodName, args)]
  {
  }

  /** A hit makes no call, answers the stored value, changes no entry and records a cached metric. */
  lemma HitMakesNoCall(env: CacheEnv, ttls: map<string, Option<int>>, s: CacheState, kind: CallKind, methodName: string, args: seq<Value>)
    requires CacheTime(ttls, methodName).Some?
    requires KeyOf(env, kind, methodName, args) in s.store
    requires !Nullish(s.store[KeyOf(env, kind, methodName, args)].value)
    ensures var step := CacheExec(env, ttls, s, kind, methodName, args, false);
      && step.result == s.store[KeyOf(env, kind, methodName, args)].value
      && step.state.calls == s.calls
      && step.state.store == s.store
      && step.state.stats == s.stats + [Stat(StatName(env, kind, methodName), true)]
  {
  }

  /** Every call either hits, leaving the call log alone, or makes exactly one underlying call. */
  lemma AtMostOneCall(env: CacheEnv, ttls: map<string, Option<int>>, s: CacheState, kind: CallKind, methodName: string, args: seq<Value>, nocache: bool)
    ensures var step := CacheExec(env, ttls, s, kind, methodName, args, nocache);
      || step.state.calls == s.calls
      || step.state.calls == s.calls + [Call(kind, methodName, args)]
  {
  }

  /**
   * A miss that throws answers `{result: 'error', data: error}` and writes
   * nothing: neither the store nor the metrics change.
   */
  lemma ThrowWritesNothing(env: CacheEnv, ttls: map<string, Option<int>>, s: CacheState, kind: CallKind, methodName: string, args: seq<Value>, nocache: bool, error: Value)
    requires Nullish(Cached(ttls, s, KeyOf(env, kind, methodName, args), methodName, nocache))
    requires env.respond(|s.calls|, Call(kind, methodName, args)) == Threw(error)
    ensures var step := CacheExec(env, ttls, s, kind, methodName, args, nocache);
      && step.result == ErrorResult(error)
      && step.state.store == s.store
      && step.state.stats == s.stats
  {
  }

  /**
   * A miss that returns a value other than null or undefined stores it under
   * the call's key with the method's time-to-live, also when that is null (or
   * when the read was skipped); a null or undefined result is not stored.
   */
  lemma ReturnIsStored(env: CacheEnv, ttls: map<string, Option<int>>, s: CacheState, kind: CallKind, methodName: string, args: seq<Value>, nocache: bool, v: Value)
    requires Nullish(Cached(ttls, s, KeyOf(env, kind, methodName, args), methodName, nocache))
    requires env.respond(|s.calls|, Call(kind, methodName, args)) == Returned(v)
    ensures var step := CacheExec(env, ttls, s, kind, methodName, args, nocache);
      && step.result == v
      && (!Nullish(v) ==> step.state.store == s.store[KeyOf(env, kind, methodName, args) := Entry(v, CacheTime(ttls, methodName))])
      && (Nullish(v) ==> step.state.store == s.store)
      && step.state.stats == s.stats + [Stat(StatName(env, kind, methodName), false)]
  {
  }

  /**
   * Repeating a call whose first answer was a value (not a throw, not null or
   * undefined) for a method with a time-to-live: the second makes no
   * underlying call and answers the same value.
   */
  lemma SecondCallIsCached(env: CacheEnv, ttls: map<string, Option<int>>, s: CacheState, kind: CallKind, methodName: string, args: seq<Value>)
    requires CacheTime(ttls, methodName).Some?
    ensures var key := KeyOf(env, kind, methodName, args);
      var first := CacheExec(env, ttls, s, kind, methodName, args, false);
      var second := CacheExec(env, ttls, first.state, kind, methodName, args, false);
      var answer := env.respond(|s.calls|, Call(kind, methodName, args));
      (!Nullish(Cached(ttls, s, key, methodName, false)) || (answer.Returned? && !Nullish(answer.value))) ==>
        && second.state.calls == first.state.calls
        && second.result == first.result
  {
  }

  // ---------------------------------------------------------------------------
  // execute

  /** The argument list: empty params give `[]`, a non-array value a list of one, an array itself. */
  function ArgList(isEmpty: Value -> bool, params: Value): (r: seq<Value>)
    ensures isEmpty(params) ==> r == []
    ensures !isEmpty(params) && !params.Arr? ==> r == [params]
    ensures !isEmpty(params) && params.Arr? ==> r == params.items
  {
    var p := if isEmpty(params) then Arr([]) else params;
    if p.Arr? then p.items else [p]
  }

  /** A method the binding itself implements goes through the normaliser, any other to the library. */
  function Route(ownMethods: set<string>, methodName: string): CallKind {
    if methodName in ownMethods then Normalizer else Ccxt
  }

  function Execute(env: CacheEnv, ttls: map<string, Option<int>>, ownMethods: set<string>, isEmpty: Value -> bool,
                   s: CacheState, methodName: string, params: Value, nocache: bool): Step
  {
    CacheExec(env, ttls, s, Route(ownMethods, methodName), methodName, ArgList(isEmpty, params), nocache)
  }

  /**
   * The only underlying call `execute` can make is `method` with the normalised
   * argument list, through the normaliser exactly when the binding implements
   * the method.
   */
  lemma ExecuteRoutes(env: CacheEnv, ttls: map<string, Option<int>>, ownMethods: set<string>, isEmpty: Value -> bool,
                      s: CacheState, methodName: string, params: Value, nocache: bool)
    ensures var step := Execute(env, ttls, ownMethods, isEmpty, s, methodName, params, nocache);
      && |step.state.calls| <= |s.calls| + 1
      && step.state.calls[..|s.calls|] == s.calls
      && forall c :: c in step.state.calls[|s.calls|..] ==>
           && c.methodName == methodName
           && c.args == ArgList(isEmpty, params)
           && (c.kind == Normalizer <==> methodName in ownMethods)
  {
    var step := Execute(env, ttls, ownMethods, isEmpty, s, methodName, params, nocache);
    AtMostOneCall(env, ttls, s, Route(ownMethods, methodName), methodName, ArgList(isEmpty, params), nocache);
    if step.state.calls != s.calls {
      assert step.state.calls[|s.calls|..] == [Call(Route(ownMethods, methodName), methodName, ArgList(isEmpty, params))];
    }
  }
}
