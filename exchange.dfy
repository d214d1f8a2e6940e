/**
 * The exchange normalisation base class (exchanges/exchange.base.js): one
 * object per account binding that holds the cache time-to-live table, the
 * market and balance data it has loaded, and the cache it calls through.
 */
module Exchange {
  import opened Js
  import opened Markets
  import opened Balances
  import opened Orders
  import opened Cache

  /**
   * What a concrete venue binding and its environment supply and this model
   * does not see: the outcome of every underlying call, the `utils` helpers,
   * the USD valuation inside `classes.balance`, `parse_order`, and JSON.
   */
  datatype Venue = Venue(
    respond: (nat, Call) -> Outcome,
    isEmpty: Value -> bool,
    serialize: Value -> string,
    valuate: (string, Price, Value, Value, Value) -> UsdAmounts,
    parseOrder: Value -> Order,
    json: JsonCodec)

  /** Every mutable field of a binding, to say what a method leaves alone. */
  datatype Data = Data(
    cacheTtl: map<string, Option<int>>,
    symbols: seq<string>,
    markets: Option<seq<Market>>,
    balances: Option<seq<Balance>>,
    marketsById: map<string, Market>,
    marketsBySymbol: map<string, Market>,
    store: map<CacheKey, Entry>,
    calls: seq<Call>,
    stats: seq<Stat>)

  /** The arguments create_order passes to the library: the market's own symbol, then the request's fields. */
  function OrderArgs(params: Value, symbol: string): seq<Value> {
    [Str(symbol), Member(params, "type"), Member(params, "side"), Member(params, "amount"),
     Member(params, "price"), Member(params, "params")]
  }

  class ExchangeBase {
    // interfaces.cache
    var cacheTtl: map<string, Option<int>>
    // this.data
    var symbols: seq<string>
    var markets: Option<seq<Market>>
    var balances: Option<seq<Balance>>
    var marketsById: map<string, Market>
    var marketsBySymbol: map<string, Market>
    // the cache store, the underlying calls made, the metrics recorded
    var store: map<CacheKey, Entry>
    var calls: seq<Call>
    var stats: seq<Stat>

    const stub: string
    const shortname: string
    /** The method names the binding implements itself (`typeof this[method] == 'function'`). */
    const ownMethods: set<string>
    /** The venue's stablecoins, in the order the binding lists them. */
    const stablecoins: seq<string>
    /** The market-symbol template with `{currency}` and `{stablecoin}` placeholders. */
    const balancesMarketMap: string
    const venue: Venue

    ghost function Snapshot(): Data
      reads this
    {
      Data(cacheTtl, symbols, markets, balances, marketsById, marketsBySymbol, store, calls, stats)
    }

    function Env(): CacheEnv {
      CacheEnv(shortname, stub, venue.serialize, venue.respond)
    }

    function CallState(): CacheState
      reads this
    {
      CacheState(store, calls, stats)
    }

    function CurrentPricing(): Pricing
      reads this
    {
      Pricing(stablecoins, balancesMarketMap, marketsBySymbol)
    }

    /** The indexes are those index_markets builds from the current catalogue. */
    predicate Indexed()
      reads this
    {
      && markets.Some?
      && marketsById == IndexBy(markets.value, IdOf)
      && marketsBySymbol == IndexBy(markets.value, SymbolOf)
    }

    /**
     * A new binding. The cache is the process-wide cache module, so it starts
     * with whatever earlier bindings stored in it (`initialStore`).
     */
    constructor(stub: string, shortname: string, ownMethods: set<string>, stablecoins: seq<string>,
                balancesMarketMap: string, venue: Venue, initialStore: map<CacheKey, Entry>)
      ensures Snapshot() == Data(DefaultTtls, [], None, None, map[], map[], initialStore, [], [])
      ensures this.stub == stub && this.shortname == shortname && this.ownMethods == ownMethods
      ensures this.stablecoins == stablecoins && this.balancesMarketMap == balancesMarketMap && this.venue == venue
    {
      this.stub := stub;
      this.shortname := shortname;
      this.ownMethods := ownMethods;
      this.stablecoins := stablecoins;
      this.balancesMarketMap := balancesMarketMap;
      this.venue := venue;
      cacheTtl := DefaultTtls;
      symbols := [];
      markets := None;
      balances := None;
      marketsById := map[];
      marketsBySymbol := map[];
      store := initialStore;
      calls := [];
      stats := [];
    }

    /** `set_cache_time(method, sec)`; None stands for null. */
    method SetCacheTime(methodName: string, sec: Option<int>)
      modifies this
      ensures Snapshot() == old(Snapshot()).(cacheTtl := old(cacheTtl)[methodName := sec])
    {
      cacheTtl := cacheTtl[methodName := sec];
    }

    // -------------------------------------------------------------------------
    // execute and cache_exec

    method CacheExec(kind: CallKind, methodName: string, args: seq<Value>, nocache: bool) returns (r: Value)
      modifies this
      ensures var step := Cache.CacheExec(Env(), old(cacheTtl), old(CallState()), kind, methodName, args, nocache);
        r == step.result && CallState() == step.state
      ensures Snapshot() == old(Snapshot()).(store := store, calls := calls, stats := stats)
    {
      var key := KeyOf(Env(), kind, methodName, args);
      var cachetime := CacheTime(cacheTtl, methodName);
      var value := if cachetime.None? || nocache || key !in store then Undefined else store[key].value;
      if Nullish(value) {
        var call := Call(kind, methodName, args);
        var outcome := venue.respond(|calls|, call);
        calls := calls + [call];
        match outcome {
          case Threw(e) =>
            return ErrorResult(e);
          case Returned(v) =>
            if !Nullish(v) {
              store := store[key := Entry(v, cachetime)];
            }
            r := v;
        }
        stats := stats + [Stat(StatName(Env(), kind, methodName), false)];
      } else {
        stats := stats + [Stat(StatName(Env(), kind, methodName), true)];
        r := value;
      }
    }

    method Execute(methodName: string, params: Value, nocache: bool) returns (r: Value)
      modifies this
      ensures var step := Cache.Execute(Env(), old(cacheTtl), ownMethods, venue.isEmpty, old(CallState()), methodName, params, nocache);
        r == step.result && CallState() == step.state
      ensures Snapshot() == old(Snapshot()).(store := store, calls := calls, stats := stats)
    {
      var p := params;
      if venue.isEmpty(p) {
        p := Arr([]);
      }
      var args := if p.Arr? then p.items else [p];
      if methodName in ownMethods {
        r := CacheExec(Normalizer, methodName, args, nocache);
      } else {
        r := CacheExec(Ccxt, methodName, args, nocache);
      }
    }

    // -------------------------------------------------------------------------
    // Markets

    method IndexMarkets()
      modifies this
      ensures old(markets).None? ==> Snapshot() == old(Snapshot())
      ensures old(markets).Some? ==>
        && Indexed()
        && symbols == SymbolsOf(markets.value)
        && Snapshot() == old(Snapshot()).(symbols := symbols, marketsById := marketsById, marketsBySymbol := marketsBySymbol)
    {
      if markets.None? {
        return;
      }
      var ms := markets.value;
      var syms: seq<string> := [];
      var byId: map<string, Market> := map[];
      var bySymbol: map<string, Market> := map[];
      var i := 0;
      while i < |ms|
        invariant 0 <= i <= |ms|
        invariant syms == SymbolsOf(ms[..i])
        invariant byId == IndexBy(ms[..i], IdOf)
        invariant bySymbol == IndexBy(ms[..i], SymbolOf)
      {
        var m := ms[i];
        syms := syms + [m.symbol];
        byId := byId[m.id := m];
        bySymbol := bySymbol[m.symbol := m];
        assert ms[..i + 1][..i] == ms[..i];
        i := i + 1;
      }
      assert ms[..i] == ms;
      symbols, marketsById, marketsBySymbol := syms, byId, bySymbol;
    }

    /** `get_market_by_id`: null unless the id is indexed. */
    function GetMarketById(id: string): (r: Option<Market>)
      reads this
      ensures Indexed() ==> (r.Some? <==> exists i :: 0 <= i < |markets.value| && markets.value[i].id == id)
      ensures Indexed() && r.Some? ==> exists i :: IsLastWith(markets.value, IdOf, id, i) && r.value == markets.value[i]
    {
      if Indexed() then IndexByLast(markets.value, IdOf, id); (if id in marketsById then Some(marketsById[id]) else None)
      else if id in marketsById then Some(marketsById[id]) else None
    }

    /** `get_market_by_symbol`: null unless the symbol is indexed. */
    function GetMarketBySymbol(symbol: string): (r: Option<Market>)
      reads this
      ensures Indexed() ==> (r.Some? <==> exists i :: 0 <= i < |markets.value| && markets.value[i].symbol == symbol)
      ensures Indexed() && r.Some? ==> exists i :: IsLastWith(markets.value, SymbolOf, symbol, i) && r.value == markets.value[i]
    {
      if Indexed() then IndexByLast(markets.value, SymbolOf, symbol); (if symbol in marketsBySymbol then Some(marketsBySymbol[symbol]) else None)
      else if symbol in marketsBySymbol then Some(marketsBySymbol[symbol]) else None
    }

    /** `get_market_by_id_or_symbol`: the id match, else the symbol match, else null. */
    function GetMarketByIdOrSymbol(k: string): (r: Option<Market>)
      reads this
      ensures r == LookupIdOrSymbol(marketsById, marketsBySymbol, k)
      ensures Indexed() ==> (r.None? <==> forall i :: 0 <= i < |markets.value| ==> markets.value[i].id != k && markets.value[i].symbol != k)
    {
      var byId := GetMarketById(k);
      if byId.Some? then byId
      else
        var bySymbol := GetMarketBySymbol(k);
        if Indexed() then LookupAfterIndex(markets.value, k); bySymbol else bySymbol
    }

    /** `this.data.symbols.sort((a, b) => (a > b) ? 1 : -1)`, in place. */
    method Symbols() returns (r: seq<string>)
      modifies this
      ensures r == symbols == SortAsc(old(symbols))
      ensures Snapshot() == old(Snapshot()).(symbols := symbols)
    {
      symbols := SortAsc(symbols);
      r := symbols;
    }

    /** One market's valuation: the stablecoin loop of update_markets_usd_price. */
    method ValueMarket(m: Market) returns (r: Market)
      ensures r == Triangulate(m, stablecoins, marketsBySymbol)
    {
      if m.quote in stablecoins {
        return m.(usd := Direct(m.avg));
      }
      var base: Option<real> := None;
      var quote: Option<real> := None;
      var basePair: Option<string> := None;
      var quotePair: Option<string> := None;
      var j := 0;
      while j < |stablecoins|
        invariant 0 <= j <= |stablecoins|
        invariant base == PriceOf(LastMatch(m.base, stablecoins[..j], marketsBySymbol))
        invariant basePair == PairOf(LastMatch(m.base, stablecoins[..j], marketsBySymbol))
        invariant quote == PriceOf(LastMatch(m.quote, stablecoins[..j], marketsBySymbol))
        invariant quotePair == PairOf(LastMatch(m.quote, stablecoins[..j], marketsBySymbol))
      {
        var stablecoin := stablecoins[j];
        var pair := m.base + "/" + stablecoin;
        if pair in marketsBySymbol {
          base := Some(marketsBySymbol[pair].avg);
          basePair := Some(pair);
        }
        pair := m.quote + "/" + stablecoin;
        if pair in marketsBySymbol {
          quote := Some(marketsBySymbol[pair].avg);
          quotePair := Some(pair);
        }
        assert stablecoins[..j + 1][..j] == stablecoins[..j];
        j := j + 1;
      }
      assert stablecoins[..j] == stablecoins;
      if quote.Some? && base.None? {
        base := QuoteTimesAvg(quote.value, m.avg);
      }
      r := m.(usd := Triangulated(base, quote, basePair, quotePair));
    }

    /**
     * `update_markets_usd_price`: values every market in catalogue order and
     * writes it back to the list and both indexes. Without a catalogue the
     * forEach throws: `ok` is false and nothing changes.
     */
    method UpdateMarketsUsdPrice() returns (ok: bool)
      modifies this
      ensures ok <==> old(markets).Some?
      ensures !ok ==> Snapshot() == old(Snapshot())
      ensures ok ==>
        var c := Catalogue(old(markets).value, old(marketsById), old(marketsBySymbol));
        var after := UsdPass(c, stablecoins, |c.markets|);
        && markets == Some(after.markets) && marketsById == after.byId && marketsBySymbol == after.bySymbol
        && Snapshot() == old(Snapshot()).(markets := markets, marketsById := marketsById, marketsBySymbol := marketsBySymbol)
      ensures old(Indexed()) ==> Indexed()
    {
      if markets.None? {
        return false;
      }
      ghost var wasIndexed := Indexed();
      ghost var c := Catalogue(markets.value, marketsById, marketsBySymbol);
      var ms := markets.value;
      var i := 0;
      while i < |ms|
        invariant 0 <= i <= |ms| == |c.markets|
        invariant Catalogue(ms, marketsById, marketsBySymbol) == UsdPass(c, stablecoins, i)
        invariant Snapshot() == old(Snapshot()).(markets := markets, marketsById := marketsById, marketsBySymbol := marketsBySymbol)
        invariant markets == old(markets)
      {
        var m := ValueMarket(ms[i]);
        ms := ms[i := m];
        marketsById := marketsById[m.id := m];
        marketsBySymbol := marketsBySymbol[m.symbol := m];
        i := i + 1;
      }
      markets := Some(ms);
      if wasIndexed {
        UsdPassKeepsIndexes(c, stablecoins);
      }
      return true;
    }

    // -------------------------------------------------------------------------
    // Balances

    /** `get_usd_price(currency)`. */
    method GetUsdPrice(currency: string) returns (r: Price)
      ensures r == UsdPrice(CurrentPricing(), currency)
    {
      if currency in stablecoins {
        return Usd(1.0);
      }
      var i := 0;
      while i < |stablecoins|
        invariant 0 <= i <= |stablecoins|
        invariant FirstPriced(stablecoins[i..], balancesMarketMap, marketsBySymbol, currency)
               == FirstPriced(stablecoins, balancesMarketMap, marketsBySymbol, currency)
      {
        var mapsymbol := MarketMapSymbol(balancesMarketMap, currency, stablecoins[i]);
        if mapsymbol in marketsBySymbol {
          return Usd(Mid(marketsBySymbol[mapsymbol]));
        }
        assert stablecoins[i..][1..] == stablecoins[i + 1..];
        i := i + 1;
      }
      return Unpriced;
    }

    /**
     * What `balances()` does to the state: nothing once a list is stored;
     * otherwise one `execute('fetch_balance')`, and the list is stored when
     * the fetch yields one.
     */
    twostate predicate BalancesStep()
      reads this
    {
      if old(balances).Some? then Snapshot() == old(Snapshot())
      else
        var step := Cache.Execute(Env(), old(cacheTtl), ownMethods, venue.isEmpty, old(CallState()), "fetch_balance", Undefined, false);
        var fetched := BalancesFrom(step.result, old(CurrentPricing()), venue.valuate);
        && CallState() == step.state
        && balances == (if fetched.Stored? then Some(fetched.list) else None)
        && Snapshot() == old(Snapshot()).(balances := balances, store := store, calls := calls, stats := stats)
    }

    /**
     * `balances()`: the stored list when there is one; otherwise the fetched
     * list, `[]` on an error envelope, or None where the source throws.
     */
    method Balances() returns (r: Option<seq<Balance>>)
      modifies this
      ensures BalancesStep()
      ensures old(balances).Some? ==> r == old(balances)
      ensures old(balances).None? ==>
        var step := Cache.Execute(Env(), old(cacheTtl), ownMethods, venue.isEmpty, old(CallState()), "fetch_balance", Undefined, false);
        match BalancesFrom(step.result, old(CurrentPricing()), venue.valuate)
        case Stored(l) => r == Some(l)
        case EnvelopeError => r == Some([])
        case Threw => r.None?
    {
      if balances.Some? {
        return balances;
      }
      var results := Execute("fetch_balance", Undefined, false);
      var fetched := FetchedBalances(results);
      match fetched {
        case Stored(l) =>
          balances := Some(l);
          r := Some(l);
        case EnvelopeError =>
          r := Some([]);
        case Threw =>
          r := None;
      }
    }

    /** The body of `balances()` once `execute('fetch_balance')` has answered `results`. */
    method FetchedBalances(results: Value) returns (r: BalanceFetch)
      ensures r == BalancesFrom(results, CurrentPricing(), venue.valuate)
    {
      if Nullish(results) {
        return BalanceFetch.Threw;
      }
      if Member(results, "result") == Str("error") {
        return EnvelopeError;
      }
      var raw := RawBalances(results);
      if Nullish(raw) {
        return BalanceFetch.Threw;
      }
      if !raw.Obj? {
        return Stored([]);
      }
      var props := raw.props;
      props := Remove(props, "info");
      props := Remove(props, "free");
      props := Remove(props, "used");
      props := Remove(props, "total");
      var list := BalanceEntries(props);
      r := if list.Some? then Stored(list.value) else BalanceFetch.Threw;
    }

    /** The forEach of `balances()` over the currencies, stopping where reading an entry throws. */
    method BalanceEntries(props: seq<(string, Value)>) returns (r: Option<seq<Balance>>)
      ensures r == BalanceList(props, CurrentPricing(), venue.valuate)
    {
      var list: seq<Balance> := [];
      var i := 0;
      while i < |props|
        invariant 0 <= i <= |props|
        invariant BalanceList(props[..i], CurrentPricing(), venue.valuate) == Some(list)
      {
        var currency := props[i].0;
        var entry := props[i].1;
        assert props[..i + 1][..i] == props[..i];
        if Nullish(entry) {
          BalanceListSpec(props, CurrentPricing(), venue.valuate);
          return None;
        }
        var price := GetUsdPrice(currency);
        var free, used, total := Member(entry, "free"), Member(entry, "used"), Member(entry, "total");
        var b := Balance(currency, price, free, used, total, venue.valuate(currency, price, free, used, total));
        if !LooseZero(b.total) {
          list := list + [b];
        }
        i := i + 1;
      }
      assert props[..i] == props;
      return Some(list);
    }

    /** `balance_usd()`: the USD free, used and total summed over the stored list. */
    method BalanceUsd() returns (r: Option<UsdAmounts>)
      modifies this
      ensures BalancesStep()
      ensures r == if balances.Some? then Some(UsdAmounts(SumFree(balances.value), SumUsed(balances.value), SumTotal(balances.value))) else None
    {
      var _ := Balances();
      if balances.None? {
        return None;
      }
      var usd := SumUsd(balances.value);
      return Some(usd);
    }

    method FreeBalanceUsd() returns (r: Option<real>)
      modifies this
      ensures BalancesStep()
      ensures r == if balances.Some? then Some(SumFree(balances.value)) else None
    {
      var _ := Balances();
      if balances.None? {
        return None;
      }
      var free := SumFreeUsd(balances.value);
      return Some(free);
    }

    /** `total_balance_usd()`. */
    method TotalBalanceUsd() returns (r: Option<real>)
      modifies this
      ensures BalancesStep()
      ensures r == if balances.Some? then Some(SumTotal(balances.value)) else None
    {
      var _ := Balances();
      if balances.None? {
        return None;
      }
      var total := SumTotalUsd(balances.value);
      return Some(total);
    }

    // -------------------------------------------------------------------------
    // Orders

    /**
     * `create_order(params)`: the market is looked up by id or symbol (a miss
     * throws: None), the order goes to the library under the market's own
     * symbol, and the answer is shaped into a success or an error.
     */
    method CreateOrder(params: Value) returns (r: Option<CreateResult>)
      modifies this
      ensures var symbol := Member(params, "symbol");
        var market := if symbol.Str? then LookupIdOrSymbol(old(marketsById), old(marketsBySymbol), symbol.str) else None;
        && (market.None? ==> r.None? && Snapshot() == old(Snapshot()))
        && (market.Some? ==>
              var step := Cache.CacheExec(Env(), old(cacheTtl), old(CallState()), Ccxt, "create_order", OrderArgs(params, market.value.symbol), false);
              && CallState() == step.state
              && r == ShapeCreateResult(venue.json, venue.parseOrder, params, step.result)
              && Snapshot() == old(Snapshot()).(store := store, calls := calls, stats := stats))
    {
      var symbol := Member(params, "symbol");
      if !symbol.Str? {
        return None;
      }
      var market := GetMarketByIdOrSymbol(symbol.str);
      if market.None? {
        return None;
      }
      var created := CacheExec(Ccxt, "create_order", OrderArgs(params, market.value.symbol), false);
      r := ShapeCreateResult(venue.json, venue.parseOrder, params, created);
    }
  }
}
