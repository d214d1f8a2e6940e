/**
 * The market catalogue of one exchange binding: indexing by venue id and by
 * symbol, lookup, the sorted symbol list, and USD valuation of every market by
 * triangulation over the configured stablecoins
 * (exchanges/exchange.base.js, index_markets, get_market_by_*, symbols and
 * update_markets_usd_price).
 */
module Markets {
  import opened Js

  /** The USD valuation a market carries in its `usd` field. */
  datatype Valuation =
    | Unvalued
      // quoted in a stablecoin: `usd` is the market's own average price
    | Direct(price: real)
      // otherwise: USD prices of the base and quote assets and the pairs they came from
    | Triangulated(base: Option<real>, quote: Option<real>, basePair: Option<string>, quotePair: Option<string>)

  datatype Market = Market(
    id: string,
    symbol: string,
    base: string,
    quote: string,
    bid: real,
    ask: real,
    avg: real,
    usd: Valuation)

  function IdOf(m: Market): string { m.id }
  function SymbolOf(m: Market): string { m.symbol }

  // ---------------------------------------------------------------------------
  // Indexing

  /** The symbols of the catalogue, in catalogue order. */
  function SymbolsOf(ms: seq<Market>): (r: seq<string>)
    ensures |r| == |ms|
    ensures forall i :: 0 <= i < |ms| ==> r[i] == ms[i].symbol
  {
    if ms == [] then [] else SymbolsOf(ms[..|ms| - 1]) + [ms[|ms| - 1].symbol]
  }

  /** The index that assigning `index[key(m)] = m` for every market in order leaves behind. */
  function IndexBy(ms: seq<Market>, key: Market -> string): map<string, Market>
  {
    if ms == [] then map[]
    else IndexBy(ms[..|ms| - 1], key)[key(ms[|ms| - 1]) := ms[|ms| - 1]]
  }

  /** `i` is the last position of the catalogue whose key is `k`. */
  ghost predicate IsLastWith(ms: seq<Market>, key: Market -> string, k: string, i: int) {
    0 <= i < |ms| && key(ms[i]) == k && forall j :: i < j < |ms| ==> key(ms[j]) != k
  }

  /** Every key of the catalogue is indexed, and it maps to the last market carrying it. */
  lemma {:induction false} IndexByLast(ms: seq<Market>, key: Market -> string, k: string)
    ensures k in IndexBy(ms, key) <==> exists i :: 0 <= i < |ms| && key(ms[i]) == k
    ensures k in IndexBy(ms, key) ==>
      exists i :: IsLastWith(ms, key, k, i) && IndexBy(ms, key)[k] == ms[i]
  {
    if ms != [] {
      var n := |ms| - 1;
      var front := ms[..n];
      IndexByLast(front, key, k);
      assert forall i :: 0 <= i < n ==> front[i] == ms[i];
      if key(ms[n]) == k {
        assert IsLastWith(ms, key, k, n);
      } else if k in IndexBy(ms, key) {
        var i :| IsLastWith(front, key, k, i) && IndexBy(front, key)[k] == front[i];
        assert IsLastWith(ms, key, k, i);
      }
    }
  }

  /** `get_market_by_id_or_symbol`: the id match if there is one, else the symbol match. */
  function LookupIdOrSymbol(byId: map<string, Market>, bySymbol: map<string, Market>, k: string): Option<Market>
  {
    if k in byId then Some(byId[k])
    else if k in bySymbol then Some(bySymbol[k])
    else None
  }

  /**
   * On an index built from a catalogue, the lookup returns the last market whose
   * id is `k`; failing that, the last market whose symbol is `k`; failing both, null.
   */
  lemma LookupAfterIndex(ms: seq<Market>, k: string)
    ensures var r := LookupIdOrSymbol(IndexBy(ms, IdOf), IndexBy(ms, SymbolOf), k);
      && ((exists i :: 0 <= i < |ms| && ms[i].id == k) ==>
            exists i :: IsLastWith(ms, IdOf, k, i) && r == Some(ms[i]))
      && ((forall i :: 0 <= i < |ms| ==> ms[i].id != k) && (exists i :: 0 <= i < |ms| && ms[i].symbol == k) ==>
            exists i :: IsLastWith(ms, SymbolOf, k, i) && r == Some(ms[i]))
      && (r.None? <==> forall i :: 0 <= i < |ms| ==> ms[i].id != k && ms[i].symbol != k)
  {
    IndexByLast(ms, IdOf, k);
    IndexByLast(ms, SymbolOf, k);
  }

  // ---------------------------------------------------------------------------
  // Sorted symbol list

  /** JavaScript's `a < b` on strings: lexicographic by character. */
  predicate LexLess(a: string, b: string) {
    if a == [] then b != []
    else if b == [] then false
    else if a[0] != b[0] then a[0] < b[0]
    else LexLess(a[1..], b[1..])
  }

  lemma {:induction false} LexLessAsymmetric(a: string, b: string)
    requires LexLess(a, b)
    ensures !LexLess(b, a)
  {
    if a != [] && b != [] && a[0] == b[0] {
      LexLessAsymmetric(a[1..], b[1..]);
    }
  }

  /** No neighbour pair is out of order under the comparator `(a > b) ? 1 : -1`. */
  predicate SortedAsc(s: seq<string>) {
    forall i :: 0 < i < |s| ==> !LexLess(s[i], s[i - 1])
  }

  function InsertAsc(x: string, s: seq<string>): (r: seq<string>)
    requires SortedAsc(s)
    ensures SortedAsc(r)
    ensures multiset(r) == multiset(s) + multiset{x}
    ensures r[0] == x || (s != [] && r[0] == s[0])
  {
    if s == [] then [x]
    else if !LexLess(s[0], x) then [x] + s
    else
      var rest := InsertAsc(x, s[1..]);
      LexLessAsymmetric(s[0], x);
      assert s == [s[0]] + s[1..];
      [s[0]] + rest
  }

  /** `this.data.symbols.sort((a, b) => (a > b) ? 1 : -1)`. */
  function SortAsc(s: seq<string>): (r: seq<string>)
    ensures SortedAsc(r)
    ensures multiset(r) == multiset(s)
  {
    if s == [] then []
    else
      assert s == [s[0]] + s[1..];
      InsertAsc(s[0], SortAsc(s[1..]))
  }

  // ---------------------------------------------------------------------------
  // USD triangulation

  /** The symbol of the market pricing `asset` in `stablecoin`. */
  function PairName(asset: string, stablecoin: string): string {
    asset + "/" + stablecoin
  }

  datatype PairPrice = PairPrice(price: real, pair: string)

  /**
   * The pair the stablecoin loop leaves behind for `asset`: every stablecoin with
   * an indexed `asset/stablecoin` market overwrites the previous one, so the
   * last such stablecoin in list order wins.
   */
  function LastMatch(asset: string, stablecoins: seq<string>, bySymbol: map<string, Market>): Option<PairPrice>
  {
    if stablecoins == [] then None
    else
      var pair := PairName(asset, stablecoins[|stablecoins| - 1]);
      if pair in bySymbol then Some(PairPrice(bySymbol[pair].avg, pair))
      else LastMatch(asset, stablecoins[..|stablecoins| - 1], bySymbol)
  }

  lemma {:induction false} LastMatchSpec(asset: string, stablecoins: seq<string>, bySymbol: map<string, Market>)
    ensures var r := LastMatch(asset, stablecoins, bySymbol);
      && (r.None? <==> forall k :: 0 <= k < |stablecoins| ==> PairName(asset, stablecoins[k]) !in bySymbol)
      && (r.Some? ==>
            exists k ::
              && 0 <= k < |stablecoins|
              && r.value.pair == PairName(asset, stablecoins[k])
              && r.value.pair in bySymbol
              && r.value.price == bySymbol[r.value.pair].avg
              && forall j :: k < j < |stablecoins| ==> PairName(asset, stablecoins[j]) !in bySymbol)
  {
    if stablecoins != [] {
      var n := |stablecoins| - 1;
      var front := stablecoins[..n];
      LastMatchSpec(asset, front, bySymbol);
      assert forall k :: 0 <= k < n ==> front[k] == stablecoins[k];
      if PairName(asset, stablecoins[n]) !in bySymbol && LastMatch(asset, front, bySymbol).Some? {
        var r := LastMatch(asset, front, bySymbol);
        var k :| 0 <= k < n && r.value.pair == PairName(asset, front[k]) && r.value.pair in bySymbol
          && r.value.price == bySymbol[r.value.pair].avg
          && forall j :: k < j < n ==> PairName(asset, front[j]) !in bySymbol;
        assert forall j :: k < j < |stablecoins| ==> PairName(asset, stablecoins[j]) !in bySymbol;
      }
    }
  }

  /** With two matching stablecoins, the one listed second prices the asset. */
  lemma LastStablecoinWins()
    ensures
      var bySymbol := map[
        "BTC/USDT" := Market("BTCUSDT", "BTC/USDT", "BTC", "USDT", 29990.0, 30010.0, 30000.0, Unvalued),
        "BTC/USD" := Market("BTC-USD", "BTC/USD", "BTC", "USD", 30040.0, 30060.0, 30050.0, Unvalued)];
      LastMatch("BTC", ["USDT", "USD"], bySymbol) == Some(PairPrice(30050.0, "BTC/USD"))
  {
    assert PairName("BTC", "USD") == "BTC/USD";
  }

  function PriceOf(p: Option<PairPrice>): Option<real> {
    if p.Some? then Some(p.value.price) else None
  }

  function PairOf(p: Option<PairPrice>): Option<string> {
    if p.Some? then Some(p.value.pair) else None
  }

  /** `usd.base = usd.quote * avg`, when only the quote side was priced. */
  function QuoteTimesAvg(quote: real, avg: real): Option<real> {
    Some(quote * avg)
  }

  /** The `usd` that one iteration of update_markets_usd_price gives market `m`. */
  function Triangulate(m: Market, stablecoins: seq<string>, bySymbol: map<string, Market>): Market
  {
    if m.quote in stablecoins then
      m.(usd := Direct(m.avg))
    else
      var b := LastMatch(m.base, stablecoins, bySymbol);
      var q := LastMatch(m.quote, stablecoins, bySymbol);
      var basePrice := if b.None? && q.Some? then QuoteTimesAvg(q.value.price, m.avg) else PriceOf(b);
      m.(usd := Triangulated(basePrice, PriceOf(q), PairOf(b), PairOf(q)))
  }

  /** What the valuation of a single market promises. */
  lemma TriangulateCases(m: Market, stablecoins: seq<string>, bySymbol: map<string, Market>)
    ensures var r := Triangulate(m, stablecoins, bySymbol);
      && r == m.(usd := r.usd)
      && (m.quote in stablecoins ==> r.usd == Direct(m.avg))
      && (m.quote !in stablecoins ==>
          && r.usd.Triangulated?
          && (r.usd.quotePair.Some? <==> exists k :: 0 <= k < |stablecoins| && PairName(m.quote, stablecoins[k]) in bySymbol)
          && (r.usd.basePair.Some? <==> exists k :: 0 <= k < |stablecoins| && PairName(m.base, stablecoins[k]) in bySymbol)
          && (r.usd.quotePair.Some? ==> r.usd.quotePair.value in bySymbol && r.usd.quote == Some(bySymbol[r.usd.quotePair.value].avg))
          && (r.usd.basePair.Some? ==> r.usd.basePair.value in bySymbol && r.usd.base == Some(bySymbol[r.usd.basePair.value].avg))
          && (r.usd.basePair.None? && r.usd.quote.Some? ==> r.usd.base == QuoteTimesAvg(r.usd.quote.value, m.avg))
          && (r.usd.basePair.None? && r.usd.quotePair.None? ==> r.usd.base.None? && r.usd.quote.None?))
  {
    LastMatchSpec(m.base, stablecoins, bySymbol);
    LastMatchSpec(m.quote, stablecoins, bySymbol);
    if m.quote !in stablecoins {
      var b := LastMatch(m.base, stablecoins, bySymbol);
      var q := LastMatch(m.quote, stablecoins, bySymbol);
      var r := Triangulate(m, stablecoins, bySymbol);
      assert r.usd.basePair == PairOf(b) && r.usd.quote == PriceOf(q);
    }
  }

  /** Only BTC/USDT is quoted in a stablecoin: ETH/BTC is valued through BTC/USDT. */
  lemma TriangulationScenario()
    ensures
      var btc := Market("BTCUSDT", "BTC/USDT", "BTC", "USDT", 29000.0, 31000.0, 30000.0, Unvalued);
      var eth := Market("ETHBTC", "ETH/BTC", "ETH", "BTC", 0.069, 0.071, 0.07, Unvalued);
      var bySymbol := map["BTC/USDT" := btc, "ETH/BTC" := eth];
      && Triangulate(btc, ["USDT"], bySymbol).usd == Direct(30000.0)
      && Triangulate(eth, ["USDT"], bySymbol).usd == Triangulated(Some(2100.0), Some(30000.0), None, Some("BTC/USDT"))
  {
    assert PairName("ETH", "USDT") == "ETH/USDT";
    assert PairName("BTC", "USDT") == "BTC/USDT";
  }

  /** The catalogue and its two indexes, as update_markets_usd_price reads and writes them. */
  datatype Catalogue = Catalogue(markets: seq<Market>, byId: map<string, Market>, bySymbol: map<string, Market>)

  /** Iteration `i` of the loop: value market `i` against the current index and write it back everywhere. */
  function UsdStep(c: Catalogue, stablecoins: seq<string>, i: nat): (r: Catalogue)
    requires i < |c.markets|
    ensures |r.markets| == |c.markets|
  {
    var m := Triangulate(c.markets[i], stablecoins, c.bySymbol);
    Catalogue(c.markets[i := m], c.byId[m.id := m], c.bySymbol[m.symbol := m])
  }

  /** The state after the first `n` iterations. */
  function UsdPass(c: Catalogue, stablecoins: seq<string>, n: nat): (r: Catalogue)
    requires n <= |c.markets|
    ensures |r.markets| == |c.markets|
  {
    if n == 0 then c else UsdStep(UsdPass(c, stablecoins, n - 1), stablecoins, n - 1)
  }

  /** The symbol index agrees with the catalogue on every market's average price. */
  ghost predicate AvgConsistent(c: Catalogue) {
    forall i :: 0 <= i < |c.markets| ==>
      c.markets[i].symbol in c.bySymbol && c.bySymbol[c.markets[i].symbol].avg == c.markets[i].avg
  }

  ghost predicate SameAvgs(b1: map<string, Market>, b2: map<string, Market>) {
    b1.Keys == b2.Keys && forall k :: k in b1 ==> b1[k].avg == b2[k].avg
  }

  /** Valuation reads only which symbols are indexed and their average prices. */
  lemma {:induction false} LastMatchAvgOnly(asset: string, stablecoins: seq<string>, b1: map<string, Market>, b2: map<string, Market>)
    requires SameAvgs(b1, b2)
    ensures LastMatch(asset, stablecoins, b1) == LastMatch(asset, stablecoins, b2)
  {
    if stablecoins != [] {
      LastMatchAvgOnly(asset, stablecoins[..|stablecoins| - 1], b1, b2);
    }
  }

  lemma TriangulateAvgOnly(m: Market, stablecoins: seq<string>, b1: map<string, Market>, b2: map<string, Market>)
    requires SameAvgs(b1, b2)
    ensures Triangulate(m, stablecoins, b1) == Triangulate(m, stablecoins, b2)
  {
    LastMatchAvgOnly(m.base, stablecoins, b1, b2);
    LastMatchAvgOnly(m.quote, stablecoins, b1, b2);
  }

  lemma {:induction false} UsdPassInvariant(c: Catalogue, stablecoins: seq<string>, n: nat)
    requires AvgConsistent(c) && n <= |c.markets|
    ensures var r := UsdPass(c, stablecoins, n);
      && (forall i :: 0 <= i < n ==> r.markets[i] == Triangulate(c.markets[i], stablecoins, c.bySymbol))
      && (forall i :: n <= i < |c.markets| ==> r.markets[i] == c.markets[i])
      && SameAvgs(r.bySymbol, c.bySymbol)
  {
    if n > 0 {
      UsdPassInvariant(c, stablecoins, n - 1);
      var prev := UsdPass(c, stablecoins, n - 1);
      var orig := c.markets[n - 1];
      assert prev.markets[n - 1] == orig;
      TriangulateAvgOnly(orig, stablecoins, prev.bySymbol, c.bySymbol);
      var m := Triangulate(orig, stablecoins, c.bySymbol);
      assert m.symbol == orig.symbol && m.avg == orig.avg;
    }
  }

  /**
   * A full pass over an avg-consistent catalogue values every market against the
   * index as it was before the pass, and leaves the list's length and each
   * market's position, id and symbol as they were.
   */
  lemma UsdPriceUpdate(c: Catalogue, stablecoins: seq<string>)
    requires AvgConsistent(c)
    ensures var r := UsdPass(c, stablecoins, |c.markets|);
      && |r.markets| == |c.markets|
      && forall i :: 0 <= i < |c.markets| ==>
           && r.markets[i] == Triangulate(c.markets[i], stablecoins, c.bySymbol)
           && r.markets[i].id == c.markets[i].id
           && r.markets[i].symbol == c.markets[i].symbol
  {
    UsdPassInvariant(c, stablecoins, |c.markets|);
  }

  /** index_markets produces an avg-consistent catalogue when equal symbols carry equal prices. */
  lemma IndexedIsAvgConsistent(ms: seq<Market>)
    requires forall i, j :: 0 <= i < |ms| && 0 <= j < |ms| && ms[i].symbol == ms[j].symbol ==> ms[i].avg == ms[j].avg
    ensures AvgConsistent(Catalogue(ms, IndexBy(ms, IdOf), IndexBy(ms, SymbolOf)))
  {
    forall i | 0 <= i < |ms|
      ensures ms[i].symbol in IndexBy(ms, SymbolOf)
      ensures IndexBy(ms, SymbolOf)[ms[i].symbol].avg == ms[i].avg
    {
      IndexByLast(ms, SymbolOf, ms[i].symbol);
    }
  }

  /** Two catalogues whose markets carry the same keys position by position index the same keys. */
  lemma {:induction false} IndexBySameKeys(a: seq<Market>, b: seq<Market>, key: Market -> string)
    requires |a| == |b|
    requires forall i :: 0 <= i < |a| ==> key(a[i]) == key(b[i])
    ensures IndexBy(a, key).Keys == IndexBy(b, key).Keys
  {
    if a != [] {
      var n := |a| - 1;
      IndexBySameKeys(a[..n], b[..n], key);
    }
  }

  /** No iteration changes a market's id or symbol. */
  lemma {:induction false} UsdPassKeys(c: Catalogue, stablecoins: seq<string>, n: nat)
    requires n <= |c.markets|
    ensures var r := UsdPass(c, stablecoins, n);
      forall i :: 0 <= i < |c.markets| ==> r.markets[i].id == c.markets[i].id && r.markets[i].symbol == c.markets[i].symbol
  {
    if n > 0 {
      UsdPassKeys(c, stablecoins, n - 1);
    }
  }

  lemma UnionUpdate(a: map<string, Market>, b: map<string, Market>, k: string, m: Market)
    ensures (a + b)[k := m] == a + b[k := m]
  {
  }

  lemma IndexByLastStep(ms: seq<Market>, n: nat, m: Market, key: Market -> string)
    requires n < |ms|
    ensures IndexBy(ms[n := m][..n + 1], key) == IndexBy(ms[..n], key)[key(m) := m]
  {
    assert ms[n := m][..n + 1][..n] == ms[..n];
  }

  /** Writing market `n` into an index built over the first `n` markets indexes the first `n + 1`. */
  lemma IndexStep(base: map<string, Market>, index: map<string, Market>, ms: seq<Market>, n: nat, m: Market, key: Market -> string)
    requires n < |ms| && index == base + IndexBy(ms[..n], key)
    ensures index[key(m) := m] == base + IndexBy(ms[n := m][..n + 1], key)
  {
    IndexByLastStep(ms, n, m, key);
    UnionUpdate(base, IndexBy(ms[..n], key), key(m), m);
  }

  /** After `n` iterations the id index is the one before the pass overwritten by the valued first `n` markets. */
  lemma {:induction false} UsdPassIdIndex(c: Catalogue, stablecoins: seq<string>, n: nat)
    requires n <= |c.markets|
    ensures var r := UsdPass(c, stablecoins, n);
      r.byId == c.byId + IndexBy(r.markets[..n], IdOf)
  {
    if n > 0 {
      UsdPassIdIndex(c, stablecoins, n - 1);
      var prev := UsdPass(c, stablecoins, n - 1);
      var m := Triangulate(prev.markets[n - 1], stablecoins, prev.bySymbol);
      IndexStep(c.byId, prev.byId, prev.markets, n - 1, m, IdOf);
    }
  }

  /** The same for the symbol index. */
  lemma {:induction false} UsdPassSymbolIndex(c: Catalogue, stablecoins: seq<string>, n: nat)
    requires n <= |c.markets|
    ensures var r := UsdPass(c, stablecoins, n);
      r.bySymbol == c.bySymbol + IndexBy(r.markets[..n], SymbolOf)
  {
    if n > 0 {
      UsdPassSymbolIndex(c, stablecoins, n - 1);
      var prev := UsdPass(c, stablecoins, n - 1);
      var m := Triangulate(prev.markets[n - 1], stablecoins, prev.bySymbol);
      IndexStep(c.bySymbol, prev.bySymbol, prev.markets, n - 1, m, SymbolOf);
    }
  }

  lemma UnionCovered(a: map<string, Market>, b: map<string, Market>)
    requires a.Keys <= b.Keys
    ensures a + b == b
  {
  }

  /** Indexing a sequence with the same keys over an index of the old one leaves only the new index. */
  lemma IndexOverSameKeys(a: seq<Market>, b: seq<Market>, key: Market -> string)
    requires |a| == |b|
    requires forall i :: 0 <= i < |a| ==> key(a[i]) == key(b[i])
    ensures IndexBy(a, key) + IndexBy(b, key) == IndexBy(b, key)
  {
    IndexBySameKeys(a, b, key);
    UnionCovered(IndexBy(a, key), IndexBy(b, key));
  }

  lemma UsdPassKeepsIndexes(c: Catalogue, stablecoins: seq<string>)
    requires c.byId == IndexBy(c.markets, IdOf) && c.bySymbol == IndexBy(c.markets, SymbolOf)
    ensures var r := UsdPass(c, stablecoins, |c.markets|);
      r.byId == IndexBy(r.markets, IdOf) && r.bySymbol == IndexBy(r.markets, SymbolOf)
  {
    var r := UsdPass(c, stablecoins, |c.markets|);
    UsdPassIdIndex(c, stablecoins, |c.markets|);
    UsdPassSymbolIndex(c, stablecoins, |c.markets|);
    UsdPassKeys(c, stablecoins, |c.markets|);
    assert r.markets[..|c.markets|] == r.markets;
    IndexOverSameKeys(c.markets, r.markets, IdOf);
    IndexOverSameKeys(c.markets, r.markets, SymbolOf);
  }
}
