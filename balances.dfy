/**
 * USD pricing of a currency and the balance list with its USD totals
 * (exchanges/exchange.base.js, get_usd_price, balances, balance_usd,
 * free_balance_usd and total_balance_usd).
 */
module Balances {
  import opened Js
  import opened Markets

  /** What get_usd_price returns: a USD price, or `false` when no market prices the currency. */
  datatype Price = Usd(price: real) | Unpriced

  /** The USD-valued `free`, `used` and `total` of a balance. */
  datatype UsdAmounts = UsdAmounts(free: real, used: real, total: real)

  /** A retained balance: native amounts as the venue reported them, plus their USD values. */
  datatype Balance = Balance(currency: string, price: Price, free: Value, used: Value, total: Value, usd: UsdAmounts)

  /** What the binding prices with: its ordered stablecoins, its market-map template and its symbol index. */
  datatype Pricing = Pricing(stablecoins: seq<string>, template: string, bySymbol: map<string, Market>)

  // ---------------------------------------------------------------------------
  // get_usd_price

  /** `template.replace('{currency}', currency).replace('{stablecoin}', stablecoin)`. */
  function MarketMapSymbol(template: string, currency: string, stablecoin: string): string {
    ReplaceFirst(ReplaceFirst(template, "{currency}", currency), "{stablecoin}", stablecoin)
  }

  lemma CurrencyReplaced(currency: string)
    requires '$' !in currency
    ensures ReplaceFirst("{currency}/{stablecoin}", "{currency}", currency) == currency + "/{stablecoin}"
  {
    var template := "{currency}/{stablecoin}";
    assert template[..10] == "{currency}";
    assert IndexOf(template, "{currency}") == Some(0);
    assert template[10..] == "/{stablecoin}";
    assert [] + currency + "/{stablecoin}" == currency + "/{stablecoin}";
  }

  lemma StablecoinReplaced(currency: string, stablecoin: string)
    requires '{' !in currency && '$' !in stablecoin
    ensures ReplaceFirst(currency + "/{stablecoin}", "{stablecoin}", stablecoin) == currency + "/" + stablecoin
  {
    var p := currency + "/";
    assert currency + "/{stablecoin}" == p + "{stablecoin}" + "";
    assert '{' !in p;
    NoOccurrenceBefore(p, "{stablecoin}", "");
    ReplaceAt(p, "{stablecoin}", "", stablecoin);
    assert p + stablecoin + "" == currency + "/" + stablecoin;
  }

  /** With the usual template, the mapped symbol is `currency/stablecoin`. */
  lemma StandardTemplate(currency: string, stablecoin: string)
    requires '{' !in currency && '$' !in currency && '$' !in stablecoin
    ensures MarketMapSymbol("{currency}/{stablecoin}", currency, stablecoin) == currency + "/" + stablecoin
  {
    CurrencyReplaced(currency);
    StablecoinReplaced(currency, stablecoin);
  }

  /** The mid price `(bid + ask) / 2` of a market. */
  function Mid(m: Market): real {
    (m.bid + m.ask) / 2.0
  }

  /** The stablecoins loop: the first one whose mapped symbol is indexed gives the price. */
  function FirstPriced(stablecoins: seq<string>, template: string, bySymbol: map<string, Market>, currency: string): Price
  {
    if stablecoins == [] then Unpriced
    else
      var symbol := MarketMapSymbol(template, currency, stablecoins[0]);
      if symbol in bySymbol then Usd(Mid(bySymbol[symbol]))
      else FirstPriced(stablecoins[1..], template, bySymbol, currency)
  }

  function UsdPrice(pr: Pricing, currency: string): Price {
    if currency in pr.stablecoins then Usd(1.0)
    else FirstPriced(pr.stablecoins, pr.template, pr.bySymbol, currency)
  }

  lemma {:induction false} FirstPricedSpec(stablecoins: seq<string>, template: string, bySymbol: map<string, Market>, currency: string)
    ensures var r := FirstPriced(stablecoins, template, bySymbol, currency);
      && (r == Unpriced <==>
            forall k :: 0 <= k < |stablecoins| ==> MarketMapSymbol(template, currency, stablecoins[k]) !in bySymbol)
      && (r.Usd? ==>
            exists k ::
              && 0 <= k < |stablecoins|
              && MarketMapSymbol(template, currency, stablecoins[k]) in bySymbol
              && r == Usd(Mid(bySymbol[MarketMapSymbol(template, currency, stablecoins[k])]))
              && forall j :: 0 <= j < k ==> MarketMapSymbol(template, currency, stablecoins[j]) !in bySymbol)
  {
    if stablecoins != [] {
      var rest := stablecoins[1..];
      FirstPricedSpec(rest, template, bySymbol, currency);
      assert forall k :: 0 <= k < |rest| ==> rest[k] == stablecoins[k + 1];
      var r := FirstPriced(stablecoins, template, bySymbol, currency);
      if MarketMapSymbol(template, currency, stablecoins[0]) in bySymbol {
        assert r.Usd?;
      } else if r.Usd? {
        var k :| 0 <= k < |rest| && MarketMapSymbol(template, currency, rest[k]) in bySymbol
          && r == Usd(Mid(bySymbol[MarketMapSymbol(template, currency, rest[k])]))
          && forall j :: 0 <= j < k ==> MarketMapSymbol(template, currency, rest[j]) !in bySymbol;
        assert forall j :: 0 <= j < k + 1 ==> MarketMapSymbol(template, currency, stablecoins[j]) !in bySymbol;
      } else {
        forall k | 1 <= k < |stablecoins|
          ensures MarketMapSymbol(template, currency, stablecoins[k]) !in bySymbol
        {
          assert stablecoins[k] == rest[k - 1];
        }
      }
    }
  }

  /**
   * A stablecoin is worth 1; any other currency is priced by the mid price of the
   * market mapped from the FIRST stablecoin, in list order, that has one; with no
   * such market the answer is `false`, which is distinct from a price of 0.
   */
  lemma UsdPriceSpec(pr: Pricing, currency: string)
    ensures currency in pr.stablecoins ==> UsdPrice(pr, currency) == Usd(1.0)
    ensures currency !in pr.stablecoins ==>
      (UsdPrice(pr, currency) == Unpriced <==>
        forall k :: 0 <= k < |pr.stablecoins| ==> MarketMapSymbol(pr.template, currency, pr.stablecoins[k]) !in pr.bySymbol)
    ensures currency !in pr.stablecoins && UsdPrice(pr, currency).Usd? ==>
      exists k ::
        && 0 <= k < |pr.stablecoins|
        && MarketMapSymbol(pr.template, currency, pr.stablecoins[k]) in pr.bySymbol
        && UsdPrice(pr, currency) == Usd(Mid(pr.bySymbol[MarketMapSymbol(pr.template, currency, pr.stablecoins[k])]))
        && forall j :: 0 <= j < k ==> MarketMapSymbol(pr.template, currency, pr.stablecoins[j]) !in pr.bySymbol
  {
    FirstPricedSpec(pr.stablecoins, pr.template, pr.bySymbol, currency);
  }

  // ---------------------------------------------------------------------------
  // balances

  /** The aggregate keys a fetched balance object carries besides its currencies. */
  const MetaKeys: seq<string> := ["info", "free", "used", "total"]

  /** The `delete`s of `keys`, one after the other. */
  function RemoveEach(props: seq<(string, Value)>, keys: seq<string>): (r: seq<(string, Value)>)
    ensures forall p :: p in r <==> p in props && p.0 !in keys
    decreases keys
  {
    if keys == [] then props
    else
      assert forall k :: k in keys <==> k == keys[0] || k in keys[1..];
      RemoveEach(Remove(props, keys[0]), keys[1..])
  }

  /** Deleting keys that no property has changes nothing. */
  lemma {:induction false} RemoveEachNothing(props: seq<(string, Value)>, keys: seq<string>)
    requires forall i :: 0 <= i < |props| ==> props[i].0 !in keys
    ensures RemoveEach(props, keys) == props
    decreases keys
  {
    if keys != [] {
      RemoveNothing(props, keys[0]);
      RemoveEachNothing(props, keys[1..]);
    }
  }

  /** `delete raw.info; delete raw.free; delete raw.used; delete raw.total`. */
  function StripMeta(props: seq<(string, Value)>): (r: seq<(string, Value)>)
    ensures forall p :: p in r <==> p in props && p.0 !in MetaKeys
  {
    RemoveEach(props, MetaKeys)
  }

  /** `new classes.balance(currency, price, free, used, total)`; `valuate` gives its USD fields. */
  function MakeBalance(currency: string, entry: Value, pr: Pricing, valuate: (string, Price, Value, Value, Value) -> UsdAmounts): Balance
  {
    var price := UsdPrice(pr, currency);
    var free := Member(entry, "free");
    var used := Member(entry, "used");
    var total := Member(entry, "total");
    Balance(currency, price, free, used, total, valuate(currency, price, free, used, total))
  }

  /**
   * The forEach over the currencies: None when reading an entry throws
   * (the entry is null or undefined), otherwise the balances with non-zero total.
   */
  function BalanceList(entries: seq<(string, Value)>, pr: Pricing, valuate: (string, Price, Value, Value, Value) -> UsdAmounts): Option<seq<Balance>>
  {
    if entries == [] then Some([])
    else
      var n := |entries| - 1;
      match BalanceList(entries[..n], pr, valuate)
      case None => None
      case Some(front) =>
        if Nullish(entries[n].1) then None
        else
          var b := MakeBalance(entries[n].0, entries[n].1, pr, valuate);
          Some(if LooseZero(b.total) then front else front + [b])
  }

  /** The list throws exactly when some entry is null or undefined. */
  lemma {:induction false} BalanceListNone(entries: seq<(string, Value)>, pr: Pricing, valuate: (string, Price, Value, Value, Value) -> UsdAmounts)
    ensures BalanceList(entries, pr, valuate).None? <==> exists i :: 0 <= i < |entries| && Nullish(entries[i].1)
  {
    if entries != [] {
      var n := |entries| - 1;
      var front := entries[..n];
      BalanceListNone(front, pr, valuate);
      if BalanceList(front, pr, valuate).None? {
        var i :| 0 <= i < |front| && Nullish(front[i].1);
        assert entries[i] == front[i];
      } else if !Nullish(entries[n].1) {
        forall i | 0 <= i < |entries|
          ensures !Nullish(entries[i].1)
        {
          if i < n {
            assert entries[i] == front[i];
          }
        }
      }
    }
  }

  /** One more entry: the list so far, extended by the entry's balance unless it throws or its total is 0. */
  lemma BalanceListStep(entries: seq<(string, Value)>, pr: Pricing, valuate: (string, Price, Value, Value, Value) -> UsdAmounts)
    requires entries != []
    requires BalanceList(entries, pr, valuate).Some?
    ensures var n := |entries| - 1;
      var bn := MakeBalance(entries[n].0, entries[n].1, pr, valuate);
      && BalanceList(entries[..n], pr, valuate).Some?
      && BalanceList(entries, pr, valuate).value ==
         if LooseZero(bn.total) then BalanceList(entries[..n], pr, valuate).value
         else BalanceList(entries[..n], pr, valuate).value + [bn]
  {
  }

  /** `b` is what the forEach makes of `entry` and keeps. */
  predicate KeptBalance(entry: (string, Value), pr: Pricing, valuate: (string, Price, Value, Value, Value) -> UsdAmounts, b: Balance) {
    b == MakeBalance(entry.0, entry.1, pr, valuate) && !LooseZero(b.total)
  }

  /**
   * When the list does not throw, one balance is in it exactly when it is the
   * balance of an entry whose total is not 0.
   */
  lemma {:induction false} BalanceListMember(entries: seq<(string, Value)>, pr: Pricing, valuate: (string, Price, Value, Value, Value) -> UsdAmounts, b: Balance)
    requires BalanceList(entries, pr, valuate).Some?
    ensures b in BalanceList(entries, pr, valuate).value <==> exists i :: 0 <= i < |entries| && KeptBalance(entries[i], pr, valuate, b)
  {
    if entries != [] {
      var n := |entries| - 1;
      var front := entries[..n];
      BalanceListMember(front, pr, valuate, b);
      BalanceListStep(entries, pr, valuate);
      var l := BalanceList(entries, pr, valuate).value;
      var lf := BalanceList(front, pr, valuate).value;
      if b in lf {
        var i :| 0 <= i < |front| && KeptBalance(front[i], pr, valuate, b);
        assert entries[i] == front[i];
      } else if b in l {
        assert KeptBalance(entries[n], pr, valuate, b);
      } else {
        forall i | 0 <= i < |entries|
          ensures !KeptBalance(entries[i], pr, valuate, b)
        {
          if i < n {
            assert entries[i] == front[i];
          }
        }
      }
    }
  }

  /**
   * The list throws exactly when some entry is null or undefined; otherwise it
   * holds exactly the balances of the entries whose total is not 0.
   */
  lemma BalanceListSpec(entries: seq<(string, Value)>, pr: Pricing, valuate: (string, Price, Value, Value, Value) -> UsdAmounts)
    ensures BalanceList(entries, pr, valuate).None? <==> exists i :: 0 <= i < |entries| && Nullish(entries[i].1)
    ensures BalanceList(entries, pr, valuate).Some? ==>
      forall b :: b in BalanceList(entries, pr, valuate).value <==>
        exists i :: 0 <= i < |entries| && b == MakeBalance(entries[i].0, entries[i].1, pr, valuate) && !LooseZero(b.total)
  {
    BalanceListNone(entries, pr, valuate);
    if BalanceList(entries, pr, valuate).Some? {
      forall b
        ensures b in BalanceList(entries, pr, valuate).value <==>
          exists i :: 0 <= i < |entries| && b == MakeBalance(entries[i].0, entries[i].1, pr, valuate) && !LooseZero(b.total)
      {
        BalanceListMember(entries, pr, valuate, b);
      }
    }
  }

  /** The outcome of `balances()` once the fetch has returned `results`. */
  datatype BalanceFetch =
    | Stored(list: seq<Balance>)   // the list is stored in `this.data.balances` and returned
    | EnvelopeError                // the fetch returned an error envelope: `[]` is returned, nothing stored
    | Threw                        // a TypeError escapes: the results or an entry is null or undefined

  /** `results.hasOwnProperty('data') ? results.data : results`. */
  function RawBalances(results: Value): Value {
    if results.Obj? && Lookup(results.props, "data").Some? then Member(results, "data") else results
  }

  function BalancesFrom(results: Value, pr: Pricing, valuate: (string, Price, Value, Value, Value) -> UsdAmounts): BalanceFetch
  {
    if Nullish(results) then Threw
    else if Member(results, "result") == Str("error") then EnvelopeError
    else
      var raw := RawBalances(results);
      if Nullish(raw) then Threw
      else if !raw.Obj? then Stored([])
      else
        match BalanceList(StripMeta(raw.props), pr, valuate)
        case None => Threw
        case Some(l) => Stored(l)
  }

  /**
   * An error envelope yields no balances; a stored list never holds an aggregate
   * key nor a zero total, and it holds every currency of the fetched object
   * (its `data` when it has one) whose total is not 0.
   */
  lemma BalancesFromSpec(results: Value, pr: Pricing, valuate: (string, Price, Value, Value, Value) -> UsdAmounts)
    ensures Member(results, "result") == Str("error") ==> BalancesFrom(results, pr, valuate) == EnvelopeError
    ensures BalancesFrom(results, pr, valuate).Stored? ==>
      forall b :: b in BalancesFrom(results, pr, valuate).list ==> b.currency !in MetaKeys && !LooseZero(b.total)
    ensures BalancesFrom(results, pr, valuate).Stored? && RawBalances(results).Obj? ==>
      forall c, e :: (c, e) in RawBalances(results).props && c !in MetaKeys && !LooseZero(Member(e, "total")) ==>
        MakeBalance(c, e, pr, valuate) in BalancesFrom(results, pr, valuate).list
  {
    var r := BalancesFrom(results, pr, valuate);
    if r.Stored? && !Nullish(results) && Member(results, "result") != Str("error") {
      var raw := RawBalances(results);
      if raw.Obj? {
        var entries := StripMeta(raw.props);
        BalanceListSpec(entries, pr, valuate);
        forall b | b in r.list
          ensures b.currency !in MetaKeys && !LooseZero(b.total)
        {
          var i :| 0 <= i < |entries| && b == MakeBalance(entries[i].0, entries[i].1, pr, valuate) && !LooseZero(b.total);
          assert entries[i] in entries;
        }
        forall c, e | (c, e) in raw.props && c !in MetaKeys && !LooseZero(Member(e, "total"))
          ensures MakeBalance(c, e, pr, valuate) in r.list
        {
          assert (c, e) in entries;
          var i :| 0 <= i < |entries| && entries[i] == (c, e);
        }
      }
    }
  }

  // ---------------------------------------------------------------------------
  // USD totals

  function SumFree(bs: seq<Balance>): real {
    if bs == [] then 0.0 else SumFree(bs[..|bs| - 1]) + bs[|bs| - 1].usd.free
  }

  function SumUsed(bs: seq<Balance>): real {
    if bs == [] then 0.0 else SumUsed(bs[..|bs| - 1]) + bs[|bs| - 1].usd.used
  }

  function SumTotal(bs: seq<Balance>): real {
    if bs == [] then 0.0 else SumTotal(bs[..|bs| - 1]) + bs[|bs| - 1].usd.total
  }

  /** The forEach of `balance_usd`: the three USD amounts summed over the balances. */
  method SumUsd(bs: seq<Balance>) returns (r: UsdAmounts)
    ensures r == UsdAmounts(SumFree(bs), SumUsed(bs), SumTotal(bs))
  {
    var free, used, total := 0.0, 0.0, 0.0;
    var i := 0;
    while i < |bs|
      invariant 0 <= i <= |bs|
      invariant free == SumFree(bs[..i]) && used == SumUsed(bs[..i]) && total == SumTotal(bs[..i])
    {
      assert bs[..i + 1][..i] == bs[..i];
      free := free + bs[i].usd.free;
      used := used + bs[i].usd.used;
      total := total + bs[i].usd.total;
      i := i + 1;
    }
    assert bs[..i] == bs;
    return UsdAmounts(free, used, total);
  }

  /** The forEach of `free_balance_usd`. */
  method SumFreeUsd(bs: seq<Balance>) returns (r: real)
    ensures r == SumFree(bs)
  {
    var free := 0.0;
    var i := 0;
    while i < |bs|
      invariant 0 <= i <= |bs|
      invariant free == SumFree(bs[..i])
    {
      assert bs[..i + 1][..i] == bs[..i];
      free := free + bs[i].usd.free;
      i := i + 1;
    }
    assert bs[..i] == bs;
    return free;
  }

  /** The forEach of `total_balance_usd`. */
  method SumTotalUsd(bs: seq<Balance>) returns (r: real)
    ensures r == SumTotal(bs)
  {
    var total := 0.0;
    var i := 0;
    while i < |bs|
      invariant 0 <= i <= |bs|
      invariant total == SumTotal(bs[..i])
    {
      assert bs[..i + 1][..i] == bs[..i];
      total := total + bs[i].usd.total;
      i := i + 1;
    }
    assert bs[..i] == bs;
    return total;
  }

  // A worked example: one unit of a coin priced through its pair with the only
  // stablecoin at a 29000/31000 book, and 100 units of that stablecoin.

  /** Currency names that are neither aggregate nor envelope keys, without `$`, the coin's without `{`. */
  predicate ScenarioNames(coin: string, stable: string) {
    && '{' !in coin
    && '$' !in coin && '$' !in stable
    && coin != stable
    && coin !in MetaKeys && stable !in MetaKeys
    && coin != "data" && stable != "data"
    && coin != "result" && stable != "result"
  }

  function ScenarioMarket(coin: string, stable: string): Market {
    Market(coin + stable, coin + "/" + stable, coin, stable, 29000.0, 31000.0, 30000.0, Unvalued)
  }

  function ScenarioPricing(coin: string, stable: string): Pricing {
    Pricing([stable], "{currency}/{stablecoin}", map[coin + "/" + stable := ScenarioMarket(coin, stable)])
  }

  const ScenarioCoin := Obj([("free", Num(1.0)), ("used", Num(0.0)), ("total", Num(1.0))])
  const ScenarioStable := Obj([("free", Num(100.0)), ("used", Num(0.0)), ("total", Num(100.0))])

  /** A valuation of `classes.balance`'s USD fields for the example: amount times price. */
  function ValueAtPrice(c: string, p: Price, free: Value, used: Value, total: Value): UsdAmounts {
    if p.Usd? && free.Num? && used.Num? && total.Num? then
      UsdAmounts(free.num * p.price, used.num * p.price, total.num * p.price)
    else
      UsdAmounts(0.0, 0.0, 0.0)
  }

  /** The first stablecoin with a mapped market prices the currency. */
  lemma FirstPricedHead(stablecoins: seq<string>, template: string, bySymbol: map<string, Market>, currency: string)
    requires stablecoins != [] && MarketMapSymbol(template, currency, stablecoins[0]) in bySymbol
    ensures FirstPriced(stablecoins, template, bySymbol, currency) == Usd(Mid(bySymbol[MarketMapSymbol(template, currency, stablecoins[0])]))
  {
  }

  /** A currency with a single stablecoin pair under the usual template is priced at that pair's mid price. */
  lemma PricedByPair(currency: string, stablecoin: string, m: Market)
    requires '{' !in currency && '$' !in currency && '$' !in stablecoin && currency != stablecoin
    ensures UsdPrice(Pricing([stablecoin], "{currency}/{stablecoin}", map[currency + "/" + stablecoin := m]), currency) == Usd(Mid(m))
  {
    StandardTemplate(currency, stablecoin);
    FirstPricedHead([stablecoin], "{currency}/{stablecoin}", map[currency + "/" + stablecoin := m], currency);
  }

  lemma ScenarioPrices(coin: string, stable: string)
    requires ScenarioNames(coin, stable)
    ensures UsdPrice(ScenarioPricing(coin, stable), coin) == Usd(30000.0)
    ensures UsdPrice(ScenarioPricing(coin, stable), stable) == Usd(1.0)
  {
    PricedByPair(coin, stable, ScenarioMarket(coin, stable));
  }

  lemma ScenarioStrip(coin: string, stable: string)
    requires ScenarioNames(coin, stable)
    ensures StripMeta([(coin, ScenarioCoin), (stable, ScenarioStable)]) == [(coin, ScenarioCoin), (stable, ScenarioStable)]
  {
    RemoveEachNothing([(coin, ScenarioCoin), (stable, ScenarioStable)], MetaKeys);
  }

  function CoinBalance(coin: string): Balance {
    Balance(coin, Usd(30000.0), Num(1.0), Num(0.0), Num(1.0), UsdAmounts(30000.0, 0.0, 30000.0))
  }

  function StableBalance(stable: string): Balance {
    Balance(stable, Usd(1.0), Num(100.0), Num(0.0), Num(100.0), UsdAmounts(100.0, 0.0, 100.0))
  }

  lemma ScenarioEntries(coin: string, stable: string)
    requires ScenarioNames(coin, stable)
    ensures MakeBalance(coin, ScenarioCoin, ScenarioPricing(coin, stable), ValueAtPrice) == CoinBalance(coin)
    ensures MakeBalance(stable, ScenarioStable, ScenarioPricing(coin, stable), ValueAtPrice) == StableBalance(stable)
  {
    ScenarioPrices(coin, stable);
    assert Member(ScenarioCoin, "total") == Num(1.0);
    assert Member(ScenarioCoin, "free") == Num(1.0);
    assert Member(ScenarioCoin, "used") == Num(0.0);
    assert Member(ScenarioStable, "total") == Num(100.0);
    assert Member(ScenarioStable, "free") == Num(100.0);
    assert Member(ScenarioStable, "used") == Num(0.0);
  }

  /** Two entries that are not null or undefined and whose totals are not 0 give their two balances, in order. */
  lemma BalanceListPair(e1: (string, Value), e2: (string, Value), pr: Pricing, valuate: (string, Price, Value, Value, Value) -> UsdAmounts)
    requires !Nullish(e1.1) && !Nullish(e2.1)
    ensures var b1 := MakeBalance(e1.0, e1.1, pr, valuate);
      var b2 := MakeBalance(e2.0, e2.1, pr, valuate);
      !LooseZero(b1.total) && !LooseZero(b2.total) ==> BalanceList([e1, e2], pr, valuate) == Some([b1, b2])
  {
    var b1 := MakeBalance(e1.0, e1.1, pr, valuate);
    var b2 := MakeBalance(e2.0, e2.1, pr, valuate);
    if !LooseZero(b1.total) && !LooseZero(b2.total) {
      assert [e1][..0] == [];
      var none: seq<Balance> := [];
      assert BalanceList([e1], pr, valuate) == Some(none + [b1]);
      assert none + [b1] == [b1];
      assert [e1, e2][..1] == [e1];
      assert [b1] + [b2] == [b1, b2];
    }
  }

  lemma ScenarioList(coin: string, stable: string)
    requires ScenarioNames(coin, stable)
    ensures BalanceList([(coin, ScenarioCoin), (stable, ScenarioStable)], ScenarioPricing(coin, stable), ValueAtPrice)
      == Some([CoinBalance(coin), StableBalance(stable)])
  {
    ScenarioEntries(coin, stable);
    BalanceListPair((coin, ScenarioCoin), (stable, ScenarioStable), ScenarioPricing(coin, stable), ValueAtPrice);
  }

  lemma ScenarioSum(coin: string, stable: string)
    ensures SumTotal([CoinBalance(coin), StableBalance(stable)]) == 30100.0
  {
    var l := [CoinBalance(coin), StableBalance(stable)];
    assert l[..1] == [CoinBalance(coin)];
    assert l[..1][..0] == [];
    assert SumTotal(l[..1]) == 30000.0;
  }

  /** A fetched object without a `result` or `data` key is read as the balances themselves. */
  lemma BalancesFromObject(props: seq<(string, Value)>, pr: Pricing, valuate: (string, Price, Value, Value, Value) -> UsdAmounts)
    requires Lookup(props, "result").None? && Lookup(props, "data").None?
    ensures BalancesFrom(Obj(props), pr, valuate) ==
      match BalanceList(StripMeta(props), pr, valuate)
      case None => Threw
      case Some(l) => Stored(l)
  {
  }

  /** The balances of the example are both retained and total 30100 USD. */
  lemma TotalBalanceScenario(coin: string, stable: string)
    requires ScenarioNames(coin, stable)
    ensures
      var raw := Obj([(coin, ScenarioCoin), (stable, ScenarioStable)]);
      var fetched := BalancesFrom(raw, ScenarioPricing(coin, stable), ValueAtPrice);
      fetched.Stored? && |fetched.list| == 2 && SumTotal(fetched.list) == 30100.0
  {
    var props := [(coin, ScenarioCoin), (stable, ScenarioStable)];
    assert Lookup(props, "data").None? && Lookup(props, "result").None?;
    BalancesFromObject(props, ScenarioPricing(coin, stable), ValueAtPrice);
    ScenarioStrip(coin, stable);
    ScenarioList(coin, stable);
    ScenarioSum(coin, stable);
  }
}
