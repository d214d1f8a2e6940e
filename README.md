# Exchange normalisation layer and settings store, modelled in Dafny

This project models two parts of a crypto-trading bot.

**The exchange base class** (`exchanges/exchange.base.js`) is what every venue binding builds on. It holds:
- a per-method cache time-to-live table;
- the loaded market catalogue and its two indexes, by venue id and by symbol;
- the memoised balance list.

It routes every request through one cached call: a read of the cache, or exactly one call to the binding's own normaliser or to the connectivity library, followed by a conditional cache write. On top of that it:
- values every market in USD by triangulating over the venue's stablecoins;
- prices a currency through a symbol template;
- filters and sums balances;
- merges and filters orders;
- cancels orders one by one or in bulk;
- shapes the answer to an order creation.

**The settings module** (`core/mod.settings.js`) stores values in a `settings` table under three parts:
- a tenant uuid (the all-zero uuid for the global namespaces `core`, `whitelist`, `signalprovider` and `symbolmap`);
- a main key;
- an optional sub key.

Values are stored as JSON text and read back with the texts of booleans turned back into booleans.

Modules:
- `Seqs` (seqs.dfy) is order-preserving filtering.
- `Js` (js.dfy) holds JavaScript values, with objects as ordered property lists, first-occurrence `String.replace` with its `$` patterns, loose equality with 0, and a JSON codec given as parameters.
- `Markets` (markets.dfy) covers indexing, lookup, the sorted symbol list and USD triangulation.
- `Balances` (balances.dfy) covers USD pricing of a currency, the balance list and the USD sums.
- `Orders` (orders.dfy) covers merging, parsing, filtering, cancel-all and create-order shaping.
- `Cache` (cache.dfy) specifies the cached call and the dispatch in front of it.
- `Exchange` (exchange.dfy) is the class `ExchangeBase`. Its methods change the TTL table, the data record, the cache store, the call log and the metrics in place. Each method is proved against the specification functions of the modules above.
- `Settings` (settings.dfy) holds tenant resolution, encoding and decoding, the table operations, and the class `SettingsStore` with `Get`, `Set` and `Delete`.

What stays outside the model is a parameter:
- every underlying call is answered by `respond(n, call)`, where `n` counts the calls made before it;
- the venue hooks (`open_orders`, `all_orders`, `cancel`, `parse_order`) are functions;
- the utilities are functions: `is_empty`, `serialize`, `is_json`, `JSON.parse` and `JSON.stringify`;
- the USD fields of a balance object come from `valuate`;
- the request's tenant uuid is an `Option<string>`.

Some source behaviour is modelled exactly as written:
- In `update_markets_usd_price`, the `!usdbasepair` and `!usdquotepair` guards test variables that are never assigned. Every matching stablecoin therefore overwrites the previous one, and the last match in list order wins (`Markets.LastStablecoinWins`). `get_usd_price`, by contrast, stops at the first match.
- On a database other than MySQL, `delete` leaves the uuid out of its query. It removes the key for every tenant (`Settings.UnscopedDeleteReachesAllTenants`).

## Model

| member | source | states |
|---|---|---|
| Exchange.ExchangeBase.constructor | exchanges/exchange.base.js:10-58 | a new binding has no markets and no balances, empty symbol list and indexes, an empty call log and the default time-to-live table; its cache store is the shared one it is given, holding what earlier bindings stored |
| Exchange.ExchangeBase.SetCacheTime | exchanges/exchange.base.js:62-64 | only the time-to-live of the named method changes, to the given value (null allowed) |
| Cache.ArgList | exchanges/exchange.base.js:99-105 | empty params become `[]`, a non-array value a one-element list, an array stays as it is |
| Cache.ExecuteRoutes | exchanges/exchange.base.js:99-114 | `execute` makes at most one underlying call, to the named method with the normalised argument list, through the normaliser exactly when the binding implements the method, and extends the call log without rewriting it |
| Exchange.ExchangeBase.Execute | exchanges/exchange.base.js:99-114 | the result and the new cache, call log and metrics are those of the dispatch specification `Cache.Execute`; no data field changes |
| Exchange.ExchangeBase.CacheExec | exchanges/exchange.base.js:118-147 | the result and the new cache, call log and metrics are those of the cached-call specification `Cache.CacheExec`; no data field changes |
| Cache.ErrorResult | exchanges/exchange.base.js:145-146 | a thrown error is answered by an object whose `result` is `'error'` and whose `data` is the error |
| Cache.BypassCallsOnce | exchanges/exchange.base.js:125-136 | with `nocache` set or no time-to-live for the method, exactly one underlying call is made |
| Cache.HitMakesNoCall | exchanges/exchange.base.js:127-139 | a cache hit makes no call, answers the stored value, leaves the store as it was and records a metric marked cached |
| Cache.AtMostOneCall | exchanges/exchange.base.js:128-136 | every cached call either makes no underlying call or makes exactly this one |
| Cache.ThrowWritesNothing | exchanges/exchange.base.js:128-146 | a miss whose call throws answers the error envelope and changes neither the store nor the metrics |
| Cache.ReturnIsStored | exchanges/exchange.base.js:125-136 | a miss whose call returns a value other than null or undefined stores it under the key from shortname, stub, type, method and serialised params, with the method's time-to-live even when that is null; a null or undefined result is not stored |
| Cache.SecondCallIsCached | exchanges/exchange.base.js:125-139 | repeating a call whose first answer was stored makes no new call and gives the same answer |
| Exchange.ExchangeBase.IndexMarkets | exchanges/exchange.base.js:212-225 | without a catalogue nothing changes; otherwise the symbol list is the catalogue's symbols in order and both indexes are those the catalogue builds, and nothing else changes |
| Markets.SymbolsOf | exchanges/exchange.base.js:214-221 | the symbol list has one entry per market, the market's symbol, in catalogue order |
| Markets.IndexByLast | exchanges/exchange.base.js:217-223 | a key is indexed exactly when some market carries it, and it maps to the last market carrying it |
| Exchange.ExchangeBase.GetMarketById | exchanges/exchange.base.js:164-173 | on an indexed catalogue, found exactly when some market has the id, and then the last market with that id |
| Exchange.ExchangeBase.GetMarketBySymbol | exchanges/exchange.base.js:176-185 | on an indexed catalogue, found exactly when some market has the symbol, and then the last market with that symbol |
| Exchange.ExchangeBase.GetMarketByIdOrSymbol | exchanges/exchange.base.js:188-199 | the id match, else the symbol match, else null; on an indexed catalogue null exactly when no market has that id or symbol |
| Markets.LookupAfterIndex | exchanges/exchange.base.js:188-199 | on indexes built from a catalogue, the lookup gives the last market with the id, failing that the last with the symbol, failing both null |
| Markets.SortAsc | exchanges/exchange.base.js:207 | the sorted symbol list is ordered under the comparator and is a permutation of the list |
| Exchange.ExchangeBase.Symbols | exchanges/exchange.base.js:203-208 | the stored symbol list is replaced by its sorted form and returned; nothing else changes |
| Markets.LastMatchSpec | exchanges/exchange.base.js:247-258 | the pair left for an asset is absent exactly when no `asset/stablecoin` market is indexed; otherwise it comes from a matching stablecoin with no matching one after it in the list, at that market's average price |
| Markets.LastStablecoinWins | exchanges/exchange.base.js:247-258 | with both `BTC/USDT` and `BTC/USD` indexed and stablecoins `[USDT, USD]`, BTC is priced from `BTC/USD` |
| Markets.TriangulateCases | exchanges/exchange.base.js:238-263 | a stablecoin-quoted market gets `usd = avg`; any other gets base and quote prices and pairs from matching stablecoin markets, each present exactly when a match exists, base `= quote * avg` when only the quote side matched, and both null when nothing matched; nothing but `usd` changes |
| Markets.TriangulationScenario | exchanges/exchange.base.js:238-263 | with stablecoin USDT, BTC/USDT is valued directly at 30000 and ETH/BTC at base 2100 through BTC/USDT |
| Exchange.ExchangeBase.ValueMarket | exchanges/exchange.base.js:232-263 | one market's valuation equals the specification `Markets.Triangulate` against the current symbol index |
| Exchange.ExchangeBase.UpdateMarketsUsdPrice | exchanges/exchange.base.js:230-268 | without a catalogue it fails and changes nothing; otherwise the catalogue and both indexes become the iterated valuation `Markets.UsdPass`, the indexes still match the catalogue when they did before, and nothing else changes |
| Markets.UsdPassInvariant | exchanges/exchange.base.js:231-268 | on an index that agrees with the catalogue on average prices, after n iterations the first n markets are valued against the index as it was before the pass, the rest are untouched, and the index keeps its keys and prices |
| Markets.UsdPriceUpdate | exchanges/exchange.base.js:231-268 | a full pass keeps the list's length and every market's position, id and symbol, and values each market against the index as it was before the pass |
| Markets.IndexedIsAvgConsistent | exchanges/exchange.base.js:212-225 | indexes built from a catalogue whose equal symbols carry equal prices agree with it on average prices |
| Markets.UsdPassKeepsIndexes | exchanges/exchange.base.js:264-267 | after a full pass over a freshly indexed catalogue, each index is exactly the one index_markets would build from the valued catalogue |
| Balances.StandardTemplate | exchanges/exchange.base.js:282 | with the template `{currency}/{stablecoin}`, a currency without `{` or `$` and a stablecoin without `$`, the mapped symbol is `currency/stablecoin` |
| Js.ReplaceAt | exchanges/exchange.base.js:282 | a string-pattern `replace` substitutes the first occurrence only, inserting the replacement with its `$` patterns expanded against that match, and leaves everything after it, later occurrences included; a replacement without `$` goes in as it is |
| Js.Substitute | exchanges/exchange.base.js:282 | a replacement text without `$` is inserted unchanged |
| Js.SubstitutePatterns | exchanges/exchange.base.js:282 | in a replacement, `$$` stands for `$`, `$&` for the matched text, `` $` `` for the text before the match and `$'` for the text after it, while `$1` stays as it is because a string pattern has no groups |
| Balances.UsdPriceSpec | exchanges/exchange.base.js:274-293 | a stablecoin is worth 1; another currency is priced at the mid `(bid+ask)/2` of the market mapped from the first stablecoin in list order that has one; with no such market the answer is `false` |
| Exchange.ExchangeBase.GetUsdPrice | exchanges/exchange.base.js:274-293 | the early-return loop answers the pricing specification `Balances.UsdPrice` on the current symbol index |
| Balances.StripMeta | exchanges/exchange.base.js:306-309 | after the deletes, exactly the entries whose key is not `info`, `free`, `used` or `total` remain |
| Balances.BalanceListSpec | exchanges/exchange.base.js:310-322 | the currency loop throws exactly when an entry is null or undefined; otherwise it keeps exactly the balances of the entries whose total is not loosely 0 (`total != 0` after JavaScript's number conversion) |
| Js.LooseZeroExamples | exchanges/exchange.base.js:319 | besides `0`, `false`, `''` and `'0'`, the totals `'0.0'`, `' '`, `'00'`, `'-0e5'`, `'0x0'`, `[]`, `[0]` and `[null]` compare equal to 0 and are dropped, while `'0.01'`, `'0x'`, `'.'`, null, true and `[0, 0]` do not |
| Balances.BalancesFromSpec | exchanges/exchange.base.js:298-326 | an error envelope yields no balances; a stored list holds no aggregate key and no zero total, and it holds every currency of the fetched object, or of its `data` when it has that key, whose total is not 0 |
| Balances.TotalBalanceScenario | exchanges/exchange.base.js:298-368 | for any coin and single stablecoin with ordinary names, 1 coin priced through coin/stablecoin at a 29000/31000 book plus 100 of the stablecoin gives two balances totalling 30100 USD |
| Exchange.ExchangeBase.Balances | exchanges/exchange.base.js:298-326 | a stored list is returned with no fetch and no change; otherwise one `execute('fetch_balance')` is made and its outcome, through `Balances.BalancesFrom`, is stored and returned as a list, answered `[]` on an error envelope, or a failure |
| Exchange.ExchangeBase.FetchedBalances | exchanges/exchange.base.js:304-326 | the body of `balances()` after the fetch equals the specification `Balances.BalancesFrom` at the current prices |
| Exchange.ExchangeBase.BalanceEntries | exchanges/exchange.base.js:310-322 | the currency loop equals the specification `Balances.BalanceList` at the current prices |
| Exchange.ExchangeBase.BalanceUsd | exchanges/exchange.base.js:331-346 | after loading balances, the USD free, used and total are the sums over the stored list, and fail when there is none |
| Exchange.ExchangeBase.FreeBalanceUsd | exchanges/exchange.base.js:351-357 | after loading balances, the sum of USD free over the stored list, and a failure when there is none |
| Exchange.ExchangeBase.TotalBalanceUsd | exchanges/exchange.base.js:362-368 | after loading balances, the sum of USD total over the stored list, and a failure when there is none |
| Balances.SumUsd | exchanges/exchange.base.js:333-340 | the accumulating forEach yields the USD free, used and total summed over the list in order |
| Balances.SumFreeUsd | exchanges/exchange.base.js:353-356 | the accumulating forEach yields the USD free summed over the list in order |
| Balances.SumTotalUsd | exchanges/exchange.base.js:364-367 | the accumulating forEach yields the USD total summed over the list in order |
| Orders.MergeOrders | exchanges/exchange.base.js:373-378 | non-array inputs count as empty; the result is newest first and a permutation of the concatenation |
| Orders.MergeCommutesOnTimestamps | exchanges/exchange.base.js:373-378 | the timestamps of the merged list do not depend on which list is passed first |
| Orders.MergeWithNothing | exchanges/exchange.base.js:373-378 | merging a strictly newest-first list (no two orders with the same timestamp) with a non-array returns that list unchanged |
| Orders.SortDescKeepsSorted | exchanges/exchange.base.js:377 | the sort leaves a strictly newest-first list (no two orders with the same timestamp) exactly as it is |
| Orders.ParseOrders | exchanges/exchange.base.js:382-388 | fails exactly when the raw value is not an array; otherwise one parsed order per raw order, in order |
| Orders.QueryOrdersSpec | exchanges/exchange.base.js:460-474 | the answer is an order-preserving subsequence of the open orders (status `open`) or of all orders, and an order is in it exactly when it passes every supplied status, type and direction filter |
| Orders.CancelAll | exchanges/exchange.base.js:479-493 | with `type` defined, one cancel request per open order and one response per request, unwrapped from single-element arrays; otherwise one request, the params with `id` set to `'all'`; null params or a primitive fail |
| Orders.TrimLeadingVenue | exchanges/exchange.base.js:443 | trimming removes a leading `ftx` and leaves the rest of a message without `d` as it is |
| Orders.ShapeCreateResultSpec | exchanges/exchange.base.js:441-454 | a non-error answer becomes a success with the parsed order; an error's message is the `.error` of the trimmed text when that is JSON, else the untrimmed message |
| Orders.RejectedWithJsonMessage | exchanges/exchange.base.js:441-447 | an error whose message is `ftx` followed by JSON `{error: reason}` is answered with that reason and the error's name |
| Exchange.ExchangeBase.CreateOrder | exchanges/exchange.base.js:436-455 | an unknown market fails with no call; otherwise one library `create_order` goes out under the market's own symbol with the request's fields, and the answer is shaped by `Orders.ShapeCreateResult` |
| Settings.Namespace | core/mod.settings.js:20 | the namespace is the prefix of the main key before its first `:`, or all of it |
| Settings.NamespaceOfQualified | core/mod.settings.js:20 | a key `ns:rest` with `ns` free of colons is in namespace `ns` |
| Settings.NamespaceOfPlain | core/mod.settings.js:20 | a key without a colon is its own namespace |
| Settings.ResolveUuid | core/mod.settings.js:21-22 | the uuid is the zero uuid or the request's own |
| Settings.GlobalKeysShared | core/mod.settings.js:7-22 | keys in the four global namespaces resolve to the zero uuid whichever tenant asks |
| Settings.TenantsSeparated | core/mod.settings.js:21-22 | any other key resolves to the requesting tenant's uuid, so two tenants never share it |
| Settings.CoreKeysGlobal | core/mod.settings.js:7-22 | every `core:…` key is global |
| Settings.PayloadAsWritten | core/mod.settings.js:68-72 | as written, the stringified value is the value itself, the `x` of a `{value: x}` wrapper, or undefined for any other one-key object or one-element array |
| Settings.Payload | core/mod.settings.js:68-72 | the corrected unwrapping of the finding below: only a `{value: x}` wrapper with `x` not null is unwrapped, every other value is stored as it is |
| Settings.AsWrittenDiffers | core/mod.settings.js:68-73 | the unwrapping as written differs from `Payload` exactly on one-key objects whose key is not `value` and on one-element arrays, and there it stringifies undefined |
| Settings.SingleKeyValueLost | core/mod.settings.js:68-73 | as written, `set` of `{foo: 1}` or `[1]` stores the empty text |
| Settings.SingleKeyValueKept | core/mod.settings.js:68-74 | with the corrected unwrapping, `{foo: 1}` is read back as itself |
| Settings.Coerce | core/mod.settings.js:40 | `'true'` and `'"true"'` become true, `'false'` and `'"false"'` become false, and every other value is kept |
| Settings.EncodeAsWrittenRoundTrip | core/mod.settings.js:38-40 | as written, when the codec stringifies the payload to JSON that parses back to it, the stored text reads back as the payload, up to the boolean recovery |
| Settings.EncodeRoundTrip | core/mod.settings.js:38-40 | with the corrected unwrapping and a codec that round-trips the payload, the stored text reads back as the payload, up to the boolean recovery |
| Settings.BooleanRoundTrip | core/mod.settings.js:38-40 | with a codec that round-trips them, a stored boolean reads back as itself, and the string `"true"` reads back as the boolean true |
| Settings.SelectSpec | core/mod.settings.js:28-31 | the selection keeps storage order and holds exactly the rows matching the uuid, the main key and, when given, the sub key |
| Settings.Upsert | core/mod.settings.js:75 | the written row goes last and the other rows are exactly the old ones under a different key |
| Settings.SelectAfterUpsert | core/mod.settings.js:75 | after a write under a sub key, selecting that key finds the written row alone |
| Settings.UpsertIsolated | core/mod.settings.js:75 | a write by one tenant leaves every selection of another tenant as it was |
| Settings.CollectLastWins | core/mod.settings.js:43-52 | every sub key of the rows is a property of the result, holding the value of the last row under it (`"null"` for a missing sub key) |
| Settings.GetAfterSet | core/mod.settings.js:34-75 | a value set under a sub key is read back by a later `get` of that key by the same tenant as the stringified payload, up to the boolean recovery, when the codec round-trips that payload |
| Settings.GetAfterSetLost | core/mod.settings.js:34-75 | a one-key object not keyed `value` or a one-element array set under a sub key is read back as the empty text |
| Settings.DeleteSpec | core/mod.settings.js:93-96 | after a delete nothing in its scope is left, and every row outside it is kept in order |
| Settings.UnscopedDeleteReachesAllTenants | core/mod.settings.js:93-96 | outside MySQL, a delete removes the key for every tenant |
| Settings.SettingsStore.Get | core/mod.settings.js:19-54 | no match with a default stores the default, encoded as `set` encodes it, and returns it; no match without one returns null; one match returns its read value; several return an object by sub key |
| Settings.SettingsStore.Set | core/mod.settings.js:59-82 | the row under the resolved key is replaced by the value encoded as written (`Settings.EncodeAsWritten`), and the answer is true |
| Settings.SettingsStore.Delete | core/mod.settings.js:87-101 | the matching rows, scoped to the tenant only on MySQL, are removed, and the answer is true exactly when some row matched |

## Left out

- Account loading, module loading and the lazy reload (`load_account`, `load_modules`, exchanges/exchange.base.js:68-95 and 120) are network and registry plumbing, so they are not part of this model. The same goes for the shortname lookup at exchanges/exchange.base.js:122: the model takes the shortname as a constant, while the source reads it again on every call, and a throw from that read would land in the error envelope.
- The venue's `markets()` hook is not modelled. `execute`, `get_market_by_*` and `symbols` call it before their own work, and `balances` calls it after `execute('fetch_balance')`. The model assumes that the hook leaves the catalogue as `IndexMarkets` and `UpdateMarketsUsdPrice` would; nothing here checks that.
- When the binding implements a method, `execute` hands the call to that normaliser, and the model answers it with `respond`. The normaliser's own effects are not modelled: for example `balances()` writing `data.balances`, a nested `execute`, or `symbols()` sorting the list.
- `market`, `ticker`, `position`, `leverage`, `get_order_param_map` and `get_order_sizing` are thin wrappers, so they are not modelled.
- The metrics' timing, expiry of cache entries and concurrent duplicate misses are not modelled. Calls are sequential.
- md5 is taken as injective on the key's fields. A collision of the `|`-joined text is not modelled.
- Property reads see own properties only: keys inherited from `Object.prototype` are not modelled.
- Integer-like property keys are not moved to the front of an object's key order.
- Prices, averages and sums are `real`, so double rounding is not modelled.
- Exchange.ExchangeBase.GetMarketById: the `!= null` test on an index entry is modelled as key membership, because an index holds only markets.
- Orders.QueryOrdersSpec: filters are compared with strict equality. The loose `==` coercions of a non-string filter against a string field are not modelled.
- Balances.BalancesFromSpec: `results.result != 'error'` is tested with strict equality. A `result` that equals `'error'` only loosely, such as `['error']`, is not treated as an error envelope here.
- Orders.ShapeCreateResultSpec: `create_result.result == 'error'` is tested with strict equality, so a `result` that equals `'error'` only loosely, such as `['error']`, counts as success here.
- Balances.BalancesFromSpec: a fetched array or string has no currencies in the model. JavaScript would enumerate its indexes.
- Exchange.ExchangeBase.CreateOrder: a non-string `symbol` fails in the model. JavaScript would convert it to a property key. `extract_props` is modelled as reading the own properties.
- Exchange.ExchangeBase.CreateOrder: an order that is created is parsed with `parse_order`, which is a parameter.
- Orders.CancelAll: an array's own properties are not represented, so the `id = 'all'` assigned to array params does not appear in the bulk request.
- Orders.CancelAll: the source sets `id = 'all'` on the caller's own params object. The model builds a new request value, so the caller does not see its params change.
- Orders.MergeOrders: the comparator never answers "equal", so the engine fixes the order of equal timestamps. The model uses a stable insertion sort and proves only what does not depend on that choice: `SortDescKeepsSorted` and `MergeWithNothing` require timestamps that are all distinct.
- Markets.SortAsc: `LexLess` compares strings by code point. JavaScript's `>` compares UTF-16 code units, and the two orders differ only between characters above U+FFFF and those from U+E000 to U+FFFF.
- Balances.BalanceListSpec: `total != 0` is modelled by `Js.LooseZero` with exact decimal values. A nonzero decimal text that underflows to 0 in double precision, such as `'1e-400'`, counts as nonzero in the model. An object with its own `valueOf` or `toString` is not represented.
- Settings.GetAfterSet: the JSON codec is a parameter. That it round-trips the one payload concerned is a hypothesis, as it is for `EncodeRoundTrip`, `EncodeAsWrittenRoundTrip` and `BooleanRoundTrip`. `JSON.stringify` meets it for strings, booleans, finite numbers, null, and arrays and objects built from them. It does not meet it for values that hold undefined: `{a: undefined}` becomes `{}` and `[undefined]` becomes `[null]`.
- Settings.SettingsStore.Get: the main key is a string. A null main key makes the source throw at `indexOf`, in `set` and `delete` as well as in `get`, and the model of `Set` and `Delete` does not represent that throw either.
- Settings.SettingsStore.Get: the default is written at once, although the source does not await that write.
- Settings.SettingsStore.Set: the store keeps the encoding as written, so `{foo: 1}` and `[1]` are stored as the empty text. The corrected `Settings.Payload` and `Settings.Encode` are stated and proved beside it (see Findings), but the store does not use them.
- Settings.SettingsStore.Set: the database is taken to report a change for every insert-or-replace, so the answer is always true. Database errors are not modelled.
- The settings module's cache writes are not modelled: the read that would use them is commented out.
- The table is a sequence of rows in storage order, not a map, because the several-row answer depends on that order. An insert-or-replace puts the new row last.

## Findings

| source | as written | input that shows it | evidently intended | confidence | as-written member | corrected member |
|---|---|---|---|---|---|---|
| core/mod.settings.js:68-73 | a one-key object or array is replaced by its `.value` whenever that is not strictly null, and `.value` is undefined unless the key is `value`, so `JSON.stringify` yields undefined and `''` is stored | `set('accounts', 'x', {foo: 1})` or `set('accounts', 'x', [1])` stores `''` | only a `{value: x}` wrapper is unwrapped; any other value is stored as its JSON | not executed; high | Settings.SingleKeyValueLost | Settings.SingleKeyValueKept |
