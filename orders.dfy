/**
 * Orders as the exchange layer handles them once a venue has fetched and
 * parsed them: merging by timestamp, client-side filtering, parsing a raw
 * list, cancelling all, and shaping the answer to an order creation
 * (exchanges/exchange.base.js, merge_orders, parse_orders, orders,
 * cancel_all and create_order).
 */
module Orders {
  import opened Js
  import opened Seqs

  /** A normalised order, as the venue's `parse_order` produces it (the fields this layer reads). */
  datatype Order = Order(
    id: string,
    symbol: string,
    orderType: string,
    direction: string,
    status: string,
    timestamp: int)

  // ---------------------------------------------------------------------------
  // merge_orders

  /** Newest first: no order is preceded by an older one. */
  predicate SortedDesc(s: seq<Order>) {
    forall i, j :: 0 <= i < j < |s| ==> s[i].timestamp >= s[j].timestamp
  }

  /** Prefixing an order no older than any in a newest-first list keeps it newest first. */
  lemma SortedCons(h: Order, t: seq<Order>)
    requires SortedDesc(t)
    requires forall j :: 0 <= j < |t| ==> t[j].timestamp <= h.timestamp
    ensures SortedDesc([h] + t)
  {
    var s := [h] + t;
    forall i, j | 0 <= i < j < |s|
      ensures s[i].timestamp >= s[j].timestamp
    {
      assert s[j] == t[j - 1];
      if i > 0 {
        assert s[i] == t[i - 1];
      }
    }
  }

  /** A rearrangement of `s` plus `x` keeps a bound on timestamps that `s` and `x` respect. */
  lemma BoundedPermutation(r: seq<Order>, s: seq<Order>, x: Order, t: int)
    requires multiset(r) == multiset(s) + multiset{x}
    requires forall i :: 0 <= i < |s| ==> s[i].timestamp <= t
    requires x.timestamp <= t
    ensures forall i :: 0 <= i < |r| ==> r[i].timestamp <= t
  {
    forall i | 0 <= i < |r|
      ensures r[i].timestamp <= t
    {
      assert r[i] in multiset(r);
      if r[i] != x {
        assert r[i] in multiset(s);
      }
    }
  }

  /** Places `x` before the first order that is not newer than it. */
  function InsertDesc(x: Order, s: seq<Order>): (r: seq<Order>)
    ensures multiset(r) == multiset(s) + multiset{x}
  {
    if s == [] then [x]
    else if s[0].timestamp <= x.timestamp then [x] + s
    else
      assert s == [s[0]] + s[1..];
      [s[0]] + InsertDesc(x, s[1..])
  }

  lemma {:induction false} InsertDescSorted(x: Order, s: seq<Order>)
    requires SortedDesc(s)
    ensures SortedDesc(InsertDesc(x, s))
  {
    if s == [] {
    } else if s[0].timestamp <= x.timestamp {
      SortedCons(x, s);
    } else {
      var rest := InsertDesc(x, s[1..]);
      assert SortedDesc(s[1..]) by {
        assert forall k :: 0 <= k < |s[1..]| ==> s[1..][k] == s[k + 1];
      }
      InsertDescSorted(x, s[1..]);
      assert forall k :: 0 <= k < |s[1..]| ==> s[1..][k] == s[k + 1];
      BoundedPermutation(rest, s[1..], x, s[0].timestamp);
      SortedCons(s[0], rest);
    }
  }

  /** The sort with comparator `(a, b) => (a.timestamp < b.timestamp) ? 1 : -1`, newest first. */
  function SortDesc(s: seq<Order>): (r: seq<Order>)
    ensures SortedDesc(r)
    ensures multiset(r) == multiset(s)
  {
    if s == [] then []
    else
      assert s == [s[0]] + s[1..];
      InsertDescSorted(s[0], SortDesc(s[1..]));
      InsertDesc(s[0], SortDesc(s[1..]))
  }

  /** `is_array(orders) ? orders : []`: None stands for a value that is not an array. */
  function AsList(orders: Option<seq<Order>>): seq<Order> {
    if orders.Some? then orders.value else []
  }

  /** Both lists, anything that is not an array counting as empty, newest first. */
  function MergeOrders(orders1: Option<seq<Order>>, orders2: Option<seq<Order>>): (r: seq<Order>)
    ensures SortedDesc(r)
    ensures multiset(r) == multiset(AsList(orders1)) + multiset(AsList(orders2))
  {
    SortDesc(AsList(orders1) + AsList(orders2))
  }

  /**
   * Strictly newest first: no two orders share a timestamp, so the comparator
   * never meets a tie and the engine's sort has no choice to make.
   */
  predicate StrictlyDesc(s: seq<Order>) {
    forall i, j :: 0 <= i < j < |s| ==> s[i].timestamp > s[j].timestamp
  }

  /** A list that is already strictly newest first comes out of the sort exactly as it went in. */
  lemma {:induction false} SortDescKeepsSorted(s: seq<Order>)
    requires StrictlyDesc(s)
    ensures SortDesc(s) == s
  {
    if s != [] {
      var t := s[1..];
      assert StrictlyDesc(t) by {
        forall i, j | 0 <= i < j < |t|
          ensures t[i].timestamp > t[j].timestamp
        {
          assert t[i] == s[i + 1] && t[j] == s[j + 1];
        }
      }
      SortDescKeepsSorted(t);
      assert SortDesc(s) == InsertDesc(s[0], t);
      if t != [] {
        assert t[0] == s[1];
      }
      assert s == [s[0]] + t;
    }
  }

  /** Merging a strictly newest-first list with a non-array leaves it as it was. */
  lemma MergeWithNothing(orders: seq<Order>)
    requires StrictlyDesc(orders)
    ensures MergeOrders(Some(orders), None) == orders
  {
    assert orders + [] == orders;
    SortDescKeepsSorted(orders);
  }

  /** The timestamps of a list of orders, in list order. */
  function Stamps(s: seq<Order>): (r: seq<int>)
    ensures |r| == |s|
    ensures forall i :: 0 <= i < |s| ==> r[i] == s[i].timestamp
  {
    if s == [] then [] else [s[0].timestamp] + Stamps(s[1..])
  }

  predicate SortedDescInts(s: seq<int>) {
    forall i, j :: 0 <= i < j < |s| ==> s[i] >= s[j]
  }

  lemma SortedConsInts(h: int, t: seq<int>)
    requires SortedDescInts(t)
    requires forall j :: 0 <= j < |t| ==> t[j] <= h
    ensures SortedDescInts([h] + t)
  {
    var s := [h] + t;
    forall i, j | 0 <= i < j < |s|
      ensures s[i] >= s[j]
    {
      assert s[j] == t[j - 1];
      if i > 0 {
        assert s[i] == t[i - 1];
      }
    }
  }

  lemma BoundedPermutationInts(r: seq<int>, s: seq<int>, x: int, t: int)
    requires multiset(r) == multiset(s) + multiset{x}
    requires forall i :: 0 <= i < |s| ==> s[i] <= t
    requires x <= t
    ensures forall i :: 0 <= i < |r| ==> r[i] <= t
  {
    forall i | 0 <= i < |r|
      ensures r[i] <= t
    {
      assert r[i] in multiset(r);
      if r[i] != x {
        assert r[i] in multiset(s);
      }
    }
  }

  /** The reference sort of bare timestamps, inserting the same way. */
  function InsertInt(x: int, s: seq<int>): (r: seq<int>)
    ensures multiset(r) == multiset(s) + multiset{x}
  {
    if s == [] then [x]
    else if s[0] <= x then [x] + s
    else
      assert s == [s[0]] + s[1..];
      [s[0]] + InsertInt(x, s[1..])
  }

  lemma {:induction false} InsertIntSorted(x: int, s: seq<int>)
    requires SortedDescInts(s)
    ensures SortedDescInts(InsertInt(x, s))
  {
    if s == [] {
    } else if s[0] <= x {
      SortedConsInts(x, s);
    } else {
      var rest := InsertInt(x, s[1..]);
      assert SortedDescInts(s[1..]) by {
        assert forall k :: 0 <= k < |s[1..]| ==> s[1..][k] == s[k + 1];
      }
      InsertIntSorted(x, s[1..]);
      assert forall k :: 0 <= k < |s[1..]| ==> s[1..][k] == s[k + 1];
      BoundedPermutationInts(rest, s[1..], x, s[0]);
      SortedConsInts(s[0], rest);
    }
  }

  function SortInts(s: seq<int>): (r: seq<int>)
    ensures SortedDescInts(r)
    ensures multiset(r) == multiset(s)
  {
    if s == [] then []
    else
      assert s == [s[0]] + s[1..];
      InsertIntSorted(s[0], SortInts(s[1..]));
      InsertInt(s[0], SortInts(s[1..]))
  }

  lemma {:induction false} StampsInsert(x: Order, s: seq<Order>)
    ensures Stamps(InsertDesc(x, s)) == InsertInt(x.timestamp, Stamps(s))
  {
    if s != [] && s[0].timestamp > x.timestamp {
      StampsInsert(x, s[1..]);
      assert Stamps(s)[1..] == Stamps(s[1..]);
      assert Stamps([s[0]] + InsertDesc(x, s[1..])) == [s[0].timestamp] + Stamps(InsertDesc(x, s[1..]));
    }
  }

  lemma {:induction false} StampsSort(s: seq<Order>)
    ensures Stamps(SortDesc(s)) == SortInts(Stamps(s))
  {
    if s != [] {
      StampsSort(s[1..]);
      StampsInsert(s[0], SortDesc(s[1..]));
      assert Stamps(s)[1..] == Stamps(s[1..]);
    }
  }

  /** The head of a newest-first list is its largest timestamp. */
  lemma HeadIsMax(s: seq<int>, t: seq<int>)
    requires s != [] && t != []
    requires SortedDescInts(s) && SortedDescInts(t)
    requires multiset(s) == multiset(t)
    ensures s[0] == t[0]
  {
    assert s[0] in multiset(t) && t[0] in multiset(s);
    var k :| 0 <= k < |t| && t[k] == s[0];
    var l :| 0 <= l < |s| && s[l] == t[0];
    assert t[0] >= t[k];
    assert s[0] >= s[l];
  }

  lemma TailsAgree(s: seq<int>, t: seq<int>)
    requires s != [] && t != [] && s[0] == t[0]
    requires multiset(s) == multiset(t)
    ensures multiset(s[1..]) == multiset(t[1..])
  {
    assert s == [s[0]] + s[1..] && t == [t[0]] + t[1..];
    calc {
      multiset(s[1..]);
      multiset(s) - multiset{s[0]};
      multiset(t) - multiset{t[0]};
      multiset(t[1..]);
    }
  }

  /** Two newest-first timestamp lists holding the same timestamps are the same list. */
  lemma {:induction false} SortedIntsUnique(s: seq<int>, t: seq<int>)
    requires SortedDescInts(s) && SortedDescInts(t)
    requires multiset(s) == multiset(t)
    ensures s == t
  {
    if s != [] && t != [] {
      HeadIsMax(s, t);
      TailsAgree(s, t);
      SortedTailInts(s);
      SortedTailInts(t);
      SortedIntsUnique(s[1..], t[1..]);
      assert s == [s[0]] + s[1..] && t == [t[0]] + t[1..];
    }
  }

  lemma SortedTailInts(s: seq<int>)
    requires s != [] && SortedDescInts(s)
    ensures SortedDescInts(s[1..])
  {
    var t := s[1..];
    forall i, j | 0 <= i < j < |t|
      ensures t[i] >= t[j]
    {
      assert t[i] == s[i + 1] && t[j] == s[j + 1];
    }
  }

  /**
   * The comparator never answers "equal", so the order of equal timestamps is
   * left to the engine; what is fixed is the sequence of timestamps, which does
   * not depend on which list is passed first.
   */
  lemma MergeCommutesOnTimestamps(orders1: Option<seq<Order>>, orders2: Option<seq<Order>>)
    ensures Stamps(MergeOrders(orders1, orders2)) == Stamps(MergeOrders(orders2, orders1))
  {
    var a, b := AsList(orders1), AsList(orders2);
    StampsSort(a + b);
    StampsSort(b + a);
    StampsAppend(a, b);
    StampsAppend(b, a);
    var u, v := SortInts(Stamps(a + b)), SortInts(Stamps(b + a));
    assert multiset(u) == multiset(v) by {
      assert multiset(Stamps(a) + Stamps(b)) == multiset(Stamps(b) + Stamps(a));
    }
    SortedIntsUnique(u, v);
  }

  lemma StampsAppend(a: seq<Order>, b: seq<Order>)
    ensures Stamps(a + b) == Stamps(a) + Stamps(b)
  {
    var l, r := Stamps(a + b), Stamps(a) + Stamps(b);
    assert |l| == |r|;
    forall i | 0 <= i < |l|
      ensures l[i] == r[i]
    {
      if i < |a| {
        assert (a + b)[i] == a[i];
      } else {
        assert (a + b)[i] == b[i - |a|];
      }
    }
  }

  // ---------------------------------------------------------------------------
  // parse_orders

  /** `raworders.forEach(r => orders.push(parse_order(r)))`: None when the value has no forEach. */
  method ParseOrders(parseOrder: Value -> Order, raw: Value) returns (r: Option<seq<Order>>)
    ensures r.None? <==> !raw.Arr?
    ensures r.Some? ==>
      |r.value| == |raw.items| && forall i :: 0 <= i < |raw.items| ==> r.value[i] == parseOrder(raw.items[i])
  {
    if !raw.Arr? {
      return None;
    }
    var orders: seq<Order> := [];
    var i := 0;
    while i < |raw.items|
      invariant 0 <= i <= |raw.items|
      invariant |orders| == i
      invariant forall k :: 0 <= k < i ==> orders[k] == parseOrder(raw.items[k])
    {
      orders := orders + [parseOrder(raw.items[i])];
      i := i + 1;
    }
    return Some(orders);
  }

  // ---------------------------------------------------------------------------
  // orders

  /** `filter == null || field == filter`, for filters that are strings or absent. */
  predicate Matches(filter: Value, field: string) {
    Nullish(filter) || filter == Str(field)
  }

  function StatusIs(filter: Value): Order -> bool { (o: Order) => Matches(filter, o.status) }
  function TypeIs(filter: Value): Order -> bool { (o: Order) => Matches(filter, o.orderType) }
  function DirectionIs(filter: Value): Order -> bool { (o: Order) => Matches(filter, o.direction) }

  /** Missing params become `{id: 'all'}`. */
  function EffectiveParams(params: Value): Value {
    if Nullish(params) then Obj([("id", Str("all"))]) else params
  }

  /** The list the venue is asked for: its open orders for `status == 'open'`, else all orders. */
  function OrderSource(openOrders: Value -> seq<Order>, allOrders: Value -> seq<Order>, params: Value): seq<Order> {
    var q := EffectiveParams(params);
    if Member(q, "status") == Str("open") then openOrders(q) else allOrders(q)
  }

  /** An order passes every filter that is supplied. */
  predicate Selected(o: Order, params: Value) {
    var q := EffectiveParams(params);
    Matches(Member(q, "status"), o.status)
    && Matches(Member(q, "type"), o.orderType)
    && Matches(Member(q, "direction"), o.direction)
  }

  function QueryOrders(openOrders: Value -> seq<Order>, allOrders: Value -> seq<Order>, params: Value): seq<Order> {
    var q := EffectiveParams(params);
    var source := OrderSource(openOrders, allOrders, params);
    Filter(Filter(Filter(source, StatusIs(Member(q, "status"))), TypeIs(Member(q, "type"))), DirectionIs(Member(q, "direction")))
  }

  /** Three successive filters keep exactly what their conjunction keeps. */
  lemma FilterThree(source: seq<Order>, p1: Order -> bool, p2: Order -> bool, p3: Order -> bool)
    ensures var r := Filter(Filter(Filter(source, p1), p2), p3);
      && IsSubsequence(r, source)
      && forall o :: o in r <==> o in source && p1(o) && p2(o) && p3(o)
  {
    var all := Both(Both(p1, p2), p3);
    FilterFusion(source, p1, p2);
    FilterFusion(source, Both(p1, p2), p3);
    var r := Filter(source, all);
    assert Filter(Filter(Filter(source, p1), p2), p3) == r;
    FilterIsSubsequence(source, all);
    forall o
      ensures o in r <==> o in source && p1(o) && p2(o) && p3(o)
    {
      assert all(o) == (p1(o) && p2(o) && p3(o));
      if o in source && all(o) {
        FilterKeeps(source, all, o);
      }
    }
  }

  /**
   * The answer keeps the venue's order, holds only orders passing every
   * supplied filter, and drops none that passes them.
   */
  lemma QueryOrdersSpec(openOrders: Value -> seq<Order>, allOrders: Value -> seq<Order>, params: Value)
    ensures var r := QueryOrders(openOrders, allOrders, params);
      var source := OrderSource(openOrders, allOrders, params);
      && IsSubsequence(r, source)
      && forall o :: o in r <==> o in source && Selected(o, params)
  {
    var q := EffectiveParams(params);
    var source := OrderSource(openOrders, allOrders, params);
    var p1, p2, p3 := StatusIs(Member(q, "status")), TypeIs(Member(q, "type")), DirectionIs(Member(q, "direction"));
    FilterThree(source, p1, p2, p3);
    assert forall o :: Selected(o, params) == (p1(o) && p2(o) && p3(o));
  }

  // ---------------------------------------------------------------------------
  // cancel_all

  datatype CancelResult =
    | PerOrder(responses: seq<Value>)   // one response per open order
    | Bulk(response: Value)             // the venue's answer to a single cancel-all request

  /** `{symbol: params.symbol, id: order.id}`. */
  function CancelRequest(params: Value, o: Order): Value {
    Obj([("symbol", Member(params, "symbol")), ("id", Str(o.id))])
  }

  /** `Array.isArray(response) ? response[0] : response`. */
  function Unwrap(response: Value): Value {
    if response.Arr? then (if response.items == [] then Undefined else response.items[0]) else response
  }

  /**
   * With `params.type` defined (null counts as defined), one cancel request per
   * open order and one unwrapped response per request; otherwise a single
   * request, `params` with `id` set to 'all'. `sent` lists the requests in the
   * order they are issued. Reading or assigning a property of null or undefined,
   * or assigning one on a primitive, throws: None.
   */
  method CancelAll(openOrders: Value -> seq<Order>, cancel: Value -> Value, params: Value)
    returns (r: Option<CancelResult>, sent: seq<Value>)
    ensures Nullish(params) ==> r.None? && sent == []
    ensures !Nullish(params) && Member(params, "type") != Undefined ==>
      var open := openOrders(params);
      && r.Some? && r.value.PerOrder?
      && |sent| == |open| == |r.value.responses|
      && forall i :: 0 <= i < |open| ==>
           sent[i] == CancelRequest(params, open[i]) && r.value.responses[i] == Unwrap(cancel(sent[i]))
    ensures params.Obj? && Member(params, "type") == Undefined ==>
      && |sent| == 1 && sent[0].Obj?
      && Lookup(sent[0].props, "id") == Some(Str("all"))
      && (forall k :: k != "id" ==> Lookup(sent[0].props, k) == Lookup(params.props, k))
      && r == Some(Bulk(cancel(sent[0])))
    ensures params.Arr? && Member(params, "type") == Undefined ==> sent == [params] && r == Some(Bulk(cancel(params)))
    ensures (params.Bool? || params.Num? || params.Str?) && Member(params, "type") == Undefined ==> r.None? && sent == []
  {
    if Nullish(params) {
      return None, [];
    }
    if Member(params, "type") != Undefined {
      var open := openOrders(params);
      var results: seq<Value> := [];
      sent := [];
      var i := 0;
      while i < |open|
        invariant 0 <= i <= |open|
        invariant |sent| == i && |results| == i
        invariant forall k :: 0 <= k < i ==> sent[k] == CancelRequest(params, open[k])
        invariant forall k :: 0 <= k < i ==> results[k] == Unwrap(cancel(sent[k]))
      {
        var request := CancelRequest(params, open[i]);
        var response := cancel(request);
        results := results + [Unwrap(response)];
        sent := sent + [request];
        i := i + 1;
      }
      return Some(PerOrder(results)), sent;
    }
    if params.Obj? {
      var request := Obj(Put(params.props, "id", Str("all")));
      return Some(Bulk(cancel(request))), [request];
    } else if params.Arr? {
      return Some(Bulk(cancel(params))), [params];
    }
    return None, [];
  }

  // ---------------------------------------------------------------------------
  // create_order

  /** What create_order answers: the parsed order, or the venue's error type and message. */
  datatype CreateResult =
    | Created(params: Value, order: Order)
    | Rejected(params: Value, errorType: Value, message: Value)

  /** `message.replace('ftx', '').replace('deribit', '')`: the first of each goes. */
  function TrimVenues(message: string): string {
    ReplaceFirst(ReplaceFirst(message, "ftx", ""), "deribit", "")
  }

  /**
   * Shapes the result of the `create_order` call. None where the source throws
   * a TypeError: the result is null or undefined, an error carries no `data`, its
   * message is not a string, or the trimmed JSON parses to null.
   */
  function ShapeCreateResult(json: JsonCodec, parseOrder: Value -> Order, params: Value, created: Value): Option<CreateResult>
  {
    if Nullish(created) then None
    else if Member(created, "result") != Str("error") then Some(Created(params, parseOrder(created)))
    else
      var data := Member(created, "data");
      if Nullish(data) || !Member(data, "message").Str? then None
      else
        var message := Member(data, "message").str;
        var trimmed := TrimVenues(message);
        if json.isJson(trimmed) then
          var parsed := json.parse(trimmed);
          if Nullish(parsed) then None else Some(Rejected(params, Member(data, "name"), Member(parsed, "error")))
        else
          Some(Rejected(params, Member(data, "name"), Str(message)))
  }

  /** A leading venue name is stripped; a later occurrence of it stays in the message. */
  lemma TrimLeadingVenue(rest: string)
    requires 'd' !in rest
    ensures TrimVenues("ftx" + rest) == rest
  {
    assert "ftx" + rest == "" + "ftx" + rest;
    ReplaceAt("", "ftx", rest, "");
    assert "" + "" + rest == rest;
    forall j | 0 <= j <= |rest|
      ensures !OccursAt(rest, "deribit", j)
    {
      if j + 7 <= |rest| {
        assert rest[j..j + 7][0] == rest[j];
        assert rest[j] != 'd';
      }
    }
    ReplaceAbsent(rest, "deribit", "");
  }

  /**
   * A rejected order reports the error's name as its type. The message is the
   * `error` field of the trimmed text when that text is JSON, and otherwise the
   * venue's message as it came, before trimming.
   */
  lemma ShapeCreateResultSpec(json: JsonCodec, parseOrder: Value -> Order, params: Value, created: Value)
    ensures var r := ShapeCreateResult(json, parseOrder, params, created);
      && (!Nullish(created) && Member(created, "result") != Str("error") ==> r == Some(Created(params, parseOrder(created))))
      && (r.Some? && r.value.Rejected? ==>
            var data := Member(created, "data");
            && Member(created, "result") == Str("error")
            && r.value.params == params
            && r.value.errorType == Member(data, "name")
            && Member(data, "message").Str?
            && (json.isJson(TrimVenues(Member(data, "message").str)) ==>
                  r.value.message == Member(json.parse(TrimVenues(Member(data, "message").str)), "error"))
            && (!json.isJson(TrimVenues(Member(data, "message").str)) ==> r.value.message == Member(data, "message")))
      && ((&& Member(created, "result") == Str("error")
           && !Nullish(Member(created, "data"))
           && Member(Member(created, "data"), "message").Str?
           && !json.isJson(TrimVenues(Member(Member(created, "data"), "message").str)))
          ==> r.Some? && r.value.Rejected?)
  {
  }

  /** The error envelope a venue rejection arrives in. */
  function ErrorEnvelope(name: string, message: string): Value {
    Obj([("result", Str("error")), ("data", Obj([("name", Str(name)), ("message", Str(message))]))])
  }

  /** An error envelope whose trimmed message is JSON is reported with that JSON's `error` field. */
  lemma RejectedEnvelope(json: JsonCodec, parseOrder: Value -> Order, params: Value, name: string, message: string)
    requires json.isJson(TrimVenues(message)) && !Nullish(json.parse(TrimVenues(message)))
    ensures ShapeCreateResult(json, parseOrder, params, ErrorEnvelope(name, message))
      == Some(Rejected(params, Str(name), Member(json.parse(TrimVenues(message)), "error")))
  {
    LookupFirst(ErrorEnvelope(name, message).props, "data", 1);
    LookupFirst([("name", Str(name)), ("message", Str(message))], "message", 1);
  }

  /** A venue error "ftx" + JSON text is reported with the JSON's `error` field as its message. */
  lemma RejectedWithJsonMessage(json: JsonCodec, parseOrder: Value -> Order, params: Value, name: string, text: string, reason: string)
    requires 'd' !in text
    requires json.isJson(text) && json.parse(text) == Obj([("error", Str(reason))])
    ensures ShapeCreateResult(json, parseOrder, params, ErrorEnvelope(name, "ftx" + text))
      == Some(Rejected(params, Str(name), Str(reason)))
  {
    TrimLeadingVenue(text);
    RejectedEnvelope(json, parseOrder, params, name, "ftx" + text);
    assert Member(Obj([("error", Str(reason))]), "error") == Str(reason);
  }
}
