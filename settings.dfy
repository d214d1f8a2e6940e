/**
 * The settings store (core/mod.settings.js): values kept in a `settings`
 * table under a tenant uuid, a main key and an optional sub key, stored as
 * JSON text and read back with booleans recovered from their text forms.
 *
 * The table is a sequence of rows in storage order; `select`, `delete` and
 * `insertOrReplace` are modelled as filtering and replacing rows by key. The
 * request's tenant (`context.get('uuid')`) is a parameter.
 */
module Settings {
  import opened Js
  import opened Seqs

  /** The tenant every global setting lives under. */
  const ZeroUuid: string := "00000000-0000-0000-0000-000000000000"

  /** Namespaces shared by all tenants. */
  const GlobalKeys: seq<string> := ["core", "whitelist", "signalprovider", "symbolmap"]

  // ---------------------------------------------------------------------------
  // Tenant resolution

  lemma NoColonBefore(s: string, i: nat)
    requires i <= |s|
    requires forall j :: 0 <= j < i ==> !OccursAt(s, ":", j)
    ensures forall j :: 0 <= j < i ==> s[j] != ':'
  {
    forall j | 0 <= j < i
      ensures s[j] != ':'
    {
      assert !OccursAt(s, ":", j);
      assert s[j..j + 1] == [s[j]];
    }
  }

  /** The namespace of a main key: the part before its first `:`, or all of it. */
  function Namespace(mainkey: string): (r: string)
    ensures r <= mainkey
    ensures ':' !in r
    ensures |r| == |mainkey| || mainkey[|r|] == ':'
  {
    match IndexOf(mainkey, ":")
    case None =>
      NoColonBefore(mainkey, |mainkey|);
      mainkey
    case Some(i) =>
      NoColonBefore(mainkey, i);
      assert mainkey[i..i + 1] == ":";
      mainkey[..i]
  }

  /** A key without a colon is its own namespace. */
  lemma NamespaceOfPlain(mainkey: string)
    requires ':' !in mainkey
    ensures Namespace(mainkey) == mainkey
  {
  }

  /** A key `ns:rest` lives in namespace `ns`, whatever `rest` holds. */
  lemma NamespaceOfQualified(ns: string, rest: string)
    requires ':' !in ns
    ensures Namespace(ns + ":" + rest) == ns
  {
    var k := ns + ":" + rest;
    assert k[|ns|] == ':';
    assert k[..|ns|] == ns;
  }

  /** The uuid a key is stored under: the zero uuid for global namespaces or when the request has no tenant. */
  function ResolveUuid(mainkey: string, context: Option<string>): (r: string)
    ensures r == ZeroUuid || (context.Some? && r == context.value)
  {
    if Namespace(mainkey) in GlobalKeys then ZeroUuid
    else context.GetOr(ZeroUuid)
  }

  /** Keys in a global namespace resolve alike whichever tenant asks. */
  lemma GlobalKeysShared(mainkey: string, c1: Option<string>, c2: Option<string>)
    requires Namespace(mainkey) in GlobalKeys
    ensures ResolveUuid(mainkey, c1) == ResolveUuid(mainkey, c2) == ZeroUuid
  {
  }

  /** Any other key resolves to the asking tenant's own uuid, so two tenants never share it. */
  lemma TenantsSeparated(mainkey: string, t1: string, t2: string)
    requires Namespace(mainkey) !in GlobalKeys
    ensures ResolveUuid(mainkey, Some(t1)) == t1
    ensures t1 != t2 ==> ResolveUuid(mainkey, Some(t1)) != ResolveUuid(mainkey, Some(t2))
  {
  }

  /** Every `core:…` key is global, whichever tenant asks. */
  lemma CoreKeysGlobal(rest: string, t: string)
    ensures ResolveUuid("core:" + rest, Some(t)) == ZeroUuid
  {
    assert "core:" + rest == "core" + ":" + rest;
    NamespaceOfQualified("core", rest);
  }

  // ---------------------------------------------------------------------------
  // Encoding and decoding

  /**
   * The value `set` stringifies, as written: an object-like value with exactly
   * one key and a `.value` that is not strictly null is replaced by its `.value`,
   * which is undefined unless that one key is `value`.
   */
  function PayloadAsWritten(v: Value): (r: Value)
    ensures r == v || v == Obj([("value", r)]) || (r == Undefined && IsObjectLike(v) && KeyCount(v) == 1)
  {
    if !Nullish(v) && IsObjectLike(v) && Member(v, "value") != Null && KeyCount(v) == 1 then
      assert v.Obj? ==> v.props == [v.props[0]];
      Member(v, "value")
    else v
  }

  /** The stored text as written: `JSON.stringify(payload)`, and `''` where that is undefined. */
  function EncodeAsWritten(json: JsonCodec, v: Value): string {
    json.stringify(PayloadAsWritten(v)).GetOr("")
  }

  /**
   * The written unwrapping differs from the corrected one exactly on one-key
   * objects whose key is not `value` and on one-element arrays, and there it
   * stringifies undefined.
   */
  lemma AsWrittenDiffers(v: Value)
    ensures PayloadAsWritten(v) != Payload(v) <==>
      (v.Obj? && |v.props| == 1 && v.props[0].0 != "value") || (v.Arr? && |v.items| == 1)
    ensures PayloadAsWritten(v) != Payload(v) ==> PayloadAsWritten(v) == Undefined
  {
    if v.Obj? && |v.props| == 1 && v.props[0].0 == "value" {
      assert Lookup(v.props, "value") == Some(v.props[0].1);
    }
  }

  /** Storing `{foo: 1}` or `[1]` as written stores the empty text. */
  lemma SingleKeyValueLost(json: JsonCodec)
    requires json.stringify(Undefined).None?
    ensures EncodeAsWritten(json, Obj([("foo", Num(1.0))])) == ""
    ensures EncodeAsWritten(json, Arr([Num(1.0)])) == ""
  {
    AsWrittenDiffers(Obj([("foo", Num(1.0))]));
    AsWrittenDiffers(Arr([Num(1.0)]));
  }

  /** The value `set` stringifies: a `{value: x}` wrapper with `x` not null is unwrapped, anything else kept. */
  function Payload(v: Value): (r: Value)
    ensures r == v || (v == Obj([("value", r)]) && r != Null)
  {
    if v.Obj? && |v.props| == 1 && v.props[0].0 == "value" && v.props[0].1 != Null then v.props[0].1
    else v
  }

  /** The text `set` stores. */
  function Encode(json: JsonCodec, v: Value): string {
    json.stringify(Payload(v)).GetOr("")
  }

  /** `is_json(text) ? JSON.parse(text) : text`. */
  function Decode(json: JsonCodec, text: string): Value {
    if json.isJson(text) then json.parse(text) else Str(text)
  }

  const TrueTexts: seq<string> := ["true", "\"true\""]
  const FalseTexts: seq<string> := ["false", "\"false\""]

  /** `s.replace(/"/g, "")`: every double quote removed. */
  function StripQuotes(s: string): string {
    if s == [] then [] else (if s[0] == '"' then [] else [s[0]]) + StripQuotes(s[1..])
  }

  lemma StripQuotesTexts()
    ensures StripQuotes("true") == "true"
    ensures StripQuotes("\"true\"") == "true"
    ensures StripQuotes("false") != "true"
    ensures StripQuotes("\"false\"") != "true"
  {
    assert StripQuotes("") == "";
    assert StripQuotes("e") == "e";
    assert StripQuotes("\"") == "";
    assert StripQuotes("e\"") == "e";
    assert StripQuotes("ue\"") == "ue";
    assert StripQuotes("rue\"") == "rue";
    assert StripQuotes("true\"") == "true";
    assert StripQuotes("ue") == "ue";
    assert StripQuotes("rue") == "rue";
    assert StripQuotes("alse")[0] == 'a';
    assert StripQuotes("alse\"")[0] == 'a';
    assert StripQuotes("false")[1] == 'a';
    assert StripQuotes("false\"")[1] == 'a';
  }

  /** The four texts `get` coerces are the true ones and the false ones. */
  lemma CoercedTexts(t: string)
    ensures t in ["true", "false", "\"true\"", "\"false\""] <==> t in TrueTexts || t in FalseTexts
  {
  }

  /** Stripping quotes turns the true texts into `true`... */
  lemma StrippedTrue(t: string)
    ensures t in TrueTexts ==> StripQuotes(t) == "true"
  {
    StripQuotesTexts();
  }

  /** ...and the false texts into something else. */
  lemma StrippedFalse(t: string)
    ensures t in FalseTexts ==> StripQuotes(t) != "true"
  {
    StripQuotesTexts();
  }

  /**
   * The boolean recovery `get` applies: one of the four texts becomes the
   * boolean its quote-stripped form names; every other value is kept.
   */
  function Coerce(v: Value): (r: Value)
    ensures v.Str? && v.str in TrueTexts ==> r == Bool(true)
    ensures v.Str? && v.str in FalseTexts ==> r == Bool(false)
    ensures !(v.Str? && (v.str in TrueTexts || v.str in FalseTexts)) ==> r == v
  {
    if v.Str? && v.str in ["true", "false", "\"true\"", "\"false\""] then
      CoercedTexts(v.str);
      StrippedTrue(v.str);
      StrippedFalse(v.str);
      Bool(StripQuotes(v.str) == "true")
    else if v.Str? then
      CoercedTexts(v.str);
      v
    else v
  }

  /** What `get` returns for one stored text. */
  function Read(json: JsonCodec, text: string): Value {
    Coerce(Decode(json, text))
  }

  /**
   * With a codec whose output parses back, a value set is read back as its
   * payload, up to the boolean recovery.
   */
  lemma EncodeRoundTrip(json: JsonCodec, v: Value)
    requires RoundTrips(json, Payload(v))
    ensures Read(json, Encode(json, v)) == Coerce(Payload(v))
  {
  }

  /**
   * As written, a value set is read back as what was stringified, up to the
   * boolean recovery, whenever the codec round-trips that.
   */
  lemma EncodeAsWrittenRoundTrip(json: JsonCodec, v: Value)
    requires RoundTrips(json, PayloadAsWritten(v))
    ensures Read(json, EncodeAsWritten(json, v)) == Coerce(PayloadAsWritten(v))
  {
  }

  /** Booleans survive a round trip, and so does the text of one: `"true"` comes back as `true`. */
  lemma BooleanRoundTrip(json: JsonCodec, b: bool)
    requires RoundTrips(json, Bool(b)) && RoundTrips(json, Str("true"))
    ensures Read(json, EncodeAsWritten(json, Bool(b))) == Bool(b)
    ensures Read(json, EncodeAsWritten(json, Str("true"))) == Bool(true)
  {
    EncodeAsWrittenRoundTrip(json, Bool(b));
    EncodeAsWrittenRoundTrip(json, Str("true"));
  }

  /** The corrected unwrapping keeps a one-key object that is not a wrapper. */
  lemma SingleKeyValueKept(json: JsonCodec)
    requires RoundTrips(json, Obj([("foo", Num(1.0))]))
    ensures Read(json, Encode(json, Obj([("foo", Num(1.0))]))) == Obj([("foo", Num(1.0))])
  {
    EncodeRoundTrip(json, Obj([("foo", Num(1.0))]));
  }

  // ---------------------------------------------------------------------------
  // The settings table

  datatype Row = Row(uuid: string, mainkey: string, subkey: Option<string>, value: string)

  /** The query `{uuid, mainkey, subkey}`, where a missing uuid or sub key does not constrain. */
  predicate RowMatches(row: Row, uuid: Option<string>, mainkey: string, subkey: Option<string>) {
    && (uuid.None? || row.uuid == uuid.value)
    && row.mainkey == mainkey
    && (subkey.None? || row.subkey == subkey)
  }

  function Select(rows: seq<Row>, uuid: Option<string>, mainkey: string, subkey: Option<string>): seq<Row> {
    Filter(rows, (row: Row) => RowMatches(row, uuid, mainkey, subkey))
  }

  /** Selection keeps storage order and returns exactly the matching rows. */
  lemma SelectSpec(rows: seq<Row>, uuid: Option<string>, mainkey: string, subkey: Option<string>)
    ensures IsSubsequence(Select(rows, uuid, mainkey, subkey), rows)
    ensures forall row :: row in Select(rows, uuid, mainkey, subkey) <==> row in rows && RowMatches(row, uuid, mainkey, subkey)
  {
    var p := (row: Row) => RowMatches(row, uuid, mainkey, subkey);
    FilterIsSubsequence(rows, p);
    forall row | row in rows && RowMatches(row, uuid, mainkey, subkey)
      ensures row in Select(rows, uuid, mainkey, subkey)
    {
      FilterKeeps(rows, p, row);
    }
  }

  predicate SameKey(a: Row, b: Row) {
    a.uuid == b.uuid && a.mainkey == b.mainkey && a.subkey == b.subkey
  }

  /** `insertOrReplace`: any row with the same key is dropped and the new row goes last. */
  function Upsert(rows: seq<Row>, row: Row): (r: seq<Row>)
    ensures |r| >= 1 && r[|r| - 1] == row
    ensures forall x :: x in r[..|r| - 1] <==> x in rows && !SameKey(x, row)
  {
    var kept := Filter(rows, (x: Row) => !SameKey(x, row));
    assert (kept + [row])[..|kept|] == kept;
    forall x | x in rows && !SameKey(x, row)
      ensures x in kept
    {
      FilterKeeps(rows, (x: Row) => !SameKey(x, row), x);
    }
    kept + [row]
  }

  /** After a write under a sub key, selecting that exact key finds the written row alone. */
  lemma SelectAfterUpsert(rows: seq<Row>, row: Row)
    requires row.subkey.Some?
    ensures Select(Upsert(rows, row), Some(row.uuid), row.mainkey, row.subkey) == [row]
  {
    var notSame := (x: Row) => !SameKey(x, row);
    var matches := (x: Row) => RowMatches(x, Some(row.uuid), row.mainkey, row.subkey);
    var kept := Filter(rows, notSame);
    FilterAppend(kept, [row], matches);
    FilterFusion(rows, notSame, matches);
    FilterNone(rows, Both(notSame, matches));
    assert [row][1..] == [];
  }

  /** A write by one tenant leaves every selection of another tenant as it was. */
  lemma {:induction false} UpsertIsolated(rows: seq<Row>, row: Row, uuid: string, mainkey: string, subkey: Option<string>)
    requires uuid != row.uuid
    ensures Select(Upsert(rows, row), Some(uuid), mainkey, subkey) == Select(rows, Some(uuid), mainkey, subkey)
  {
    var notSame := (x: Row) => !SameKey(x, row);
    var matches := (x: Row) => RowMatches(x, Some(uuid), mainkey, subkey);
    var kept := Filter(rows, notSame);
    FilterAppend(kept, [row], matches);
    FilterFusion(rows, notSame, matches);
    FilterExtensional(rows, Both(notSame, matches), matches);
    assert [row][1..] == [];
  }

  /** `obj[null]` uses the key `"null"`. */
  function SubkeyName(subkey: Option<string>): string {
    if subkey.Some? then subkey.value else "null"
  }

  /** The object `get` builds from several rows: `obj[row.subkey] = value`, row by row. */
  function Collect(json: JsonCodec, rows: seq<Row>): seq<(string, Value)> {
    if rows == [] then []
    else
      var n := |rows| - 1;
      Put(Collect(json, rows[..n]), SubkeyName(rows[n].subkey), Read(json, rows[n].value))
  }

  ghost predicate IsLastNamed(rows: seq<Row>, k: string, i: int) {
    0 <= i < |rows| && SubkeyName(rows[i].subkey) == k && forall j :: i < j < |rows| ==> SubkeyName(rows[j].subkey) != k
  }

  /** The value of the last row whose sub key is named `k`. */
  function LastNamed(json: JsonCodec, rows: seq<Row>, k: string): Option<Value> {
    if rows == [] then None
    else if SubkeyName(rows[|rows| - 1].subkey) == k then Some(Read(json, rows[|rows| - 1].value))
    else LastNamed(json, rows[..|rows| - 1], k)
  }

  lemma {:induction false} CollectLookup(json: JsonCodec, rows: seq<Row>, k: string)
    ensures Lookup(Collect(json, rows), k) == LastNamed(json, rows, k)
  {
    if rows != [] {
      CollectLookup(json, rows[..|rows| - 1], k);
    }
  }

  lemma {:induction false} LastNamedFound(json: JsonCodec, rows: seq<Row>, k: string)
    ensures LastNamed(json, rows, k).Some? <==> exists i :: 0 <= i < |rows| && SubkeyName(rows[i].subkey) == k
  {
    if rows != [] {
      var n := |rows| - 1;
      var front := rows[..n];
      LastNamedFound(json, front, k);
      if SubkeyName(rows[n].subkey) == k {
        assert LastNamed(json, rows, k).Some?;
      } else if LastNamed(json, front, k).Some? {
        assert LastNamed(json, rows, k) == LastNamed(json, front, k);
        var i :| 0 <= i < |front| && SubkeyName(front[i].subkey) == k;
        assert rows[i] == front[i];
      } else {
        assert LastNamed(json, rows, k).None?;
        forall i | 0 <= i < |rows|
          ensures SubkeyName(rows[i].subkey) != k
        {
          if i < n {
            assert rows[i] == front[i];
          }
        }
      }
    }
  }

  lemma {:induction false} LastNamedAt(json: JsonCodec, rows: seq<Row>, k: string)
    requires LastNamed(json, rows, k).Some?
    ensures exists i :: IsLastNamed(rows, k, i) && LastNamed(json, rows, k) == Some(Read(json, rows[i].value))
  {
    var n := |rows| - 1;
    var front := rows[..n];
    if SubkeyName(rows[n].subkey) == k {
      assert IsLastNamed(rows, k, n);
    } else {
      LastNamedAt(json, front, k);
      var i :| IsLastNamed(front, k, i) && LastNamed(json, front, k) == Some(Read(json, front[i].value));
      assert rows[i] == front[i];
      forall j | i < j < |rows|
        ensures SubkeyName(rows[j].subkey) != k
      {
        if j < n {
          assert rows[j] == front[j];
        }
      }
      assert IsLastNamed(rows, k, i);
    }
  }

  lemma LastNamedSpec(json: JsonCodec, rows: seq<Row>, k: string)
    ensures LastNamed(json, rows, k).Some? <==> exists i :: 0 <= i < |rows| && SubkeyName(rows[i].subkey) == k
    ensures LastNamed(json, rows, k).Some? ==>
      exists i :: IsLastNamed(rows, k, i) && LastNamed(json, rows, k) == Some(Read(json, rows[i].value))
  {
    LastNamedFound(json, rows, k);
    if LastNamed(json, rows, k).Some? {
      LastNamedAt(json, rows, k);
    }
  }

  /** Every sub key of the rows is a property, holding the value of the last row under it. */
  lemma CollectLastWins(json: JsonCodec, rows: seq<Row>, k: string)
    ensures Lookup(Collect(json, rows), k).Some? <==> exists i :: 0 <= i < |rows| && SubkeyName(rows[i].subkey) == k
    ensures Lookup(Collect(json, rows), k).Some? ==>
      exists i :: IsLastNamed(rows, k, i) && Lookup(Collect(json, rows), k) == Some(Read(json, rows[i].value))
  {
    CollectLookup(json, rows, k);
    LastNamedSpec(json, rows, k);
  }

  /** What `get` answers for a non-empty selection: the one value, or an object of them by sub key. */
  function Answer(json: JsonCodec, selected: seq<Row>): Value
    requires selected != []
  {
    if |selected| == 1 then Read(json, selected[0].value) else Obj(Collect(json, selected))
  }

  /**
   * A value set under a sub key is what a later `get` of that key by the same
   * tenant answers: the stringified payload, up to the boolean recovery.
   */
  lemma GetAfterSet(json: JsonCodec, rows: seq<Row>, mainkey: string, subkey: Option<string>, v: Value, context: Option<string>)
    requires subkey.Some?
    requires RoundTrips(json, PayloadAsWritten(v))
    ensures var uuid := ResolveUuid(mainkey, context);
      var after := Upsert(rows, Row(uuid, mainkey, subkey, EncodeAsWritten(json, v)));
      Select(after, Some(uuid), mainkey, subkey) != []
      && Answer(json, Select(after, Some(uuid), mainkey, subkey)) == Coerce(PayloadAsWritten(v))
  {
    var uuid := ResolveUuid(mainkey, context);
    SelectAfterUpsert(rows, Row(uuid, mainkey, subkey, EncodeAsWritten(json, v)));
    EncodeAsWrittenRoundTrip(json, v);
  }

  /**
   * Where the written unwrapping loses the value (a one-key object not keyed
   * `value`, a one-element array), a later `get` answers the empty text.
   */
  lemma GetAfterSetLost(json: JsonCodec, rows: seq<Row>, mainkey: string, subkey: Option<string>, v: Value, context: Option<string>)
    requires subkey.Some?
    requires (v.Obj? && |v.props| == 1 && v.props[0].0 != "value") || (v.Arr? && |v.items| == 1)
    requires json.stringify(Undefined).None? && !json.isJson("")
    ensures var uuid := ResolveUuid(mainkey, context);
      var after := Upsert(rows, Row(uuid, mainkey, subkey, EncodeAsWritten(json, v)));
      Select(after, Some(uuid), mainkey, subkey) != []
      && Answer(json, Select(after, Some(uuid), mainkey, subkey)) == Str("")
  {
    var uuid := ResolveUuid(mainkey, context);
    SelectAfterUpsert(rows, Row(uuid, mainkey, subkey, EncodeAsWritten(json, v)));
    AsWrittenDiffers(v);
  }

  /** The rows `delete` removes: scoped to the tenant on MySQL only. */
  function DeleteScope(isMysql: bool, uuid: string): Option<string> {
    if isMysql then Some(uuid) else None
  }

  function DeleteRows(rows: seq<Row>, uuid: Option<string>, mainkey: string, subkey: Option<string>): seq<Row> {
    Filter(rows, (row: Row) => !RowMatches(row, uuid, mainkey, subkey))
  }

  /**
   * After a delete nothing in its scope is left, and every row outside the
   * scope is kept in order.
   */
  lemma DeleteSpec(rows: seq<Row>, uuid: Option<string>, mainkey: string, subkey: Option<string>)
    ensures Select(DeleteRows(rows, uuid, mainkey, subkey), uuid, mainkey, subkey) == []
    ensures IsSubsequence(DeleteRows(rows, uuid, mainkey, subkey), rows)
    ensures forall row :: row in DeleteRows(rows, uuid, mainkey, subkey) <==> row in rows && !RowMatches(row, uuid, mainkey, subkey)
  {
    var keep := (row: Row) => !RowMatches(row, uuid, mainkey, subkey);
    var matches := (row: Row) => RowMatches(row, uuid, mainkey, subkey);
    FilterFusion(rows, keep, matches);
    FilterNone(rows, Both(keep, matches));
    FilterIsSubsequence(rows, keep);
    forall row | row in rows && !RowMatches(row, uuid, mainkey, subkey)
      ensures row in DeleteRows(rows, uuid, mainkey, subkey)
    {
      FilterKeeps(rows, keep, row);
    }
  }

  /**
   * Outside MySQL the delete query carries no uuid: deleting a tenant's key
   * removes that key for every tenant.
   */
  lemma UnscopedDeleteReachesAllTenants(rows: seq<Row>, mainkey: string, subkey: Option<string>, other: string)
    ensures Select(DeleteRows(rows, DeleteScope(false, other), mainkey, subkey), Some(other), mainkey, subkey) == []
  {
    var after := DeleteRows(rows, None, mainkey, subkey);
    DeleteSpec(rows, None, mainkey, subkey);
    FilterNone(after, (row: Row) => RowMatches(row, Some(other), mainkey, subkey));
  }

  // ---------------------------------------------------------------------------
  // The module

  class SettingsStore {
    /** The settings table, in storage order. */
    var rows: seq<Row>
    /** `database.type == 'mysql'`. */
    const isMysql: bool
    const json: JsonCodec

    constructor(isMysql: bool, json: JsonCodec, rows: seq<Row>)
      ensures this.rows == rows && this.isMysql == isMysql && this.json == json
    {
      this.rows := rows;
      this.isMysql := isMysql;
      this.json := json;
    }

    /**
     * `get(mainkey, subkey, defval)`: no match stores and returns a given
     * default (null when there is none); one match is its value; several are
     * an object keyed by sub key.
     */
    method Get(mainkey: string, subkey: Option<string>, defval: Value, context: Option<string>) returns (r: Value)
      modifies this
      ensures var uuid := ResolveUuid(mainkey, context);
        var selected := Select(old(rows), Some(uuid), mainkey, subkey);
        && (selected == [] && !Nullish(defval) ==>
              r == defval && rows == Upsert(old(rows), Row(uuid, mainkey, subkey, EncodeAsWritten(json, defval))))
        && (selected == [] && Nullish(defval) ==> r == Null && rows == old(rows))
        && (selected != [] ==> r == Answer(json, selected) && rows == old(rows))
    {
      var uuid := ResolveUuid(mainkey, context);
      var result := Select(rows, Some(uuid), mainkey, subkey);
      if |result| == 0 {
        if !Nullish(defval) {
          var _ := Set(mainkey, subkey, defval, context);
          return defval;
        }
        return Null;
      }
      if |result| == 1 {
        return Read(json, result[0].value);
      }
      var obj: seq<(string, Value)> := [];
      var i := 0;
      while i < |result|
        invariant 0 <= i <= |result|
        invariant obj == Collect(json, result[..i])
      {
        var setting := result[i];
        obj := Put(obj, SubkeyName(setting.subkey), Read(json, setting.value));
        assert result[..i + 1][..i] == result[..i];
        i := i + 1;
      }
      assert result[..i] == result;
      return Obj(obj);
    }

    /** `set(mainkey, subkey, value)`: replaces the row under the resolved key. */
    method Set(mainkey: string, subkey: Option<string>, value: Value, context: Option<string>) returns (ok: bool)
      modifies this
      ensures ok
      ensures rows == Upsert(old(rows), Row(ResolveUuid(mainkey, context), mainkey, subkey, EncodeAsWritten(json, value)))
    {
      var uuid := ResolveUuid(mainkey, context);
      var val := json.stringify(PayloadAsWritten(value)).GetOr("");
      rows := Upsert(rows, Row(uuid, mainkey, subkey, val));
      return true;
    }

    /** `delete(mainkey, subkey)`: true exactly when some row was removed. */
    method Delete(mainkey: string, subkey: Option<string>, context: Option<string>) returns (ok: bool)
      modifies this
      ensures var scope := DeleteScope(isMysql, ResolveUuid(mainkey, context));
        && (ok <==> Select(old(rows), scope, mainkey, subkey) != [])
        && rows == DeleteRows(old(rows), scope, mainkey, subkey)
    {
      var uuid := ResolveUuid(mainkey, context);
      var scope := if isMysql then Some(uuid) else None;
      var matched := Select(rows, scope, mainkey, subkey);
      rows := DeleteRows(rows, scope, mainkey, subkey);
      ok := |matched| > 0;
    }
  }
}
