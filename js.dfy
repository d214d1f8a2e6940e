/**
 * The slice of JavaScript's value model that the exchange layer and the
 * settings store rely on: dynamically typed values, objects as ordered
 * property lists, loose null checks, loose equality with 0, first-occurrence
 * String.replace with its `$` patterns, and a JSON codec whose functions are
 * parameters (its code is not part of this model).
 */
module Js {

  datatype Option<+T> = None | Some(value: T) {
    function GetOr(default: T): T {
      match this
      case Some(v) => v
      case None => default
    }
  }

  /** A JavaScript value. An object is its own-property list in insertion order. */
  datatype Value =
    | Undefined
    | Null
    | Bool(b: bool)
    | Num(num: real)
    | Str(str: string)
    | Arr(items: seq<Value>)
    | Obj(props: seq<(string, Value)>)

  /** `v == null` with JavaScript's loose equality: true for null and undefined. */
  predicate Nullish(v: Value) {
    v.Undefined? || v.Null?
  }

  /** `typeof v === 'object' && v != null`: objects and arrays. */
  predicate IsObjectLike(v: Value) {
    v.Obj? || v.Arr?
  }

  /** `Object.keys(v).length` for an object or an array (an object's keys are distinct). */
  function KeyCount(v: Value): nat
    requires IsObjectLike(v)
  {
    if v.Obj? then |v.props| else |v.items|
  }

  /** Own property `k` of an object, first occurrence. */
  function Lookup(props: seq<(string, Value)>, k: string): (r: Option<Value>)
    ensures r.Some? <==> exists i :: 0 <= i < |props| && props[i].0 == k
  {
    if props == [] then None
    else if props[0].0 == k then Some(props[0].1)
    else Lookup(props[1..], k)
  }

  /** The first property named `k` is the one read. */
  lemma {:induction false} LookupFirst(props: seq<(string, Value)>, k: string, i: nat)
    requires i < |props| && props[i].0 == k
    requires forall j :: 0 <= j < i ==> props[j].0 != k
    ensures Lookup(props, k) == Some(props[i].1)
  {
    if i > 0 {
      LookupFirst(props[1..], k, i - 1);
    }
  }

  /** `v[k]` on a value that is not null or undefined: missing properties read as undefined. */
  function Member(v: Value, k: string): Value {
    if v.Obj? then Lookup(v.props, k).GetOr(Undefined) else Undefined
  }

  /** `v[k]` on any value: None when reading it throws (v is null or undefined). */
  function GetProp(v: Value, k: string): (r: Option<Value>)
    ensures r.None? <==> Nullish(v)
  {
    if Nullish(v) then None else Some(Member(v, k))
  }

  /** `obj[k] = v`: an existing property keeps its place, a new one goes last. */
  function Put(props: seq<(string, Value)>, k: string, v: Value): (r: seq<(string, Value)>)
    ensures Lookup(r, k) == Some(v)
    ensures forall k' :: k' != k ==> Lookup(r, k') == Lookup(props, k')
  {
    if props == [] then [(k, v)]
    else if props[0].0 == k then [(k, v)] + props[1..]
    else [props[0]] + Put(props[1..], k, v)
  }

  /** `delete obj[k]`. */
  function Remove(props: seq<(string, Value)>, k: string): (r: seq<(string, Value)>)
    ensures Lookup(r, k).None?
    ensures forall k' :: k' != k ==> Lookup(r, k') == Lookup(props, k')
    ensures forall p :: p in r <==> p in props && p.0 != k
  {
    if props == [] then []
    else if props[0].0 == k then Remove(props[1..], k)
    else [props[0]] + Remove(props[1..], k)
  }

  /** Deleting a key that no property has changes nothing. */
  lemma {:induction false} RemoveNothing(props: seq<(string, Value)>, k: string)
    requires forall i :: 0 <= i < |props| ==> props[i].0 != k
    ensures Remove(props, k) == props
  {
    if props != [] {
      RemoveNothing(props[1..], k);
      assert props == [props[0]] + props[1..];
    }
  }

  // ---------------------------------------------------------------------------
  // Loose equality with zero

  /** The characters `Number(text)` trims: ECMAScript WhiteSpace and LineTerminator. */
  predicate IsJsSpace(c: char) {
    || c in {'\t', '\n', '\U{000B}', '\U{000C}', '\r', ' ', '\U{00A0}', '\U{1680}'}
    || ('\U{2000}' <= c <= '\U{200A}')
    || c in {'\U{2028}', '\U{2029}', '\U{202F}', '\U{205F}', '\U{3000}', '\U{FEFF}'}
  }

  function TrimStart(s: string): (r: string)
    ensures |r| <= |s|
  {
    if s != [] && IsJsSpace(s[0]) then TrimStart(s[1..]) else s
  }

  function TrimEnd(s: string): (r: string)
    ensures |r| <= |s|
  {
    if s != [] && IsJsSpace(s[|s| - 1]) then TrimEnd(s[..|s| - 1]) else s
  }

  predicate AllZeros(t: string) {
    forall i :: 0 <= i < |t| ==> t[i] == '0'
  }

  predicate AllDigits(t: string) {
    forall i :: 0 <= i < |t| ==> '0' <= t[i] <= '9'
  }

  /** Where `c` first occurs in `t`, or `|t|`. */
  function FirstOf(t: string, cs: set<char>): (r: nat)
    ensures r <= |t|
    ensures forall i :: 0 <= i < r ==> t[i] !in cs
    ensures r < |t| ==> t[r] in cs
  {
    if t == [] then 0 else if t[0] in cs then 0 else 1 + FirstOf(t[1..], cs)
  }

  /** An exponent part: empty, or `e`/`E`, an optional sign and at least one digit. */
  predicate ValidExponent(e: string) {
    || e == []
    || (e[0] in {'e', 'E'} &&
        var d := if |e| > 1 && e[1] in {'+', '-'} then e[2..] else e[1..];
        d != [] && AllDigits(d))
  }

  /**
   * A StrDecimalLiteral whose value is zero: an optional sign, a mantissa of
   * zeros with at most one `.` and at least one digit, then a valid exponent.
   */
  predicate ZeroDecimal(t: string) {
    var u := if t != [] && t[0] in {'+', '-'} then t[1..] else t;
    var k := FirstOf(u, {'e', 'E'});
    var m := u[..k];
    var p := FirstOf(m, {'.'});
    && AllZeros(m[..p])
    && (p == |m| || AllZeros(m[p + 1..]))
    && (if p == |m| then |m| >= 1 else |m| >= 2)
    && ValidExponent(u[k..])
  }

  /** A NonDecimalIntegerLiteral whose value is zero: `0x`, `0o` or `0b` and then only zeros. */
  predicate ZeroNonDecimal(t: string) {
    |t| >= 3 && t[0] == '0' && t[1] in {'x', 'X', 'o', 'O', 'b', 'B'} && AllZeros(t[2..])
  }

  /** `Number(s) == 0`: after trimming, the text is empty or a numeric literal of value zero. */
  predicate StringIsZero(s: string) {
    var t := TrimEnd(TrimStart(s));
    t == [] || ZeroDecimal(t) || ZeroNonDecimal(t)
  }

  /**
   * `String(v)` is a zero text, for `v` an element of a one-element array that
   * is being joined: null and undefined join as the empty text, a number as
   * its decimal form, a boolean as `true`/`false`, an object as
   * `[object Object]`, an array as its own join.
   */
  predicate JoinedIsZero(v: Value)
    decreases v, 1
  {
    match v
    case Null => true
    case Undefined => true
    case Num(n) => n == 0.0
    case Bool(_) => false
    case Str(s) => StringIsZero(s)
    case Arr(items) => ArrayIsZero(items)
    case Obj(_) => false
  }

  /** `Number(items.join(',')) == 0`: no element, or one whose text is zero (two or more join with a comma). */
  predicate ArrayIsZero(items: seq<Value>)
    decreases items, 0
  {
    |items| == 0 || (|items| == 1 && JoinedIsZero(items[0]))
  }

  /**
   * `v == 0` with JavaScript's loose equality: null and undefined are never
   * equal to 0; a boolean, a string, an array or an object is compared through
   * its number, which for an object is NaN.
   */
  predicate LooseZero(v: Value) {
    match v
    case Null => false
    case Undefined => false
    case Num(n) => n == 0.0
    case Bool(b) => !b
    case Str(s) => StringIsZero(s)
    case Arr(items) => ArrayIsZero(items)
    case Obj(_) => false
  }

  // Single amounts, one per lemma: each literal text unfolds the scanners above.

  lemma PointZeroIsZero() ensures LooseZero(Str("0.0")) {
    var u := "0.0";
    assert TrimEnd(TrimStart(u)) == u;
    assert FirstOf(u, {'e', 'E'}) == 3 && u[..3] == u && u[3..] == [];
    assert FirstOf(u, {'.'}) == 1 && u[..1] == "0" && u[2..] == "0";
    assert ZeroDecimal(u);
  }
  lemma BlankIsZero() ensures LooseZero(Str(" ")) {}
  lemma DoubleZeroIsZero() ensures LooseZero(Str("00")) {
    assert TrimEnd(TrimStart("00")) == "00";
    assert FirstOf("00", {'e', 'E'}) == 2;
  }
  lemma SignedExponentZeroIsZero() ensures LooseZero(Str("-0e5")) {}
  lemma HexZeroIsZero() ensures LooseZero(Str("0x0")) {}
  lemma HundredthIsNotZero() ensures !LooseZero(Str("0.01")) {}
  lemma BarePrefixIsNotZero() ensures !LooseZero(Str("0x")) {}
  lemma BarePointIsNotZero() ensures !LooseZero(Str(".")) {}

  /**
   * Amounts that compare equal to 0 beyond `0`, `''` and `'0'` (decimal,
   * blank, exponent and hexadecimal texts, the empty array and one-element
   * arrays of a zero), and amounts that do not.
   */
  lemma LooseZeroExamples()
    ensures LooseZero(Str("0.0")) && LooseZero(Str(" ")) && LooseZero(Str("00"))
    ensures LooseZero(Str("-0e5")) && LooseZero(Str("0x0"))
    ensures LooseZero(Arr([])) && LooseZero(Arr([Num(0.0)])) && LooseZero(Arr([Null]))
    ensures !LooseZero(Str("0.01")) && !LooseZero(Str("0x")) && !LooseZero(Str("."))
    ensures !LooseZero(Null) && !LooseZero(Bool(true)) && !LooseZero(Arr([Num(0.0), Num(0.0)]))
  {
    PointZeroIsZero();
    BlankIsZero();
    DoubleZeroIsZero();
    SignedExponentZeroIsZero();
    HexZeroIsZero();
    HundredthIsNotZero();
    BarePrefixIsNotZero();
    BarePointIsNotZero();
  }

  // ---------------------------------------------------------------------------
  // Strings

  /** `pat` occurs in `s` at position `i`. */
  predicate OccursAt(s: string, pat: string, i: nat) {
    i + |pat| <= |s| && s[i..i + |pat|] == pat
  }

  /** `s.indexOf(pat)`: the first position where `pat` occurs. */
  function IndexOf(s: string, pat: string): (r: Option<nat>)
    ensures r.Some? ==> OccursAt(s, pat, r.value)
    ensures r.Some? ==> forall j :: 0 <= j < r.value ==> !OccursAt(s, pat, j)
    ensures r.None? ==> forall j :: 0 <= j <= |s| ==> !OccursAt(s, pat, j)
  {
    if |s| < |pat| then
      None
    else if s[..|pat|] == pat then
      Some(0)
    else
      match IndexOf(s[1..], pat)
      case None =>
        assert forall j :: 1 <= j <= |s| ==> (OccursAt(s, pat, j) <==> OccursAt(s[1..], pat, j - 1));
        None
      case Some(i) =>
        assert forall j :: 1 <= j <= |s| ==> (OccursAt(s, pat, j) <==> OccursAt(s[1..], pat, j - 1));
        Some(i + 1)
  }

  /**
   * The replacement text `String.prototype.replace` inserts for a string
   * pattern (GetSubstitution with no capture groups): `$$` is one `$`, `$&`
   * the matched text, `` $` `` the text before the match, `$'` the text after
   * it, and every other character, any other `$` included, stands for itself.
   */
  function Substitute(rep: string, matched: string, before: string, after: string): (r: string)
    ensures '$' !in rep ==> r == rep
  {
    if rep == [] then []
    else if rep[0] == '$' && |rep| >= 2 && rep[1] in "$&`'" then
      var piece := if rep[1] == '$' then "$" else if rep[1] == '&' then matched else if rep[1] == '`' then before else after;
      piece + Substitute(rep[2..], matched, before, after)
    else
      assert '$' !in rep ==> '$' !in rep[1..] by {
        assert forall c :: c in rep[1..] ==> c in rep;
      }
      [rep[0]] + Substitute(rep[1..], matched, before, after)
  }

  /** The four `$` patterns, and a `$` followed by anything else kept as it is. */
  lemma SubstitutePatterns(matched: string, before: string, after: string)
    ensures Substitute("$$", matched, before, after) == "$"
    ensures Substitute("$&", matched, before, after) == matched
    ensures Substitute("$`", matched, before, after) == before
    ensures Substitute("$'", matched, before, after) == after
    ensures Substitute("$1", matched, before, after) == "$1"
  {
    assert "$$"[2..] == [] && "$&"[2..] == [] && "$`"[2..] == [] && "$'"[2..] == [];
    assert "$1"[1..] == "1" && "1"[1..] == [];
    assert Substitute("1", matched, before, after) == "1";
  }

  /** `s.replace(pat, rep)` with a string pattern: only the first occurrence is replaced. */
  function ReplaceFirst(s: string, pat: string, rep: string): string {
    match IndexOf(s, pat)
    case None => s
    case Some(i) => s[..i] + Substitute(rep, pat, s[..i], s[i + |pat|..]) + s[i + |pat|..]
  }

  /** The first occurrence is found wherever it is. */
  lemma IndexOfFirst(s: string, pat: string, i: nat)
    requires OccursAt(s, pat, i)
    requires forall j :: 0 <= j < i ==> !OccursAt(s, pat, j)
    ensures IndexOf(s, pat) == Some(i)
  {
  }

  /** Replacing a pattern that does not occur changes nothing. */
  lemma ReplaceAbsent(s: string, pat: string, rep: string)
    requires forall j :: 0 <= j <= |s| ==> !OccursAt(s, pat, j)
    ensures ReplaceFirst(s, pat, rep) == s
  {
  }

  /** A pattern cannot start inside a prefix that lacks its first character. */
  lemma NoOccurrenceBefore(p: string, pat: string, q: string)
    requires |pat| > 0 && pat[0] !in p
    ensures forall j :: 0 <= j < |p| ==> !OccursAt(p + pat + q, pat, j)
  {
    var s := p + pat + q;
    forall j | 0 <= j < |p|
      ensures !OccursAt(s, pat, j)
    {
      assert s[j] == p[j];
      if j + |pat| <= |s| {
        assert s[j..j + |pat|][0] == s[j];
      }
    }
  }

  /**
   * When the first occurrence of `pat` in `s` starts at `|p|` for `s == p + pat + q`,
   * the replacement yields `p`, the substituted `rep` and `q`: everything after
   * it, including any later occurrence of `pat`, is left as it was, and a
   * replacement without `$` is inserted as it is.
   */
  lemma ReplaceAt(p: string, pat: string, q: string, rep: string)
    requires forall j :: 0 <= j < |p| ==> !OccursAt(p + pat + q, pat, j)
    ensures ReplaceFirst(p + pat + q, pat, rep) == p + Substitute(rep, pat, p, q) + q
    ensures '$' !in rep ==> ReplaceFirst(p + pat + q, pat, rep) == p + rep + q
  {
    var s := p + pat + q;
    assert s[|p|..|p| + |pat|] == pat;
    IndexOfFirst(s, pat, |p|);
    assert s[..|p|] == p;
    assert s[|p| + |pat|..] == q;
  }

  // ---------------------------------------------------------------------------
  // JSON

  /**
   * The JSON helpers the source calls: `utils.is_json`, `JSON.parse` and
   * `JSON.stringify` (None when it returns undefined).
   */
  datatype JsonCodec = JsonCodec(
    isJson: string -> bool,
    parse: string -> Value,
    stringify: Value -> Option<string>)

  /**
   * What the codec does for one value: it stringifies `v` to text that is JSON
   * and parses back to `v`. `JSON.stringify` does this for strings, booleans,
   * finite numbers, null, and arrays and objects built from them, but not for
   * values holding undefined.
   */
  predicate RoundTrips(json: JsonCodec, v: Value) {
    && json.stringify(v).Some?
    && json.isJson(json.stringify(v).value)
    && json.parse(json.stringify(v).value) == v
  }
}
