/**
 * The fragment of JavaScript's value semantics that the modelled code relies on:
 * JSON values, truthiness, property reads, `String(v)`, `Number(v)`,
 * `String.prototype.trim` and `Array.prototype.join`.
 *
 * Host operations whose exact output this model does not fix (the decimal
 * rendering of a number, JSON serialisation, the parsing of numeric text) are
 * parameters collected in `Runtime`.
 */
module Js {
  import opened Common

  /**
   * A JSON value, as `JSON.parse` produces it and as Prisma stores a `Json` column.
   * An object maps its keys to values; the order of its keys is not modelled.
   * `undefined` is not a JSON value: a missing value is `None` of an `Option<Json>`.
   */
  datatype Json =
    | JNull
    | JBool(b: bool)
    | JNum(n: real)
    | JStr(s: string)
    | JArr(items: seq<Json>)
    | JObj(fields: map<string, Json>)

  /** The result of JavaScript's `Number(...)` conversion: `NaN` or a number. */
  datatype Number = NaN | Finite(value: real)

  /**
   * Host operations that the model takes as given:
   * `numberToString` is `Number.prototype.toString()` (also what a template literal shows),
   * `stringify` is `JSON.stringify`, and
   * `stringToNumber` is `Number(s)` on a string.
   */
  datatype Runtime = Runtime(
    numberToString: real -> string,
    stringify: Json -> string,
    stringToNumber: string -> Number)

  /** JavaScript's `ToBoolean` on a JSON value. */
  predicate Truthy(v: Json)
  {
    match v
    case JNull => false
    case JBool(b) => b
    case JNum(n) => n != 0.0
    case JStr(s) => s != ""
    case JArr(_) => true
    case JObj(_) => true
  }

  /**
   * The property read `v.key` on a value that is not null: the field of an
   * object, and `undefined` (None) otherwise. The keys this model reads are
   * never properties that strings, arrays or objects inherit.
   */
  function Get(v: Json, key: string): (r: Option<Json>)
    ensures r.Some? <==> v.JObj? && key in v.fields
    ensures r.Some? ==> r.value == v.fields[key]
  {
    match v
    case JObj(m) => if key in m then Some(m[key]) else None
    case _ => None
  }

  /** `String(v)`, which is also what a template literal `${v}` inserts. */
  function ToText(rt: Runtime, v: Json): (t: string)
  {
    match v
    case JNull => "null"
    case JBool(b) => if b then "true" else "false"
    case JNum(n) => rt.numberToString(n)
    case JStr(s) => s
    // Array.prototype.toString: the elements joined by ",", with null shown as "".
    case JArr(items) =>
      Join(seq(|items|, i requires 0 <= i < |items| =>
             if items[i].JNull? then "" else ToText(rt, items[i])), ",")
    case JObj(_) => "[object Object]"
  }

  /** `Number(v)` on a JSON value. */
  function ToNumber(rt: Runtime, v: Json): (n: Number)
  {
    match v
    case JNull => Finite(0.0)
    case JBool(b) => Finite(if b then 1.0 else 0.0)
    case JNum(n) => Finite(n)
    case JStr(s) => rt.stringToNumber(s)
    // An array converts through its string form.
    case JArr(_) => rt.stringToNumber(ToText(rt, v))
    // An object's string form, "[object Object]", is not numeric text.
    case JObj(_) => NaN
  }

  /** The characters `String.prototype.trim` removes: WhiteSpace and LineTerminator of ECMAScript. */
  predicate IsWhitespace(c: char)
  {
    || c == '\t' || c == '\n' || c == '\U{000B}' || c == '\U{000C}' || c == '\r' || c == ' '
    || c == '\U{00A0}' || c == '\U{1680}' || ('\U{2000}' <= c <= '\U{200A}')
    || c == '\U{2028}' || c == '\U{2029}' || c == '\U{202F}' || c == '\U{205F}'
    || c == '\U{3000}' || c == '\U{FEFF}'
  }

  /** The falsy JSON values are exactly null, false, 0 and "". */
  lemma FalsyValues(v: Json)
    ensures !Truthy(v) <==> v == JNull || v == JBool(false) || v == JNum(0.0) || v == JStr("")
  {
  }

  /**
   * `String` of an array: the empty array shows as "", and a one-element array
   * shows as its element, a null element as "".
   */
  lemma ArrayToText(rt: Runtime, x: Json)
    ensures ToText(rt, JArr([])) == ""
    ensures ToText(rt, JArr([x])) == if x.JNull? then "" else ToText(rt, x)
  {
    var parts := seq(1, i requires 0 <= i < 1 => if [x][i].JNull? then "" else ToText(rt, [x][i]));
    assert parts == [if x.JNull? then "" else ToText(rt, x)];
  }

  /** Removes leading whitespace: what is left is a suffix of `s` that does not start with whitespace. */
  function TrimStart(s: string): (r: string)
    ensures |r| <= |s| && r == s[|s| - |r|..]
    ensures forall i :: 0 <= i < |s| - |r| ==> IsWhitespace(s[i])
    ensures r != [] ==> !IsWhitespace(r[0])
  {
    if |s| > 0 && IsWhitespace(s[0]) then TrimStart(s[1..]) else s
  }

  /** Removes trailing whitespace: what is left is a prefix of `s` that does not end with whitespace. */
  function TrimEnd(s: string): (r: string)
    ensures |r| <= |s| && r == s[..|r|]
    ensures forall i :: |r| <= i < |s| ==> IsWhitespace(s[i])
    ensures r != [] ==> !IsWhitespace(r[|r| - 1])
  {
    if |s| > 0 && IsWhitespace(s[|s| - 1]) then TrimEnd(s[..|s| - 1]) else s
  }

  /**
   * A prefix `u` of a suffix `t` of `s` is a slice of `s`; what follows `u` in `t`
   * is what follows that slice in `s`.
   */
  lemma PrefixOfSuffix(s: string, t: string, u: string)
    requires |t| <= |s| && t == s[|s| - |t|..]
    requires |u| <= |t| && u == t[..|u|]
    requires forall k :: |u| <= k < |t| ==> IsWhitespace(t[k])
    ensures |s| - |t| + |u| <= |s| && u == s[|s| - |t|..|s| - |t| + |u|]
    ensures forall k :: |s| - |t| + |u| <= k < |s| ==> IsWhitespace(s[k])
  {
    var i := |s| - |t|;
    forall k | i + |u| <= k < |s|
      ensures IsWhitespace(s[k])
    {
      assert s[k] == t[k - i];
    }
  }

  /**
   * `String.prototype.trim`: what is left is the slice of the input that starts
   * after the leading whitespace; everything before and after it is whitespace,
   * and it neither starts nor ends with whitespace.
   */
  function Trim(s: string): (r: string)
    ensures |s| - |TrimStart(s)| + |r| <= |s|
    ensures r == s[|s| - |TrimStart(s)|..|s| - |TrimStart(s)| + |r|]
    ensures forall k :: 0 <= k < |s| - |TrimStart(s)| ==> IsWhitespace(s[k])
    ensures forall k :: |s| - |TrimStart(s)| + |r| <= k < |s| ==> IsWhitespace(s[k])
    ensures r != "" ==> !IsWhitespace(r[0]) && !IsWhitespace(r[|r| - 1])
  {
    var t := TrimStart(s);
    var u := TrimEnd(t);
    PrefixOfSuffix(s, t, u);
    assert u != "" ==> u[0] == t[0];
    u
  }

  /** A string trims to "" exactly when every character of it is whitespace. */
  lemma TrimEmptyIff(s: string)
    ensures Trim(s) == "" <==> forall i :: 0 <= i < |s| ==> IsWhitespace(s[i])
  {
    var t := TrimStart(s);
    if t != [] {
      assert t[0] == s[|s| - |t|];
    }
  }

  /** `Array.prototype.join(sep)` on strings. */
  function Join(parts: seq<string>, sep: string): (r: string)
    ensures parts == [] ==> r == ""
    ensures |parts| > 0 ==> parts[0] <= r
  {
    if |parts| == 0 then ""
    else if |parts| == 1 then parts[0]
    else parts[0] + sep + Join(parts[1..], sep)
  }

  /** Joining two non-empty lists puts one separator between their joins. */
  lemma {:induction false} JoinConcat(a: seq<string>, b: seq<string>, sep: string)
    requires a != [] && b != []
    ensures Join(a + b, sep) == Join(a, sep) + sep + Join(b, sep)
  {
    if |a| == 1 {
      assert (a + b)[1..] == b;
    } else {
      assert (a + b)[1..] == a[1..] + b;
      JoinConcat(a[1..], b, sep);
    }
  }
}
