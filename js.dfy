/**
 * The JavaScript values the SDK inspects, and the few language rules its checks rely on:
 * truthiness (`!x`), `typeof`, property reads, `String(x)`, `String.prototype.trim` and
 * `String.prototype.length` (which counts UTF-16 code units).
 */
module Js {
  import opened Base

  /** A JSON value as `JSON.parse` produces it. Numbers are modelled as integers. */
  datatype Json =
    | JNull
    | JBool(b: bool)
    | JNum(n: int)
    | JStr(s: string)
    | JArr(items: seq<Json>)
    | JObj(fields: map<string, Json>)

  /** The result of reading a property: `None` is `undefined`. */
  type Value = Option<Json>

  /** An object with named properties, such as a request or a configuration. */
  type Record = map<string, Json>

  /** `new Date(s).getTime()`: milliseconds since the epoch, or `None` where it gives NaN. */
  type DateParser = string -> Option<int>

  /** The answers of `typeof` that JSON values can give. */
  datatype Type = Undefined | Object | Boolean | Number | String

  function TypeOf(v: Value): Type {
    match v
    case None => Undefined
    case Some(JNull) => Object
    case Some(JBool(_)) => Boolean
    case Some(JNum(_)) => Number
    case Some(JStr(_)) => String
    case Some(JArr(_)) => Object
    case Some(JObj(_)) => Object
  }

  /** JavaScript truthiness: `undefined`, `null`, `false`, `0` and `""` are falsy. */
  predicate Truthy(v: Value) {
    match v
    case None => false
    case Some(JNull) => false
    case Some(JBool(b)) => b
    case Some(JNum(n)) => n != 0
    case Some(JStr(s)) => s != []
    case Some(JArr(_)) => true
    case Some(JObj(_)) => true
  }

  /** The negation of `!v || typeof v !== "object"`: a non-null object or an array. */
  predicate IsObjectLike(v: Value) {
    Truthy(v) && TypeOf(v) == Object
  }

  /** The negation of `!v || typeof v !== "string"`: a non-empty string. */
  predicate IsNonEmptyString(v: Value) {
    Truthy(v) && TypeOf(v) == String
  }

  /** The negation of `typeof v !== "number" || v <= 0`. */
  predicate IsPositiveNumber(v: Value) {
    TypeOf(v) == Number && v.value.n > 0
  }

  /** `v[key]`. Only objects have named properties; JavaScript would throw on `null`. */
  function Prop(v: Json, key: string): (r: Value)
    requires v != JNull
    ensures r.Some? <==> v.JObj? && key in v.fields
    ensures r.Some? ==> r.value == v.fields[key]
  {
    match v
    case JObj(m) => if key in m then Some(m[key]) else None
    case _ => None
  }

  /** `record[key]` on a record. */
  function Field(m: Record, key: string): (r: Value)
    ensures r.Some? <==> key in m
    ensures r.Some? ==> r.value == m[key]
  {
    if key in m then Some(m[key]) else None
  }

  /** `o[key]`, where `o` is `undefined` when the property chain has already ended. */
  function OptionalProp(v: Value, key: string): (r: Value)
    ensures r.Some? <==> v.Some? && v.value.JObj? && key in v.value.fields
    ensures r.Some? ==> r.value == v.value.fields[key]
  {
    match v
    case Some(JObj(m)) => Field(m, key)
    case _ => None
  }

  // ---------------------------------------------------------------------------
  // String(x)

  function DigitChar(d: int): (c: char)
    requires 0 <= d < 10
    ensures '0' <= c <= '9' && c as int - '0' as int == d
  {
    ('0' as int + d) as char
  }

  /** The number a string of decimal digits denotes. */
  function DecimalValue(s: string): nat
    requires forall i :: 0 <= i < |s| ==> '0' <= s[i] <= '9'
  {
    if s == [] then 0 else DecimalValue(s[..|s| - 1]) * 10 + (s[|s| - 1] as int - '0' as int)
  }

  /** The decimal digits of a natural number, without leading zeros. */
  function NatToDecimal(n: nat): (r: string)
    ensures |r| >= 1
    ensures forall i :: 0 <= i < |r| ==> '0' <= r[i] <= '9'
    ensures r[0] == '0' <==> n == 0
    decreases n
  {
    if n < 10 then [DigitChar(n)] else NatToDecimal(n / 10) + [DigitChar(n % 10)]
  }

  /** The digits denote the number they were made from. */
  lemma {:induction false} NatToDecimalValue(n: nat)
    ensures DecimalValue(NatToDecimal(n)) == n
    decreases n
  {
    var r := NatToDecimal(n);
    if n >= 10 {
      NatToDecimalValue(n / 10);
      assert r[..|r| - 1] == NatToDecimal(n / 10);
    }
  }

  /** `String(n)` for an integer: an optional `-`, then digits without leading zeros. */
  function IntToDecimal(n: int): (r: string)
    ensures |r| >= 1
    ensures (r[0] == '-') <==> n < 0
    ensures n >= 0 ==> '0' <= r[0] <= '9'
    ensures forall i :: 0 < i < |r| ==> '0' <= r[i] <= '9'
  {
    if n < 0 then "-" + NatToDecimal(-n) else NatToDecimal(n)
  }

  /** The digits of `String(n)` denote `|n|`. */
  lemma IntToDecimalValue(n: int)
    ensures var r := IntToDecimal(n);
      && (n >= 0 ==> DecimalValue(r) == n)
      && (n < 0 ==> |r| >= 2 && r[1] != '0' && DecimalValue(r[1..]) == -n)
  {
    if n >= 0 {
      NatToDecimalValue(n);
    } else {
      NatToDecimalValue(-n);
      assert IntToDecimal(n)[1..] == NatToDecimal(-n);
    }
  }

  /** The message of the TypeError V8 raises when a value has no primitive form. */
  const ConversionError: string := "Cannot convert object to primitive value"

  /**
   * Whether `String(v)` completes. A parsed object holds only data, so an own `toString`
   * property is never callable; `valueOf` then gives the object back, and the conversion
   * throws. Without one, the inherited `toString` gives "[object Object]". An array joins
   * its elements, converting each one that is not `null`.
   */
  predicate Convertible(v: Json)
    decreases v
  {
    match v
    case JObj(m) => "toString" !in m
    case JArr(items) => forall i :: 0 <= i < |items| ==> Convertible(items[i])
    case _ => true
  }

  /** `String(v)`: the text, or `None` where the conversion throws `ConversionError`. */
  function ToJsString(v: Json): (r: Option<string>)
    ensures r.Some? <==> Convertible(v)
    ensures v.JStr? ==> r == Some(v.s)
    ensures v.JObj? && r.Some? ==> r.value == "[object Object]"
    ensures v.JNull? ==> r == Some("null")
    ensures v.JBool? ==> r == Some(if v.b then "true" else "false")
    ensures v.JNum? ==> r == Some(IntToDecimal(v.n))
    ensures v.JArr? ==> r == JoinItems(v.items)
    decreases v, 0
  {
    match v
    case JNull => Some("null")
    case JBool(b) => Some(if b then "true" else "false")
    case JNum(n) => Some(IntToDecimal(n))
    case JStr(s) => Some(s)
    case JArr(items) => JoinItems(items)
    case JObj(m) => if "toString" in m then None else Some("[object Object]")
  }

  /** The text `join` gives one element: "" for `null`, else `String(x)`. */
  function ItemText(x: Json): (r: Option<string>)
    ensures r.Some? <==> Convertible(x)
    ensures x.JNull? ==> r == Some("")
    ensures !x.JNull? ==> r == ToJsString(x)
    decreases x, 1
  {
    if x == JNull then Some("") else ToJsString(x)
  }

  /** `items.join(",")`, with `null` elements giving "". */
  function JoinItems(items: seq<Json>): (r: Option<string>)
    ensures r.Some? <==> forall i :: 0 <= i < |items| ==> Convertible(items[i])
    ensures items == [] ==> r == Some("")
    ensures |items| == 1 ==> r == ItemText(items[0])
    decreases items, 0
  {
    if items == [] then Some("")
    else
      var head := ItemText(items[0]);
      if head.None? then None
      else if |items| == 1 then head
      else
        var rest := JoinItems(items[1..]);
        assert forall i :: 1 <= i < |items| ==> items[i] == items[1..][i - 1];
        if rest.None? then None else Some(head.value + "," + rest.value)
  }

  /**
   * A one-element array has the text of its element, and `[null]` has the empty text; so
   * `String(["2024-01-31"])` is a date string.
   */
  lemma SingletonArrayText(x: Json)
    ensures x != JNull ==> ToJsString(JArr([x])) == ToJsString(x)
    ensures ToJsString(JArr([JNull])) == Some("")
  {
    assert JoinItems([x]) == (if x == JNull then Some("") else ToJsString(x));
    assert JoinItems([JNull]) == Some("");
  }

  /** The texts of the elements of an array whose elements all convert. */
  function ItemTexts(items: seq<Json>): (texts: seq<string>)
    requires forall i :: 0 <= i < |items| ==> Convertible(items[i])
    ensures |texts| == |items|
    ensures forall i :: 0 <= i < |items| ==> ItemText(items[i]) == Some(texts[i])
  {
    if items == [] then [] else [ItemText(items[0]).value] + ItemTexts(items[1..])
  }

  /**
   * `parts` with a comma between each two, built from the left as `join` builds its
   * result: the text so far, a comma, then the next part.
   */
  function CommaJoin(parts: seq<string>): string {
    if parts == [] then ""
    else if |parts| == 1 then parts[0]
    else CommaJoin(parts[..|parts| - 1]) + "," + parts[|parts| - 1]
  }

  /** A part put in front comes first, followed by a comma. */
  lemma {:induction false} CommaJoinCons(head: string, parts: seq<string>)
    requires parts != []
    ensures CommaJoin([head] + parts) == head + "," + CommaJoin(parts)
    decreases |parts|
  {
    var all := [head] + parts;
    if |parts| == 1 {
      assert all[..1] == [head];
    } else {
      var init := parts[..|parts| - 1];
      assert all[..|all| - 1] == [head] + init;
      CommaJoinCons(head, init);
    }
  }

  /** `items.join(",")` is the texts of the elements with a comma between each two. */
  lemma {:induction false} JoinItemsText(items: seq<Json>)
    requires forall i :: 0 <= i < |items| ==> Convertible(items[i])
    ensures JoinItems(items) == Some(CommaJoin(ItemTexts(items)))
    decreases |items|
  {
    if |items| >= 2 {
      JoinItemsText(items[1..]);
      CommaJoinCons(ItemText(items[0]).value, ItemTexts(items[1..]));
    }
  }

  /** The text a template literal `${v}` inserts, or `None` where it throws. */
  function Display(v: Value): (r: Option<string>)
    ensures r.Some? <==> v.None? || Convertible(v.value)
    ensures v.None? ==> r == Some("undefined")
    ensures v.Some? ==> r == ToJsString(v.value)
  {
    match v
    case None => Some("undefined")
    case Some(j) => ToJsString(j)
  }

  // ---------------------------------------------------------------------------
  // trim and length

  /** The WhiteSpace and LineTerminator code points that `trim` removes. */
  predicate IsWhitespace(c: char) {
    var x := c as int;
    x == 0x09 || x == 0x0A || x == 0x0B || x == 0x0C || x == 0x0D || x == 0x20
    || x == 0xA0 || x == 0x1680 || (0x2000 <= x <= 0x200A) || x == 0x2028 || x == 0x2029
    || x == 0x202F || x == 0x205F || x == 0x3000 || x == 0xFEFF
  }

  predicate AllWhitespace(s: string) {
    forall i :: 0 <= i < |s| ==> IsWhitespace(s[i])
  }

  /** How many whitespace characters `s` starts with. */
  function LeadingBlanks(s: string): (n: nat)
    ensures n <= |s|
    ensures forall k :: 0 <= k < n ==> IsWhitespace(s[k])
    ensures n < |s| ==> !IsWhitespace(s[n])
  {
    if s != [] && IsWhitespace(s[0]) then 1 + LeadingBlanks(s[1..]) else 0
  }

  /** How many whitespace characters `s` ends with. */
  function TrailingBlanks(s: string): (n: nat)
    ensures n <= |s|
    ensures forall k :: |s| - n <= k < |s| ==> IsWhitespace(s[k])
    ensures n < |s| ==> !IsWhitespace(s[|s| - 1 - n])
  {
    if s != [] && IsWhitespace(s[|s| - 1]) then 1 + TrailingBlanks(s[..|s| - 1]) else 0
  }

  /** `r` is the part of `s` at offset `i` with nothing but whitespace around it. */
  predicate TrimmedAt(s: string, r: string, i: nat)
    requires i + |r| <= |s|
  {
    r == s[i..i + |r|] && AllWhitespace(s[..i]) && AllWhitespace(s[i + |r|..])
  }

  /** `s.trim()`: `s` without the whitespace at both of its ends. */
  function Trim(s: string): (r: string)
    ensures |r| <= |s|
    ensures r != [] ==> !IsWhitespace(r[0]) && !IsWhitespace(r[|r| - 1])
    ensures r == [] <==> AllWhitespace(s)
    ensures exists i :: 0 <= i <= |s| - |r| && TrimmedAt(s, r, i)
  {
    var lead := LeadingBlanks(s);
    if lead == |s| then
      BlankTrimmed(s, lead);
      []
    else
      var trail := TrailingBlanks(s);
      InnerTrimmed(s, lead, trail);
      s[lead..|s| - trail]
  }

  /** A string made of `lead` blanks only trims to the empty string. */
  lemma BlankTrimmed(s: string, lead: nat)
    requires lead == |s| && forall k :: 0 <= k < lead ==> IsWhitespace(s[k])
    ensures AllWhitespace(s) && TrimmedAt(s, [], |s|)
  {
    assert s[..|s|] == s;
  }

  /**
   * Between `lead` leading and `trail` trailing blanks, with a non-blank after the first
   * run and before the second, lies a non-empty part with a non-blank at each end.
   */
  lemma InnerTrimmed(s: string, lead: nat, trail: nat)
    requires lead < |s| && forall k :: 0 <= k < lead ==> IsWhitespace(s[k])
    requires !IsWhitespace(s[lead])
    requires trail <= |s| && forall k :: |s| - trail <= k < |s| ==> IsWhitespace(s[k])
    requires trail < |s| ==> !IsWhitespace(s[|s| - 1 - trail])
    ensures lead < |s| - trail
    ensures !AllWhitespace(s)
    ensures var r := s[lead..|s| - trail];
      && !IsWhitespace(r[0]) && !IsWhitespace(r[|r| - 1])
      && TrimmedAt(s, r, lead)
  {
    var r := s[lead..|s| - trail];
    assert s[|s| - trail..] == s[lead + |r|..];
  }

  /** The number of UTF-16 code units a code point takes. */
  function Utf16Units(c: char): nat {
    if c as int >= 0x10000 then 2 else 1
  }

  /** `s.length`: JavaScript counts UTF-16 code units, so it is never below the code point count. */
  function Utf16Length(s: string): (n: nat)
    ensures |s| <= n <= 2 * |s|
    ensures (forall i :: 0 <= i < |s| ==> s[i] as int < 0x10000) ==> n == |s|
  {
    if s == [] then 0 else Utf16Units(s[0]) + Utf16Length(s[1..])
  }
}
