/**
  The slice of JavaScript value semantics the client relies on: optional
  values, JSON values as produced by `response.json()`, truthiness (what `||`
  and `if (x)` test), `String(x)` coercion, and the decimal rendering of
  integers used in paths and messages.
 */
module JsValues {

  /** A value that may be `undefined`. */
  datatype Option<+T> = None | Some(value: T) {
    /** The value, or `default` when absent (JavaScript default parameters). */
    function GetOr(default: T): T {
      match this
      case Some(v) => v
      case None => default
    }
  }

  /** A decoded JSON value. Numbers are modelled as integers. */
  datatype JsonValue =
    | JNull
    | JBool(b: bool)
    | JNum(n: int)
    | JStr(s: string)
    | JArr(elems: seq<JsonValue>)
    | JObj(fields: map<string, JsonValue>)

  /** JavaScript truthiness of a string: only the empty string is falsy. */
  predicate StrTruthy(s: Option<string>) {
    s.Some? && s.value != ""
  }

  /** JavaScript truthiness of a number: only 0 is falsy (NaN is not modelled). */
  predicate NumTruthy(x: Option<int>) {
    x.Some? && x.value != 0
  }

  /** JavaScript truthiness of a JSON value. */
  predicate JsonTruthy(v: JsonValue) {
    match v
    case JNull => false
    case JBool(b) => b
    case JNum(n) => n != 0
    case JStr(s) => s != ""
    case JArr(_) => true
    case JObj(_) => true
  }

  /** `x || d` for an optional string. */
  function OrString(x: Option<string>, d: string): (r: string)
    ensures StrTruthy(x) ==> r == x.value
    ensures !StrTruthy(x) ==> r == d
  {
    if StrTruthy(x) then x.value else d
  }

  /** `x || d` for an optional number. */
  function OrNumber(x: Option<int>, d: int): (r: int)
    ensures NumTruthy(x) ==> r == x.value
    ensures !NumTruthy(x) ==> r == d
  {
    if NumTruthy(x) then x.value else d
  }

  /** `value?.[key]` on a JSON value: only objects have properties here. */
  function Property(v: JsonValue, key: string): (r: Option<JsonValue>)
    ensures r.Some? <==> v.JObj? && key in v.fields
    ensures r.Some? ==> r.value == v.fields[key]
  {
    if v.JObj? && key in v.fields then Some(v.fields[key]) else None
  }

  // ---------------------------------------------------------------------------
  // Decimal rendering of integers and its inverse

  predicate IsDigit(c: char) {
    '0' <= c <= '9'
  }

  predicate AllDigits(s: string) {
    forall i :: 0 <= i < |s| ==> IsDigit(s[i])
  }

  function DigitChar(d: nat): (c: char)
    requires d < 10
    ensures IsDigit(c) && c as int - '0' as int == d
  {
    ('0' as int + d) as char
  }

  /** `String(n)` for a non-negative integer: its decimal digits, most significant first. */
  function NatToString(n: nat): (s: string)
    ensures |s| >= 1 && AllDigits(s)
    ensures s[0] == '0' ==> n == 0
    ensures n == 0 ==> s == "0"
    decreases n
  {
    if n < 10 then [DigitChar(n)] else NatToString(n / 10) + [DigitChar(n % 10)]
  }

  /** `String(n)` for an integer: a leading '-' for negatives. */
  function IntToString(n: int): (s: string)
    ensures |s| >= 1
    ensures n < 0 <==> s[0] == '-'
    ensures n < 0 ==> |s| >= 2 && s[1] != '0'
    ensures s[0] == '0' ==> n == 0
    ensures n == 0 ==> s == "0"
  {
    if n < 0 then "-" + NatToString(-n) else NatToString(n)
  }

  /** Reads back a string of decimal digits. */
  function ParseNat(s: string): nat
    requires AllDigits(s)
  {
    if s == [] then 0 else ParseNat(s[..|s| - 1]) * 10 + (s[|s| - 1] as int - '0' as int)
  }

  /** Reads back the output of IntToString. */
  function ParseInt(s: string): int
    requires |s| >= 1
    requires s[0] == '-' ==> AllDigits(s[1..])
    requires s[0] != '-' ==> AllDigits(s)
  {
    if s[0] == '-' then 0 - ParseNat(s[1..]) as int else ParseNat(s) as int
  }

  lemma {:induction false} NatToStringRoundTrip(n: nat)
    ensures ParseNat(NatToString(n)) == n
    decreases n
  {
    var s := NatToString(n);
    if n < 10 {
      assert s[..|s| - 1] == [];
    } else {
      NatToStringRoundTrip(n / 10);
      assert s[..|s| - 1] == NatToString(n / 10);
    }
  }

  /** IntToString loses nothing: ParseInt recovers the number. */
  lemma IntToStringRoundTrip(n: int)
    ensures var s := IntToString(n);
            (s[0] == '-' ==> AllDigits(s[1..])) && (s[0] != '-' ==> AllDigits(s)) &&
            ParseInt(s) == n
  {
    var s := IntToString(n);
    if n < 0 {
      assert s[1..] == NatToString(-n);
      NatToStringRoundTrip(-n);
    } else {
      NatToStringRoundTrip(n);
    }
  }

  /** Distinct integers render as distinct strings. */
  lemma IntToStringInjective(m: int, n: int)
    requires IntToString(m) == IntToString(n)
    ensures m == n
  {
    IntToStringRoundTrip(m);
    IntToStringRoundTrip(n);
  }

  // ---------------------------------------------------------------------------
  // String(x)

  /** `String(v)` for a JSON value, or None where it throws a TypeError.
      Arrays join their elements with ',' (null elements render as "").
      A plain object renders as "[object Object]". An object with its own
      `toString` key cannot be converted: that key holds data, not a
      function, so it is skipped, and `valueOf` yields the object itself,
      which is not a primitive. */
  function JsonToString(v: JsonValue): (r: Option<string>)
    ensures v.JStr? ==> r == Some(v.s)
    ensures v.JNum? ==> r == Some(IntToString(v.n))
    ensures v.JObj? ==> (r.None? <==> "toString" in v.fields)
    ensures v.JObj? && r.Some? ==> r.value == "[object Object]"
    decreases v
  {
    match v
    case JNull => Some("null")
    case JBool(b) => Some(if b then "true" else "false")
    case JNum(n) => Some(IntToString(n))
    case JStr(s) => Some(s)
    case JArr(elems) => JoinElements(v, elems)
    case JObj(fields) => if "toString" in fields then None else Some("[object Object]")
  }

  /** The elements of the array `whole` (whose elements are `elems`), each
      rendered by String, separated by ','; None when one of them throws. */
  function JoinElements(ghost whole: JsonValue, elems: seq<JsonValue>): (r: Option<string>)
    requires whole.JArr? && forall e :: e in elems ==> e < whole
    ensures r.None? <==> exists e :: e in elems && !e.JNull? && JsonToString(e).None?
    decreases whole, |elems|
  {
    if elems == [] then Some("")
    else
      assert elems[0] in elems;
      assert forall e :: e in elems[1..] ==> e in elems;
      var head := if elems[0].JNull? then Some("") else JsonToString(elems[0]);
      if head.None? then None
      else if |elems| == 1 then head
      else
        var tail := JoinElements(whole, elems[1..]);
        assert forall e :: e in elems ==> e == elems[0] || e in elems[1..];
        if tail.None? then None else Some(head.value + "," + tail.value)
  }

  /** A one-element array renders as its element, except that null renders
      as the empty string. */
  lemma SingletonArrayRendersElement(e: JsonValue)
    ensures JsonToString(JArr([e])) == if e.JNull? then Some("") else JsonToString(e)
  {
  }
}
