/** JSON values as the controller sends them, the two JavaScript coercions the panel
    applies to them, `Number(x)` and `String(x)`, and the clamp it writes with `Math`. */
module Js {
  import opened Wrappers
  import opened Strings

  /** A decoded JSON value. A key missing from an object stands for `undefined`; numbers are
      kept to integers. */
  datatype JsValue =
    | JNull
    | JBool(b: bool)
    | JNum(n: int)
    | JStr(s: string)
    | JObject(fields: map<string, JsValue>)

  /** A parameter snapshot: the object `/getparamatersasjson` answers with. */
  type Snapshot = map<string, JsValue>

  predicate AllDigits(s: string) {
    forall i :: 0 <= i < |s| ==> IsDigit(s[i])
  }

  /** The numeric value of an already-trimmed string: empty reads as 0, an optional sign
      followed by decimal digits as that integer, anything else as NaN (`None`). */
  function ParseSignedDecimal(t: string): (r: Option<int>)
    ensures t != [] && AllDigits(t) ==> r == Some(DecimalValue(t))
  {
    if t == [] then Some(0)
    else if AllDigits(t) then Some(DecimalValue(t))
    else if (t[0] == '-' || t[0] == '+') && |t| > 1 && AllDigits(t[1..]) then
      var m: int := DecimalValue(t[1..]);
      Some(if t[0] == '-' then -m else m)
    else None
  }

  /** `Number(v)`: `None` stands for NaN. `null` is 0 and booleans are 1/0, as in JavaScript. */
  function ToNumber(v: JsValue): (r: Option<int>)
    ensures v.JNull? || v.JBool? || v.JNum? ==> r.Some?
    ensures v.JNum? ==> r == Some(v.n)
    ensures v.JStr? && Trim(v.s) == [] ==> r == Some(0)
    ensures v.JObject? ==> r.None?
  {
    match v
    case JNull => Some(0)
    case JBool(b) => Some(if b then 1 else 0)
    case JNum(n) => Some(n)
    case JStr(s) => ParseSignedDecimal(Trim(s))
    case JObject(_) => None
  }

  /** `String(v)`: a string is kept as it is, and a number is written so that `Number`
      reads it back. */
  function ToJsString(v: JsValue): (r: string)
    ensures v.JStr? ==> r == v.s
    ensures v.JNum? ==> ToNumber(JStr(r)) == Some(v.n)
  {
    match v
    case JNull => "null"
    case JBool(b) => if b then "true" else "false"
    case JNum(n) => NumberOfDecimalString(n); IntToDecimal(n)
    case JStr(s) => s
    case JObject(_) => "[object Object]"
  }

  /** `String(b ? 1 : 0)`: how the panel sends a checkbox or toggle. */
  function BitString(b: bool): (r: string)
    ensures r == "1" <==> b
    ensures r == "0" <==> !b
  {
    IntToDecimal(if b then 1 else 0)
  }

  /** JavaScript truthiness: `null`, `false`, `0` and `""` are falsy; objects are truthy. */
  predicate Truthy(v: JsValue) {
    match v
    case JNull => false
    case JBool(b) => b
    case JNum(n) => n != 0
    case JStr(s) => s != []
    case JObject(_) => true
  }

  /** `Math.max(lo, Math.min(hi, v))`. */
  function Clamp(lo: int, hi: int, v: int): (r: int)
    requires lo <= hi
    ensures lo <= r <= hi
    ensures lo <= v <= hi ==> r == v
    ensures v < lo ==> r == lo
    ensures v > hi ==> r == hi
  {
    if v < lo then lo else if v > hi then hi else v
  }

  /** The decimal spelling of an integer holds digits and at most a leading minus sign. */
  lemma DecimalShape(n: int)
    ensures NoWhitespace(IntToDecimal(n))
    ensures n >= 0 ==> AllDigits(IntToDecimal(n))
    ensures n < 0 ==> IntToDecimal(n)[0] == '-' && IntToDecimal(n)[1..] == NatToDecimal(-n)
  {
    var t := IntToDecimal(n);
    forall i | 0 <= i < |t| ensures !IsWhitespace(t[i]) {
      if n < 0 && i > 0 { assert t[i] == NatToDecimal(-n)[i - 1]; }
    }
  }

  /** What `String(n)` writes, `Number` reads back: integers survive the wire as text. */
  lemma NumberOfDecimalString(n: int)
    ensures ToNumber(JStr(IntToDecimal(n))) == Some(n)
  {
    var t := IntToDecimal(n);
    DecimalShape(n);
    assert Trim(t) == t;
    if n >= 0 {
      DecimalRoundTrip(n);
    } else {
      DecimalRoundTrip(-n);
      assert !IsDigit(t[0]);
      assert !AllDigits(t);
      assert AllDigits(t[1..]);
    }
  }
}
