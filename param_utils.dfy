/** Typed reads from a parameter snapshot (src/utils/paramUtils.js): the only place where
    the controller's loosely typed values are turned into numbers, strings and flags. */
module ParamUtils {
  import opened Wrappers
  import opened Strings
  import opened Js

  /** The snapshot as the panel holds it: `null` before the first successful fetch. */
  type Params = Option<Snapshot>

  /** `hasParam`: an own key of a non-null snapshot. A parameter that is not there has no
      value and reads as no number. */
  function HasParam(params: Params, key: string): (r: bool)
    ensures r <==> params.Some? && ValueAt(params.value, key).Some?
    ensures !r ==> NumberAt(params, key).None?
  {
    params.Some? && key in params.value
  }

  /** `params[key]`, with `None` for `undefined`. */
  function ValueAt(params: Snapshot, key: string): (r: Option<JsValue>)
    ensures r.Some? <==> key in params
    ensures r.Some? ==> r.value == params[key]
  {
    if key in params then Some(params[key]) else None
  }

  /** The number `readNumber` returns when it does not fall back: `None` when the snapshot is
      null or the value does not coerce to a finite number. `readNumber(params, key, null)`
      is exactly this. */
  function NumberAt(params: Params, key: string): (r: Option<int>)
    ensures params.None? ==> r.None?
    ensures params.Some? && key !in params.value ==> r.None?
    ensures params.Some? && key in params.value ==> r == ToNumber(params.value[key])
  {
    match params
    case None => None
    case Some(p) => if key in p then ToNumber(p[key]) else None
  }

  /** `readNumber(params, key, fallback)`. */
  function ReadNumber(params: Params, key: string, fallback: int): (r: int)
    ensures NumberAt(params, key).None? ==> r == fallback
    ensures NumberAt(params, key).Some? ==> r == NumberAt(params, key).value
  {
    NumberAt(params, key).GetOr(fallback)
  }

  /** `readString(params, key, fallback)`: the fallback for a null snapshot or a
      null/undefined value, otherwise `String(value)`. */
  function ReadString(params: Params, key: string, fallback: string): (r: string)
    ensures params.None? ==> r == fallback
    ensures params.Some? && (key !in params.value || params.value[key] == JNull) ==> r == fallback
    ensures params.Some? && key in params.value && params.value[key] != JNull ==>
              r == ToJsString(params.value[key])
  {
    match params
    case None => fallback
    case Some(p) =>
      match ValueAt(p, key)
      case None => fallback
      case Some(JNull) => fallback
      case Some(v) => ToJsString(v)
  }

  /** The strings `readBool` accepts as true, after lower-casing. */
  predicate IsTrueWord(w: string) {
    w == "1" || w == "true" || w == "yes"
  }

  /** `readBool(params, key, fallback)`. */
  function ReadBool(params: Params, key: string, fallback: bool): (r: bool)
    ensures params.None? ==> r == fallback
    ensures params.Some? && (key !in params.value || params.value[key] == JNull) ==> r == fallback
    ensures params.Some? && key in params.value && params.value[key] != JNull ==>
              (r <==> IsTrueWord(ToLower(ToJsString(params.value[key]))))
  {
    match params
    case None => fallback
    case Some(p) =>
      match ValueAt(p, key)
      case None => fallback
      case Some(JNull) => fallback
      case Some(v) => IsTrueWord(ToLower(ToJsString(v)))
  }

  /** Lower-casing is idempotent, so `readBool` ignores letter case. */
  lemma {:induction false} ToLowerIdempotent(s: string)
    ensures ToLower(ToLower(s)) == ToLower(s)
  {
    if s != [] {
      ToLowerIdempotent(s[1..]);
    }
  }

  /** `readBool` is case-insensitive: a string value reads the same as its lower-cased form. */
  lemma ReadBoolIgnoresCase(p: Snapshot, key: string, s: string, fallback: bool)
    ensures ReadBool(Some(p[key := JStr(s)]), key, fallback)
            == ReadBool(Some(p[key := JStr(ToLower(s))]), key, fallback)
  {
    ToLowerIdempotent(s);
  }

  /** `TRUE` and `Yes` both read as true. */
  lemma ReadBoolUpperCaseWords(p: Snapshot, key: string, fallback: bool)
    ensures ReadBool(Some(p[key := JStr("TRUE")]), key, fallback)
    ensures ReadBool(Some(p[key := JStr("Yes")]), key, fallback)
  {
    var t := ToLower("TRUE");
    assert t[0] == 't' && t[1] == 'r' && t[2] == 'u' && t[3] == 'e';
    assert t == "true";
    var y := ToLower("Yes");
    assert y[0] == 'y' && y[1] == 'e' && y[2] == 's';
    assert y == "yes";
  }

  /** A present value other than the three true words reads as false, whatever the
      fallback: `0`, `on` and the empty string are all false. */
  lemma ReadBoolPresentIgnoresFallback(p: Snapshot, key: string, s: string)
    requires !IsTrueWord(ToLower(s))
    ensures !ReadBool(Some(p[key := JStr(s)]), key, true)
    ensures !ReadBool(Some(p[key := JStr("0")]), key, true)
    ensures !ReadBool(Some(p[key := JStr("on")]), key, true)
    ensures !ReadBool(Some(p[key := JStr("")]), key, true)
  {
    assert ToLower("on") == "on";
    assert ToLower("0") == "0";
  }

  /** The decimal form of an integer has no letters, so lower-casing leaves it alone. */
  lemma DecimalIsLower(n: int)
    ensures ToLower(IntToDecimal(n)) == IntToDecimal(n)
  {
    var d := IntToDecimal(n);
    DecimalShape(n);
    forall i | 0 <= i < |d| ensures ToLower(d)[i] == d[i] {
      if n < 0 && i > 0 { assert d[i] == NatToDecimal(-n)[i - 1]; }
    }
  }

  /** Of the decimal forms, only that of 1 is a true word. */
  lemma DecimalTrueWord(n: int)
    ensures IsTrueWord(IntToDecimal(n)) <==> n == 1
  {
    var d := IntToDecimal(n);
    DecimalShape(n);
    if n == 1 {
      assert d == "1";
    } else if n >= 0 {
      assert d != "1" by {
        if n < 10 { assert d == [DigitChar(n)]; }
      }
      assert d != "true" && d != "yes" by { assert IsDigit(d[0]); }
    } else {
      assert d[0] == '-';
    }
  }

  /** A numeric value reads as true exactly when it is 1. */
  lemma ReadBoolOfNumber(p: Snapshot, key: string, n: int, fallback: bool)
    ensures ReadBool(Some(p[key := JNum(n)]), key, fallback) <==> n == 1
  {
    DecimalIsLower(n);
    DecimalTrueWord(n);
  }

  /** A boolean value reads as itself. */
  lemma ReadBoolOfBool(p: Snapshot, key: string, b: bool, fallback: bool)
    ensures ReadBool(Some(p[key := JBool(b)]), key, fallback) == b
  {
    BoolWordsLower();
  }

  lemma BoolWordsLower()
    ensures ToLower("true") == "true" && ToLower("false") == "false"
  {
  }

  /** A string the controller wrote with `String(n)` reads back as `n`. */
  lemma ReadNumberOfDecimal(p: Snapshot, key: string, n: int, fallback: int)
    ensures ReadNumber(Some(p[key := JStr(IntToDecimal(n))]), key, fallback) == n
    ensures ReadNumber(Some(p[key := JNull]), key, fallback) == 0
  {
    NumberOfDecimalString(n);
  }
}
