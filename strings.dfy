/** The few JavaScript string operations the control panel relies on, over `seq<char>`. */
module Strings {

  /** ECMAScript WhiteSpace and LineTerminator code points: what `String.prototype.trim` removes. */
  predicate IsWhitespace(c: char) {
    c == ' ' || c == '\t' || c == '\n' || c == '\r' || c == '\U{000B}' || c == '\U{000C}'
    || c == '\U{00A0}' || c == '\U{1680}' || ('\U{2000}' <= c <= '\U{200A}')
    || c == '\U{2028}' || c == '\U{2029}' || c == '\U{202F}' || c == '\U{205F}'
    || c == '\U{3000}' || c == '\U{FEFF}'
  }

  predicate NoWhitespace(s: string) {
    forall i :: 0 <= i < |s| ==> !IsWhitespace(s[i])
  }

  predicate StartsWith(s: string, prefix: string) {
    |prefix| <= |s| && s[..|prefix|] == prefix
  }

  predicate EndsWith(s: string, c: char) {
    |s| > 0 && s[|s| - 1] == c
  }

  /** Leading whitespace removed. */
  function TrimStart(s: string): (r: string)
    ensures |r| <= |s| && r == s[|s| - |r|..]
    ensures forall i :: 0 <= i < |s| - |r| ==> IsWhitespace(s[i])
    ensures r != [] ==> !IsWhitespace(r[0])
  {
    if s != [] && IsWhitespace(s[0]) then TrimStart(s[1..]) else s
  }

  /** Trailing whitespace removed. */
  function TrimEnd(s: string): (r: string)
    ensures |r| <= |s| && r == s[..|r|]
    ensures forall i :: |r| <= i < |s| ==> IsWhitespace(s[i])
    ensures r != [] ==> !IsWhitespace(r[|r| - 1])
  {
    if s != [] && IsWhitespace(s[|s| - 1]) then TrimEnd(s[..|s| - 1]) else s
  }

  /** `String.prototype.trim`. */
  function Trim(s: string): (r: string)
    ensures r != [] ==> !IsWhitespace(r[0]) && !IsWhitespace(r[|r| - 1])
    ensures NoWhitespace(s) ==> r == s
    ensures r == [] <==> forall i :: 0 <= i < |s| ==> IsWhitespace(s[i])
  {
    var t := TrimStart(s);
    var r := TrimEnd(t);
    assert NoWhitespace(s) ==> t == s && r == t by {
      if NoWhitespace(s) {
        assert s != [] ==> !IsWhitespace(s[0]);
        assert t == s;
        assert s != [] ==> !IsWhitespace(s[|s| - 1]);
      }
    }
    assert r == [] ==> forall i :: 0 <= i < |s| ==> IsWhitespace(s[i]) by {
      if r == [] {
        assert t == [];
      }
    }
    assert r != [] ==> exists i :: 0 <= i < |s| && !IsWhitespace(s[i]) by {
      if r != [] { assert r[0] == s[|s| - |t|]; }
    }
    r
  }

  /** Lower-cases the ASCII letters `A`..`Z`; every other character is kept. */
  function ToLowerChar(c: char): (r: char)
    ensures 'A' <= c <= 'Z' ==> r as int == c as int + 32
    ensures !('A' <= c <= 'Z') ==> r == c
  {
    if 'A' <= c <= 'Z' then (c as int + 32) as char else c
  }

  /** `String.prototype.toLowerCase`, restricted to ASCII letters. */
  function ToLower(s: string): (r: string)
    ensures |r| == |s|
    ensures forall i :: 0 <= i < |s| ==> r[i] == ToLowerChar(s[i])
  {
    if s == [] then [] else [ToLowerChar(s[0])] + ToLower(s[1..])
  }

  /** `String.prototype.includes`. */
  predicate Contains(s: string, sub: string)
    decreases |s|
  {
    StartsWith(s, sub) || (s != [] && Contains(s[1..], sub))
  }

  /** An occurrence at any position is found. */
  lemma {:induction false} ContainsAt(s: string, sub: string, i: nat)
    requires i <= |s| && StartsWith(s[i..], sub)
    ensures Contains(s, sub)
  {
    if i > 0 {
      assert s[1..][i - 1..] == s[i..];
      ContainsAt(s[1..], sub, i - 1);
    }
  }

  /** The decimal digit for `d`. */
  function DigitChar(d: nat): (c: char)
    requires d < 10
    ensures '0' <= c <= '9' && c as int - '0' as int == d
  {
    (d + '0' as int) as char
  }

  predicate IsDigit(c: char) {
    '0' <= c <= '9'
  }

  /** The decimal spelling of a non-negative integer, without leading zeros. */
  function NatToDecimal(n: nat): (r: string)
    ensures |r| >= 1 && IsDigit(r[0])
    ensures forall i :: 0 <= i < |r| ==> IsDigit(r[i])
    ensures |r| == 1 <==> n < 10
    ensures n < 10 ==> r == [DigitChar(n)]
  {
    if n < 10 then [DigitChar(n)] else NatToDecimal(n / 10) + [DigitChar(n % 10)]
  }

  /** `String(n)` for an integer `n`: a minus sign before the digits of a negative number. */
  function IntToDecimal(n: int): (r: string)
    ensures n >= 0 ==> r == NatToDecimal(n)
    ensures n < 0 ==> r == "-" + NatToDecimal(-n)
  {
    if n >= 0 then NatToDecimal(n) else "-" + NatToDecimal(-n)
  }

  /** The value of a non-empty string of decimal digits. */
  function DecimalValue(s: string): (n: nat)
    requires s != [] && forall i :: 0 <= i < |s| ==> IsDigit(s[i])
  {
    assert IsDigit(s[|s| - 1]);
    var last := s[|s| - 1] as int - '0' as int;
    if |s| == 1 then last else 10 * DecimalValue(s[..|s| - 1]) + last
  }

  /** Reading back the decimal spelling gives the number. */
  lemma {:induction false} DecimalRoundTrip(n: nat)
    ensures DecimalValue(NatToDecimal(n)) == n
  {
    if n >= 10 {
      var r := NatToDecimal(n);
      assert r[..|r| - 1] == NatToDecimal(n / 10);
      DecimalRoundTrip(n / 10);
    }
  }

  /** Removes every trailing occurrence of `c` (the regular expression `c+$`). */
  function StripTrailing(s: string, c: char): (r: string)
    ensures |r| <= |s| && r == s[..|r|]
    ensures forall i :: |r| <= i < |s| ==> s[i] == c
    ensures !EndsWith(r, c)
  {
    if EndsWith(s, c) then StripTrailing(s[..|s| - 1], c) else s
  }

  /** The index of the first `c` in `s`, or `|s|` when there is none. */
  function IndexOf(s: string, c: char): (i: nat)
    ensures i <= |s|
    ensures i < |s| <==> c in s
    ensures i < |s| ==> s[i] == c
    ensures forall j :: 0 <= j < i ==> s[j] != c
  {
    if s == [] then 0 else if s[0] == c then 0 else 1 + IndexOf(s[1..], c)
  }

  lemma IndexOfAfter(a: string, c: char, b: string)
    requires c !in a
    ensures IndexOf(a + [c] + b, c) == |a|
  {
    var u := a + [c] + b;
    assert u[|a|] == c;
    assert forall j :: 0 <= j < |a| ==> u[j] == a[j];
  }

  /** `String.prototype.split` with a one-character separator: always at least one piece. */
  function SplitOn(s: string, sep: char): (r: seq<string>)
    ensures |r| >= 1
  {
    if s == [] then [[]]
    else if s[0] == sep then [[]] + SplitOn(s[1..], sep)
    else
      var rest := SplitOn(s[1..], sep);
      [[s[0]] + rest[0]] + rest[1..]
  }

  lemma {:induction false} SplitWithout(s: string, sep: char)
    requires sep !in s
    ensures SplitOn(s, sep) == [s]
  {
    if s != [] {
      SplitWithout(s[1..], sep);
      assert [s[0]] + s[1..] == s;
    }
  }

  lemma {:induction false} SplitAt(a: string, sep: char, b: string)
    requires sep !in a
    ensures SplitOn(a + [sep] + b, sep) == [a] + SplitOn(b, sep)
  {
    if a == [] {
      assert a + [sep] + b == [sep] + b;
      assert ([sep] + b)[1..] == b;
    } else {
      SplitAt(a[1..], sep, b);
      assert (a + [sep] + b)[1..] == a[1..] + [sep] + b;
      assert [a[0]] + a[1..] == a;
    }
  }
}
