/** `encodeURIComponent` (percent-encoding of the UTF-8 bytes of every character outside the
    unreserved set, section 2.1 of RFC 3986) and the percent-decoding a receiver applies. */
module UriEncoding {
  import opened Wrappers
  import opened Strings

  /** The characters `encodeURIComponent` leaves alone. */
  predicate IsUnreserved(c: char) {
    ('A' <= c <= 'Z') || ('a' <= c <= 'z') || ('0' <= c <= '9')
    || c == '-' || c == '_' || c == '.' || c == '!' || c == '~' || c == '*' || c == '\''
    || c == '(' || c == ')'
  }

  type Byte = b: nat | b < 256

  /** The upper-case hexadecimal digit for `d`. */
  function HexUpper(d: nat): (c: char)
    requires d < 16
    ensures IsUnreserved(c)
  {
    if d < 10 then (d + '0' as int) as char else (d - 10 + 'A' as int) as char
  }

  /** The value of one hexadecimal digit, in either case. */
  function HexValue(c: char): (r: Option<nat>)
    ensures r.Some? ==> r.value < 16
  {
    if '0' <= c <= '9' then Some(c as int - '0' as int)
    else if 'A' <= c <= 'F' then Some(c as int - 'A' as int + 10)
    else if 'a' <= c <= 'f' then Some(c as int - 'a' as int + 10)
    else None
  }

  lemma HexDigitRoundTrip(d: nat)
    requires d < 16
    ensures HexValue(HexUpper(d)) == Some(d)
  {
  }

  /** The UTF-8 encoding of one Unicode scalar value. */
  function Utf8Bytes(c: char): (r: seq<Byte>)
    ensures 1 <= |r| <= 4
    ensures (c as int < 0x80) <==> |r| == 1
    ensures c as int < 0x80 ==> r == [c as int]
  {
    var n := c as int;
    if n < 0x80 then [n]
    else if n < 0x800 then [0xC0 + n / 64, 0x80 + n % 64]
    else if n < 0x10000 then [0xE0 + n / 4096, 0x80 + (n / 64) % 64, 0x80 + n % 64]
    else [0xF0 + n / 262144, 0x80 + (n / 4096) % 64, 0x80 + (n / 64) % 64, 0x80 + n % 64]
  }

  /** `%XY` for every byte, with upper-case digits. */
  function PercentEncodeBytes(bs: seq<Byte>): (r: string)
    ensures |r| == 3 * |bs|
    ensures forall i :: 0 <= i < |r| ==> IsUnreserved(r[i]) || r[i] == '%'
  {
    if bs == [] then "" else ['%', HexUpper(bs[0] / 16), HexUpper(bs[0] % 16)] + PercentEncodeBytes(bs[1..])
  }

  function EncodeChar(c: char): (r: string)
    ensures forall i :: 0 <= i < |r| ==> IsUnreserved(r[i]) || r[i] == '%'
  {
    if IsUnreserved(c) then [c] else PercentEncodeBytes(Utf8Bytes(c))
  }

  /** `encodeURIComponent(s)`: its output holds only unreserved characters and `%`, so it
      never contains a query delimiter such as `&`, `=`, `?` or `#`. */
  function EncodeURIComponent(s: string): (r: string)
    ensures forall i :: 0 <= i < |r| ==> IsUnreserved(r[i]) || r[i] == '%'
  {
    if s == [] then "" else EncodeChar(s[0]) + EncodeURIComponent(s[1..])
  }

  function Prepend<T>(xs: seq<T>, r: Option<seq<T>>): Option<seq<T>> {
    match r
    case Some(ys) => Some(xs + ys)
    case None => None
  }

  /** Percent-decoding to bytes; a literal character stands for its own UTF-8 bytes. */
  function PercentDecode(s: string): Option<seq<Byte>> {
    if s == [] then Some([])
    else if s[0] == '%' then
      if |s| < 3 then None
      else match (HexValue(s[1]), HexValue(s[2]))
        case (Some(h), Some(l)) => Prepend([h * 16 + l], PercentDecode(s[3..]))
        case _ => None
    else Prepend(Utf8Bytes(s[0]), PercentDecode(s[1..]))
  }

  predicate IsScalar(cp: int) {
    (0 <= cp < 0xD800) || (0xE000 <= cp <= 0x10FFFF)
  }

  /** The length of the UTF-8 sequence a lead byte announces; 0 for an invalid lead byte. */
  function SequenceLength(b0: Byte): nat {
    if b0 < 0x80 then 1
    else if 0xC0 <= b0 < 0xE0 then 2
    else if 0xE0 <= b0 < 0xF0 then 3
    else if 0xF0 <= b0 < 0xF8 then 4
    else 0
  }

  predicate Continuations(bs: seq<Byte>, n: nat)
    requires n <= |bs|
  {
    forall k :: 1 <= k < n ==> 0x80 <= bs[k] < 0xC0
  }

  function CodePoint(bs: seq<Byte>, n: nat): int
    requires 1 <= n <= 4 && n <= |bs|
  {
    var b0: int := bs[0];
    if n == 1 then b0
    else
      var b1: int := bs[1] as int - 0x80;
      if n == 2 then (b0 - 0xC0) * 64 + b1
      else
        var b2: int := bs[2] as int - 0x80;
        if n == 3 then (b0 - 0xE0) * 4096 + b1 * 64 + b2
        else (b0 - 0xF0) * 262144 + b1 * 4096 + b2 * 64 + (bs[3] as int - 0x80)
  }

  /** The smallest code point that needs `n` bytes (shorter, overlong forms are rejected). */
  function MinCodePoint(n: nat): int {
    if n <= 1 then 0 else if n == 2 then 0x80 else if n == 3 then 0x800 else 0x10000
  }

  /** Strict UTF-8 decoding. */
  function Utf8Decode(bs: seq<Byte>): Option<string>
    decreases |bs|
  {
    if bs == [] then Some([])
    else
      var n := SequenceLength(bs[0]);
      if n == 0 || |bs| < n || !Continuations(bs, n) then None
      else
        var cp := CodePoint(bs, n);
        if cp < MinCodePoint(n) || !IsScalar(cp) then None
        else Prepend([cp as char], Utf8Decode(bs[n..]))
  }

  /** `decodeURIComponent`. */
  function DecodeURIComponent(s: string): Option<string> {
    match PercentDecode(s)
    case Some(bs) => Utf8Decode(bs)
    case None => None
  }

  function Utf8Encode(s: string): seq<Byte> {
    if s == [] then [] else Utf8Bytes(s[0]) + Utf8Encode(s[1..])
  }

  /** One `%XY` triple decodes to its byte. */
  lemma TripleDecodes(b: Byte, tail: string)
    ensures PercentDecode(['%', HexUpper(b / 16), HexUpper(b % 16)] + tail) == Prepend([b], PercentDecode(tail))
  {
    var u := ['%', HexUpper(b / 16), HexUpper(b % 16)] + tail;
    HexDigitRoundTrip(b / 16);
    HexDigitRoundTrip(b % 16);
    assert u[3..] == tail;
  }

  lemma {:induction false} PercentBytesRoundTrip(bs: seq<Byte>, rest: string)
    ensures PercentDecode(PercentEncodeBytes(bs) + rest) == Prepend(bs, PercentDecode(rest))
  {
    if bs != [] {
      var b := bs[0];
      var tail := PercentEncodeBytes(bs[1..]) + rest;
      assert PercentEncodeBytes(bs) + rest == ['%', HexUpper(b / 16), HexUpper(b % 16)] + tail;
      TripleDecodes(b, tail);
      PercentBytesRoundTrip(bs[1..], rest);
      PrependCons(bs, PercentDecode(rest));
    } else {
      assert PercentEncodeBytes(bs) + rest == rest;
      PrependCons([], PercentDecode(rest));
    }
  }

  /** Prepending the first element and then the others is prepending them all. */
  lemma PrependCons<T>(xs: seq<T>, r: Option<seq<T>>)
    ensures xs != [] ==> Prepend([xs[0]], Prepend(xs[1..], r)) == Prepend(xs, r)
    ensures xs == [] ==> Prepend(xs, r) == r
  {
    match r
    case None =>
    case Some(ys) =>
      if xs != [] {
        assert [xs[0]] + (xs[1..] + ys) == xs + ys;
      } else {
        assert xs + ys == ys;
      }
  }

  lemma {:induction false} PercentDecodeOfEncoding(s: string)
    ensures PercentDecode(EncodeURIComponent(s)) == Some(Utf8Encode(s))
  {
    if s != [] {
      var c := s[0];
      PercentDecodeOfEncoding(s[1..]);
      var rest := EncodeURIComponent(s[1..]);
      if IsUnreserved(c) {
        assert ([c] + rest)[1..] == rest;
      } else {
        PercentBytesRoundTrip(Utf8Bytes(c), rest);
      }
    }
  }

  lemma Split2(n: int)
    requires 0 <= n
    ensures (n / 64) * 64 + n % 64 == n
  {
  }

  lemma Split3(n: int)
    requires 0 <= n
    ensures (n / 4096) * 4096 + ((n / 64) % 64) * 64 + n % 64 == n
  {
    var q := n / 64;
    Split2(n);
    Split2(q);
    assert q / 64 == n / 4096;
  }

  lemma Split4(n: int)
    requires 0 <= n
    ensures (n / 262144) * 262144 + ((n / 4096) % 64) * 4096 + ((n / 64) % 64) * 64 + n % 64 == n
  {
    var q := n / 4096;
    Split3(n);
    Split2(q);
    assert q / 64 == n / 262144;
  }

  /** Decoding the bytes of one character gives that character back. */
  lemma Utf8CharRoundTrip(c: char, rest: seq<Byte>)
    ensures Utf8Decode(Utf8Bytes(c) + rest) == Prepend([c], Utf8Decode(rest))
  {
    var n := c as int;
    var len := |Utf8Bytes(c)|;
    var bs := Utf8Bytes(c) + rest;
    assert bs[len..] == rest;
    if n < 0x80 {
      assert (n as char) == c;
    } else if n < 0x800 {
      TwoByteChar(c, bs);
    } else if n < 0x10000 {
      ThreeByteChar(c, bs);
    } else {
      FourByteChar(c, bs);
    }
    DecodeOneStep(bs, len, c);
  }

  /** A lead byte and its continuations that spell out `c` decode to `c`, then the rest. */
  lemma DecodeOneStep(bs: seq<Byte>, n: nat, c: char)
    requires 1 <= n <= 4 && n <= |bs| && SequenceLength(bs[0]) == n && Continuations(bs, n)
    requires CodePoint(bs, n) == c as int && MinCodePoint(n) <= c as int
    ensures Utf8Decode(bs) == Prepend([c], Utf8Decode(bs[n..]))
  {
    assert IsScalar(c as int);
    assert (CodePoint(bs, n) as char) == c;
  }

  lemma TwoByteChar(c: char, bs: seq<Byte>)
    requires 0x80 <= c as int < 0x800 && 2 <= |bs| && bs[..2] == Utf8Bytes(c)
    ensures SequenceLength(bs[0]) == 2 && Continuations(bs, 2)
    ensures CodePoint(bs, 2) == c as int && MinCodePoint(2) <= c as int
  {
    Split2(c as int);
    assert bs[0] == Utf8Bytes(c)[0] && bs[1] == Utf8Bytes(c)[1];
  }

  lemma ThreeByteChar(c: char, bs: seq<Byte>)
    requires 0x800 <= c as int < 0x10000 && 3 <= |bs| && bs[..3] == Utf8Bytes(c)
    ensures SequenceLength(bs[0]) == 3 && Continuations(bs, 3)
    ensures CodePoint(bs, 3) == c as int && MinCodePoint(3) <= c as int
  {
    Split3(c as int);
    assert bs[0] == Utf8Bytes(c)[0] && bs[1] == Utf8Bytes(c)[1] && bs[2] == Utf8Bytes(c)[2];
  }

  lemma FourByteChar(c: char, bs: seq<Byte>)
    requires 0x10000 <= c as int && 4 <= |bs| && bs[..4] == Utf8Bytes(c)
    ensures SequenceLength(bs[0]) == 4 && Continuations(bs, 4)
    ensures CodePoint(bs, 4) == c as int && MinCodePoint(4) <= c as int
  {
    Split4(c as int);
    assert bs[0] == Utf8Bytes(c)[0] && bs[1] == Utf8Bytes(c)[1];
    assert bs[2] == Utf8Bytes(c)[2] && bs[3] == Utf8Bytes(c)[3];
  }

  lemma {:induction false} Utf8RoundTrip(s: string)
    ensures Utf8Decode(Utf8Encode(s)) == Some(s)
  {
    if s != [] {
      Utf8RoundTrip(s[1..]);
      Utf8CharRoundTrip(s[0], Utf8Encode(s[1..]));
      assert [s[0]] + s[1..] == s;
    }
  }

  /** Every string survives `encodeURIComponent` followed by decoding. */
  lemma DecodeRoundTrip(s: string)
    ensures DecodeURIComponent(EncodeURIComponent(s)) == Some(s)
  {
    PercentDecodeOfEncoding(s);
    Utf8RoundTrip(s);
  }
}
