/**
 * UTF-8 as Python's `str.encode('utf-8')` and strict `bytes.decode('utf-8')`
 * use it: the encoder handles every Unicode scalar value, the decoder accepts
 * exactly the well-formed sequences of Unicode Table 3-7 (no overlong forms,
 * no surrogates, nothing above U+10FFFF) and fails on anything else.
 */
module Utf8 {
  import opened Wrappers

  newtype byte = x: int | 0 <= x < 256

  /** The encoding of one scalar value, one to four bytes. */
  function EncodeChar(c: char): (r: seq<byte>)
    ensures 1 <= |r| <= 4
    ensures |r| == 1 <==> c as int < 0x80
    ensures |r| == 1 ==> r[0] as int == c as int
  {
    var n := c as int;
    if n < 0x80 then [n as byte]
    else if n < 0x800 then [(0xC0 + n / 64) as byte, (0x80 + n % 64) as byte]
    else if n < 0x10000 then
      [(0xE0 + n / 4096) as byte, (0x80 + (n / 64) % 64) as byte, (0x80 + n % 64) as byte]
    else
      [(0xF0 + n / 262144) as byte, (0x80 + (n / 4096) % 64) as byte,
       (0x80 + (n / 64) % 64) as byte, (0x80 + n % 64) as byte]
  }

  /** `s.encode('utf-8')`. */
  function Encode(s: string): (r: seq<byte>)
    ensures |r| >= |s|
  {
    if s == [] then [] else EncodeChar(s[0]) + Encode(s[1..])
  }

  predicate IsAscii(s: string)
  {
    forall k :: 0 <= k < |s| ==> s[k] as int < 0x80
  }

  predicate IsCont(b: byte) { 0x80 <= b < 0xC0 }

  /** The scalar value at the start of `bs` and the number of bytes it takes, if well formed. */
  function DecodeFirst(bs: seq<byte>): (r: Option<(char, nat)>)
    requires |bs| > 0
    ensures r.Some? ==> 1 <= r.value.1 <= |bs|
  {
    var b0 := bs[0] as int;
    if b0 < 0x80 then Some((b0 as char, 1))
    else if 0xC2 <= b0 <= 0xDF then
      if |bs| >= 2 && IsCont(bs[1]) then
        Some((((b0 - 0xC0) * 64 + (bs[1] as int - 0x80)) as char, 2))
      else None
    else if 0xE0 <= b0 <= 0xEF then
      var lo := if b0 == 0xE0 then 0xA0 else 0x80;
      var hi := if b0 == 0xED then 0x9F else 0xBF;
      if |bs| >= 3 && lo <= bs[1] as int <= hi && IsCont(bs[2]) then
        var n := (b0 - 0xE0) * 4096 + (bs[1] as int - 0x80) * 64 + (bs[2] as int - 0x80);
        assert n < 0xD800 || 0xE000 <= n < 0x10000;
        Some((n as char, 3))
      else None
    else if 0xF0 <= b0 <= 0xF4 then
      var lo := if b0 == 0xF0 then 0x90 else 0x80;
      var hi := if b0 == 0xF4 then 0x8F else 0xBF;
      if |bs| >= 4 && lo <= bs[1] as int <= hi && IsCont(bs[2]) && IsCont(bs[3]) then
        var n := (b0 - 0xF0) * 262144 + (bs[1] as int - 0x80) * 4096
          + (bs[2] as int - 0x80) * 64 + (bs[3] as int - 0x80);
        assert 0x10000 <= n < 0x110000;
        Some((n as char, 4))
      else None
    else None
  }

  /** Strict `bs.decode('utf-8')`: None where Python raises UnicodeDecodeError. */
  function Decode(bs: seq<byte>): (r: Option<string>)
    decreases |bs|
  {
    if bs == [] then Some([])
    else
      match DecodeFirst(bs)
      case None => None
      case Some((c, len)) =>
        match Decode(bs[len..])
        case None => None
        case Some(rest) => Some([c] + rest)
  }

  lemma DecodeFirstOfEncodeChar(c: char, rest: seq<byte>)
    ensures var e := EncodeChar(c);
      DecodeFirst(e + rest) == Some((c, |e|))
  {
    var n := c as int;
    if n < 0x80 {
    } else if n < 0x800 {
      DecodeFirstTwo(c, rest);
    } else if n < 0x10000 {
      DecodeFirstThree(c, rest);
    } else {
      DecodeFirstFour(c, rest);
    }
  }

  lemma DecodeFirstTwo(c: char, rest: seq<byte>)
    requires 0x80 <= c as int < 0x800
    ensures DecodeFirst(EncodeChar(c) + rest) == Some((c, 2))
  {
    var n := c as int;
    var bs := EncodeChar(c) + rest;
    var d1, d0 := n / 64, n % 64;
    assert n == d1 * 64 + d0;
    assert bs[0] as int == 0xC0 + d1 && bs[1] as int == 0x80 + d0;
  }

  /** The base-64 digits of a three-byte scalar value, and the ranges Table 3-7 checks. */
  lemma ThreeDigits(n: int)
    requires 0x800 <= n < 0x10000
    ensures var d2, d1, d0 := n / 4096, (n / 64) % 64, n % 64;
      n == d2 * 4096 + d1 * 64 + d0 && 0 <= d1 < 64 && 0 <= d0 < 64 && 0 <= d2 < 16
      && (d2 == 0 ==> d1 >= 32)
  {
    var q1 := n / 64;
    assert n == q1 * 64 + n % 64;
    assert q1 == (q1 / 64) * 64 + q1 % 64;
    assert q1 / 64 == n / 4096;
  }

  lemma DecodeFirstThree(c: char, rest: seq<byte>)
    requires 0x800 <= c as int < 0x10000
    ensures DecodeFirst(EncodeChar(c) + rest) == Some((c, 3))
  {
    var n := c as int;
    ThreeDigits(n);
    var bs := EncodeChar(c) + rest;
    var d2, d1, d0 := n / 4096, (n / 64) % 64, n % 64;
    assert bs[0] as int == 0xE0 + d2 && bs[1] as int == 0x80 + d1 && bs[2] as int == 0x80 + d0;
  }

  /** The base-64 digits of a four-byte scalar value, and the ranges Table 3-7 checks. */
  lemma FourDigits(n: int)
    requires 0x10000 <= n < 0x110000
    ensures var d3, d2, d1, d0 := n / 262144, (n / 4096) % 64, (n / 64) % 64, n % 64;
      n == d3 * 262144 + d2 * 4096 + d1 * 64 + d0
      && 0 <= d2 < 64 && 0 <= d1 < 64 && 0 <= d0 < 64 && 0 <= d3 <= 4
      && (d3 == 0 ==> d2 >= 16) && (d3 == 4 ==> d2 < 16)
  {
    var q1 := n / 64;
    var q2 := q1 / 64;
    assert n == q1 * 64 + n % 64;
    assert q1 == q2 * 64 + q1 % 64;
    assert q2 == n / 4096;
    assert q2 / 64 == n / 262144;
  }

  lemma DecodeFirstFour(c: char, rest: seq<byte>)
    requires 0x10000 <= c as int
    ensures DecodeFirst(EncodeChar(c) + rest) == Some((c, 4))
  {
    var n := c as int;
    FourDigits(n);
    var bs := EncodeChar(c) + rest;
    var d3, d2, d1, d0 := n / 262144, (n / 4096) % 64, (n / 64) % 64, n % 64;
    assert bs[0] as int == 0xF0 + d3 && bs[1] as int == 0x80 + d2;
    assert bs[2] as int == 0x80 + d1 && bs[3] as int == 0x80 + d0;
  }

  lemma {:induction false} EncodeAppend(a: string, b: string)
    ensures Encode(a + b) == Encode(a) + Encode(b)
    decreases |a|
  {
    if a != [] {
      assert (a + b)[0] == a[0] && (a + b)[1..] == a[1..] + b;
      EncodeAppend(a[1..], b);
      calc {
        Encode(a + b);
        EncodeChar(a[0]) + Encode(a[1..] + b);
        EncodeChar(a[0]) + (Encode(a[1..]) + Encode(b));
        (EncodeChar(a[0]) + Encode(a[1..])) + Encode(b);
      }
    } else {
      assert a + b == b;
    }
  }

  /** Decoding what was encoded gives the string back: `s.encode().decode() == s`. */
  lemma {:induction false} DecodeEncode(s: string)
    ensures Decode(Encode(s)) == Some(s)
    decreases |s|
  {
    if s != [] {
      var e := EncodeChar(s[0]);
      var tail := Encode(s[1..]);
      DecodeFirstOfEncodeChar(s[0], tail);
      assert (e + tail)[|e|..] == tail;
      DecodeEncode(s[1..]);
      assert [s[0]] + s[1..] == s;
    }
  }

  /** A string encodes to as many bytes as it has characters exactly when it is ASCII. */
  lemma {:induction false} EncodeLengthAscii(s: string)
    ensures |Encode(s)| == |s| <==> IsAscii(s)
    ensures IsAscii(s) ==> forall k :: 0 <= k < |s| ==> Encode(s)[k] as int == s[k] as int
    decreases |s|
  {
    if s != [] {
      EncodeLengthAscii(s[1..]);
      if IsAscii(s) {
        assert IsAscii(s[1..]) by {
          forall k | 0 <= k < |s[1..]| ensures s[1..][k] as int < 0x80 {
            assert s[1..][k] == s[k + 1];
          }
        }
      } else if IsAscii(s[1..]) {
        var k :| 0 <= k < |s| && s[k] as int >= 0x80;
        if k > 0 {
          assert s[1..][k - 1] == s[k];
        }
      }
    }
  }
}
