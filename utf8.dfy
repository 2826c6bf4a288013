/** Python's strict UTF-8 codec, `str.encode()` and `bytes.decode()`: the
    payloads are text on both sides and bytes on the wire. */
module Utf8 {
  import opened Common

  /** The one to four bytes that encode a code point. */
  function EncodeChar(c: char): (r: seq<byte>)
    ensures 1 <= |r| <= 4
    ensures (c as int < 0x80) == (|r| == 1)
  {
    var cp := c as int;
    if cp < 0x80 then [cp]
    else if cp < 0x800 then [0xC0 + cp / 64, 0x80 + cp % 64]
    else if cp < 0x1_0000 then [0xE0 + cp / 4096, 0x80 + (cp / 64) % 64, 0x80 + cp % 64]
    else [0xF0 + cp / 0x4_0000, 0x80 + (cp / 4096) % 64, 0x80 + (cp / 64) % 64, 0x80 + cp % 64]
  }

  /** `s.encode()`. */
  function Encode(s: string): seq<byte>
  {
    if s == [] then [] else EncodeChar(s[0]) + Encode(s[1..])
  }

  predicate IsContinuation(b: byte) { 0x80 <= b < 0xC0 }

  /** The code point at the front of `bs` and the number of bytes it takes, or
      `None` where the strict decoder raises (a stray continuation byte, an
      overlong form, an encoded surrogate, a value past U+10FFFF, a truncated
      sequence). */
  function DecodeFirst(bs: seq<byte>): (r: Option<(char, nat)>)
    requires bs != []
    ensures r.Some? ==> 1 <= r.value.1 <= |bs|
  {
    var b0: int := bs[0];
    var b1: int := if |bs| > 1 then bs[1] else 0;
    var b2: int := if |bs| > 2 then bs[2] else 0;
    var b3: int := if |bs| > 3 then bs[3] else 0;
    if b0 < 0x80 then Some((b0 as char, 1))
    else if 0xC2 <= b0 < 0xE0 then
      if |bs| >= 2 && IsContinuation(bs[1])
      then Some((((b0 - 0xC0) * 64 + (b1 - 0x80)) as char, 2))
      else None
    else if 0xE0 <= b0 < 0xF0 then
      if && |bs| >= 3 && IsContinuation(bs[1]) && IsContinuation(bs[2])
         && (b0 == 0xE0 ==> bs[1] >= 0xA0)
         && (b0 == 0xED ==> bs[1] < 0xA0)
      then Some((((b0 - 0xE0) * 4096 + (b1 - 0x80) * 64 + (b2 - 0x80)) as char, 3))
      else None
    else if 0xF0 <= b0 < 0xF5 then
      if && |bs| >= 4 && IsContinuation(bs[1]) && IsContinuation(bs[2]) && IsContinuation(bs[3])
         && (b0 == 0xF0 ==> bs[1] >= 0x90)
         && (b0 == 0xF4 ==> bs[1] < 0x90)
      then Some((((b0 - 0xF0) * 0x4_0000 + (b1 - 0x80) * 4096 + (b2 - 0x80) * 64 + (b3 - 0x80)) as char, 4))
      else None
    else None
  }

  /** `bs.decode()`, with `None` where Python raises `UnicodeDecodeError`. */
  function Decode(bs: seq<byte>): Option<string>
    decreases |bs|
  {
    if bs == [] then Some("")
    else
      match DecodeFirst(bs)
      case None => None
      case Some((c, n)) =>
        match Decode(bs[n..])
        case None => None
        case Some(rest) => Some([c] + rest)
  }

  /** Each encoded code point decodes back to itself, consuming exactly its bytes. */
  lemma DecodeFirstOfEncoded(c: char, rest: seq<byte>)
    ensures DecodeFirst(EncodeChar(c) + rest) == Some((c, |EncodeChar(c)|))
  {
    var cp := c as int;
    if cp < 0x80 {
    } else if cp < 0x800 {
      DecodeTwo(c, rest);
    } else if cp < 0x1_0000 {
      DecodeThree(c, rest);
    } else {
      DecodeFour(c, rest);
    }
  }

  lemma DecodeTwo(c: char, rest: seq<byte>)
    requires 0x80 <= c as int < 0x800
    ensures DecodeFirst(EncodeChar(c) + rest) == Some((c, 2))
  {
    var cp := c as int;
    var q, r := cp / 64, cp % 64;
    assert cp == q * 64 + r && 2 <= q < 32;
    var bs := EncodeChar(c) + rest;
    assert bs[0] == 0xC0 + q && bs[1] == 0x80 + r;
  }

  lemma DecodeThree(c: char, rest: seq<byte>)
    requires 0x800 <= c as int < 0x1_0000
    ensures DecodeFirst(EncodeChar(c) + rest) == Some((c, 3))
  {
    var cp := c as int;
    var q, m, r := cp / 4096, (cp / 64) % 64, cp % 64;
    assert cp == q * 4096 + m * 64 + r;
    assert q < 16;
    assert q == 0 ==> m >= 0x20;
    assert q == 0xD ==> m < 0x20;
    var bs := EncodeChar(c) + rest;
    assert bs[0] == 0xE0 + q && bs[1] == 0x80 + m && bs[2] == 0x80 + r;
  }

  lemma DecodeFour(c: char, rest: seq<byte>)
    requires 0x1_0000 <= c as int
    ensures DecodeFirst(EncodeChar(c) + rest) == Some((c, 4))
  {
    var cp := c as int;
    var q, m1, m2, r := cp / 0x4_0000, (cp / 4096) % 64, (cp / 64) % 64, cp % 64;
    FourPieces(cp);
    var bs := EncodeChar(c) + rest;
    assert bs[0] == 0xF0 + q && bs[1] == 0x80 + m1 && bs[2] == 0x80 + m2 && bs[3] == 0x80 + r;
  }

  /** The four-byte form's pieces of a supplementary code point. */
  lemma FourPieces(cp: int)
    requires 0x1_0000 <= cp <= 0x10_FFFF
    ensures var q, m1, m2, r := cp / 0x4_0000, (cp / 4096) % 64, (cp / 64) % 64, cp % 64;
      && cp == q * 0x4_0000 + m1 * 4096 + m2 * 64 + r
      && 0 <= q <= 4 && 0 <= m1 < 64 && 0 <= m2 < 64 && 0 <= r < 64
      && (q == 0 ==> m1 >= 0x10) && (q == 4 ==> m1 < 0x10)
  {
    var a := cp / 64;
    var b := a / 64;
    assert cp == a * 64 + cp % 64;
    assert a == b * 64 + a % 64;
    assert b == cp / 4096;
    assert b == (b / 64) * 64 + b % 64;
    assert b / 64 == cp / 0x4_0000;
  }

  /** Decoding what `encode` produced gives the text back. */
  lemma {:induction false} DecodeEncode(s: string)
    ensures Decode(Encode(s)) == Some(s)
  {
    if s != [] {
      var e := EncodeChar(s[0]);
      DecodeFirstOfEncoded(s[0], Encode(s[1..]));
      assert (e + Encode(s[1..]))[|e|..] == Encode(s[1..]);
      DecodeEncode(s[1..]);
      assert Encode(s) == e + Encode(s[1..]);
      assert [s[0]] + s[1..] == s;
    }
  }

  /** ASCII text encodes to one byte per character, so the header's payload
      length equals the text's length. */
  lemma {:induction false} EncodeAsciiLength(s: string)
    requires forall i :: 0 <= i < |s| ==> s[i] as int < 0x80
    ensures |Encode(s)| == |s|
  {
    if s != [] {
      assert |EncodeChar(s[0])| == 1;
      EncodeAsciiLength(s[1..]);
    }
  }
}
