/**
 * UTF-8 as Foundation applies it to `String.utf8`, `Data(s.utf8)` and
 * `String(data:encoding: .utf8)`: encoding a string of Unicode scalar values
 * and decoding a byte sequence that is either well-formed UTF-8
 * (section 3 of RFC 3629) or rejected as a whole.
 */
module Utf8 {
  import opened Wrappers

  type byte = x: int | 0 <= x < 256
  type Bytes = seq<byte>

  predicate IsContinuation(b: byte) {
    0x80 <= b <= 0xBF
  }

  /** The bytes of one scalar value, in the shortest form. */
  function EncodeChar(c: char): (r: Bytes)
    ensures 1 <= |r| <= 4
  {
    var cp := c as int;
    if cp < 0x80 then [cp]
    else if cp < 0x800 then [0xC0 + cp / 64, 0x80 + cp % 64]
    else if cp < 0x10000 then [0xE0 + cp / 4096, 0x80 + (cp / 64) % 64, 0x80 + cp % 64]
    else [0xF0 + cp / 262144, 0x80 + (cp / 4096) % 64, 0x80 + (cp / 64) % 64, 0x80 + cp % 64]
  }

  function Encode(s: string): (r: Bytes)
    ensures |r| >= |s|
  {
    if s == [] then [] else EncodeChar(s[0]) + Encode(s[1..])
  }

  /**
   * Length of the well-formed sequence that starts `b`, or 0 when no
   * well-formed sequence starts there (the table of well-formed byte
   * sequences of section 4 of RFC 3629).
   */
  function SequenceLength(b: Bytes): (n: nat)
    ensures n <= 4 && n <= |b|
  {
    if |b| == 0 then 0
    else if b[0] < 0x80 then 1
    else if 0xC2 <= b[0] <= 0xDF then
      if |b| >= 2 && IsContinuation(b[1]) then 2 else 0
    else if 0xE0 <= b[0] <= 0xEF then
      var lo := if b[0] == 0xE0 then 0xA0 else 0x80;
      var hi := if b[0] == 0xED then 0x9F else 0xBF;
      if |b| >= 3 && lo <= b[1] <= hi && IsContinuation(b[2]) then 3 else 0
    else if 0xF0 <= b[0] <= 0xF4 then
      var lo := if b[0] == 0xF0 then 0x90 else 0x80;
      var hi := if b[0] == 0xF4 then 0x8F else 0xBF;
      if |b| >= 4 && lo <= b[1] <= hi && IsContinuation(b[2]) && IsContinuation(b[3]) then 4 else 0
    else 0
  }

  /** The scalar value of the well-formed sequence at the head of `b`. */
  function DecodeHead(b: Bytes): (c: char)
    requires SequenceLength(b) > 0
  {
    ScalarOf(b) as char
  }

  /** The code point the well-formed sequence at the head of `b` stands for. */
  function ScalarOf(b: Bytes): (cp: int)
    requires SequenceLength(b) > 0
    ensures 0 <= cp < 0xD800 || 0xE000 <= cp < 0x11_0000
  {
    var n := SequenceLength(b);
    var b0, b1, b2, b3 := b[0] as int, if n > 1 then b[1] as int else 0x80,
                          if n > 2 then b[2] as int else 0x80, if n > 3 then b[3] as int else 0x80;
    if n == 1 then b0
    else if n == 2 then (b0 - 0xC0) * 64 + (b1 - 0x80)
    else if n == 3 then (b0 - 0xE0) * 4096 + (b1 - 0x80) * 64 + (b2 - 0x80)
    else (b0 - 0xF0) * 262144 + (b1 - 0x80) * 4096 + (b2 - 0x80) * 64 + (b3 - 0x80)
  }

  /** `String(data:encoding: .utf8)`: nil unless the whole input is well-formed. */
  function Decode(b: Bytes): (r: Option<string>)
    ensures b == [] ==> r == Some([])
    ensures r.Some? ==> |r.value| <= |b|
    decreases |b|
  {
    if b == [] then Some([])
    else
      var n := SequenceLength(b);
      if n == 0 then None
      else
        match Decode(b[n..])
        case None => None
        case Some(rest) => Some([DecodeHead(b)] + rest)
  }

  lemma EncodeCharIsWellFormed(c: char, rest: Bytes)
    ensures SequenceLength(EncodeChar(c) + rest) == |EncodeChar(c)|
    ensures DecodeHead(EncodeChar(c) + rest) == c
  {
    var cp := c as int;
    if cp < 0x80 {
    } else if cp < 0x800 {
      WellFormedTwo(c, rest);
    } else if cp < 0x10000 {
      WellFormedThree(c, rest);
    } else {
      WellFormedFour(c, rest);
    }
  }

  lemma WellFormedTwo(c: char, rest: Bytes)
    requires 0x80 <= c as int < 0x800
    ensures SequenceLength(EncodeChar(c) + rest) == 2 && ScalarOf(EncodeChar(c) + rest) == c as int
  {
    var cp := c as int;
    var b := EncodeChar(c) + rest;
    assert b[0] == 0xC0 + cp / 64 && b[1] == 0x80 + cp % 64;
  }

  lemma WellFormedThree(c: char, rest: Bytes)
    requires 0x800 <= c as int < 0x10000
    ensures SequenceLength(EncodeChar(c) + rest) == 3 && ScalarOf(EncodeChar(c) + rest) == c as int
  {
    var cp := c as int;
    var b := EncodeChar(c) + rest;
    assert b[0] == 0xE0 + cp / 4096;
    assert b[1] == 0x80 + (cp / 64) % 64;
    assert b[2] == 0x80 + cp % 64;
    assert cp / 4096 * 64 + (cp / 64) % 64 == cp / 64;
  }

  lemma WellFormedFour(c: char, rest: Bytes)
    requires 0x10000 <= c as int
    ensures SequenceLength(EncodeChar(c) + rest) == 4 && ScalarOf(EncodeChar(c) + rest) == c as int
  {
    var cp := c as int;
    var b := EncodeChar(c) + rest;
    assert b[0] == 0xF0 + cp / 262144;
    assert b[1] == 0x80 + (cp / 4096) % 64;
    assert b[2] == 0x80 + (cp / 64) % 64;
    assert b[3] == 0x80 + cp % 64;
    assert cp / 262144 * 64 + (cp / 4096) % 64 == cp / 4096;
    assert cp / 4096 * 64 + (cp / 64) % 64 == cp / 64;
  }

  /** Decoding what was encoded gives the string back. */
  lemma {:induction false} DecodeEncode(s: string)
    ensures Decode(Encode(s)) == Some(s)
  {
    if s != [] {
      var e := EncodeChar(s[0]);
      var b := Encode(s);
      assert b == e + Encode(s[1..]);
      EncodeCharIsWellFormed(s[0], Encode(s[1..]));
      var n := SequenceLength(b);
      assert n == |e|;
      assert b[n..] == Encode(s[1..]);
      DecodeEncode(s[1..]);
      assert Decode(b) == Some([DecodeHead(b)] + s[1..]);
      assert [s[0]] + s[1..] == s;
    }
  }

  /** A decodable byte sequence is exactly the encoding of what it decodes to. */
  lemma {:induction false} EncodeDecode(b: Bytes)
    requires Decode(b).Some?
    ensures Encode(Decode(b).value) == b
  {
    if b != [] {
      var n := SequenceLength(b);
      var s := Decode(b).value;
      assert s == [DecodeHead(b)] + Decode(b[n..]).value;
      assert s[0] == DecodeHead(b) && s[1..] == Decode(b[n..]).value;
      EncodeDecode(b[n..]);
      HeadRoundTrip(b);
      assert Encode(s) == EncodeChar(s[0]) + Encode(s[1..]);
      assert b == b[..n] + b[n..];
    }
  }

  lemma HeadRoundTrip(b: Bytes)
    requires SequenceLength(b) > 0
    ensures EncodeChar(DecodeHead(b)) == b[..SequenceLength(b)]
  {
    var n := SequenceLength(b);
    assert DecodeHead(b) as int == ScalarOf(b);
    if n == 2 {
      HeadTwo(b);
    } else if n == 3 {
      HeadThree(b);
    } else if n == 4 {
      HeadFour(b);
    }
  }

  lemma HeadTwo(b: Bytes)
    requires SequenceLength(b) == 2
    ensures EncodeChar(ScalarOf(b) as char) == b[..2]
  {
    Split64(b[0] as int - 0xC0, b[1] as int - 0x80);
  }

  lemma HeadThree(b: Bytes)
    requires SequenceLength(b) == 3
    ensures EncodeChar(ScalarOf(b) as char) == b[..3]
  {
    var cp := ScalarOf(b);
    var hi := (b[0] as int - 0xE0) * 64 + (b[1] as int - 0x80);
    assert cp == hi * 64 + (b[2] as int - 0x80);
    Split64(hi, b[2] as int - 0x80);
    Split64(b[0] as int - 0xE0, b[1] as int - 0x80);
    Div4096(cp);
  }

  lemma HeadFour(b: Bytes)
    requires SequenceLength(b) == 4
    ensures EncodeChar(ScalarOf(b) as char) == b[..4]
  {
    var cp := ScalarOf(b);
    var top := (b[0] as int - 0xF0) * 64 + (b[1] as int - 0x80);
    var hi := top * 64 + (b[2] as int - 0x80);
    assert cp == hi * 64 + (b[3] as int - 0x80);
    Split64(hi, b[3] as int - 0x80);
    Split64(top, b[2] as int - 0x80);
    Split64(b[0] as int - 0xF0, b[1] as int - 0x80);
    Div4096(cp);
    Div262144(cp);
  }

  lemma Split64(hi: int, lo: int)
    requires 0 <= hi && 0 <= lo < 64
    ensures (hi * 64 + lo) / 64 == hi && (hi * 64 + lo) % 64 == lo
  {
  }

  lemma Div4096(cp: int)
    requires 0 <= cp
    ensures cp / 4096 == (cp / 64) / 64
  {
  }

  lemma Div262144(cp: int)
    requires 0 <= cp
    ensures cp / 262144 == ((cp / 64) / 64) / 64
  {
  }

  lemma EncodeAppend(s: string, t: string)
    ensures Encode(s + t) == Encode(s) + Encode(t)
  {
    if s != [] {
      assert (s + t)[1..] == s[1..] + t;
      EncodeAppend(s[1..], t);
    } else {
      assert s + t == t;
    }
  }

  /** ASCII text encodes byte for byte. */
  lemma {:induction false} EncodeAscii(s: string)
    requires forall i :: 0 <= i < |s| ==> s[i] as int < 0x80
    ensures |Encode(s)| == |s|
    ensures forall i :: 0 <= i < |s| ==> Encode(s)[i] == s[i] as int
  {
    if s != [] {
      EncodeAscii(s[1..]);
    }
  }
}
