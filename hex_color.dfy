/**
 * `Color(hex:)` (Sources/Utilities/Constants.swift): a hex colour string
 * to integer alpha, red, green and blue channels, before the division by 255.
 */
module HexColor {
  import Text

  const UInt64Max: nat := 0xFFFF_FFFF_FFFF_FFFF

  /** The alphanumerics the trim keeps (ASCII letters and digits). */
  predicate IsAlphanumeric(c: char) {
    ('0' <= c <= '9') || ('a' <= c <= 'z') || ('A' <= c <= 'Z')
  }

  predicate NotAlphanumeric(c: char) {
    !IsAlphanumeric(c)
  }

  predicate IsHexDigit(c: char) {
    ('0' <= c <= '9') || ('a' <= c <= 'f') || ('A' <= c <= 'F')
  }

  function DigitValue(c: char): (d: nat)
    requires IsHexDigit(c)
    ensures d < 16
  {
    if '0' <= c <= '9' then c as int - '0' as int
    else if 'a' <= c <= 'f' then c as int - 'a' as int + 10
    else c as int - 'A' as int + 10
  }

  predicate AllHex(s: string) {
    forall k :: 0 <= k < |s| ==> IsHexDigit(s[k])
  }

  /** The number a run of hex digits spells, most significant first. */
  function HexValue(digits: string): nat
    requires AllHex(digits)
  {
    if digits == [] then 0
    else 16 * HexValue(digits[..|digits| - 1]) + DigitValue(digits[|digits| - 1])
  }

  function Pow16(n: nat): (p: nat)
    ensures p >= 1
  {
    if n == 0 then 1 else 16 * Pow16(n - 1)
  }

  /** n hex digits spell a number below 16^n. */
  lemma {:induction false} HexValueBound(digits: string)
    requires AllHex(digits)
    ensures HexValue(digits) < Pow16(|digits|)
  {
    if digits != [] {
      HexValueBound(digits[..|digits| - 1]);
    }
  }

  /** The length of the leading run of hex digits. */
  function HexRun(s: string): (n: nat)
    ensures n <= |s| && AllHex(s[..n])
    ensures n < |s| ==> !IsHexDigit(s[n])
  {
    if s == [] || !IsHexDigit(s[0]) then 0
    else
      var n := 1 + HexRun(s[1..]);
      assert s[..n] == [s[0]] + s[1..][..n - 1];
      n
  }

  /** What follows an optional "0x" or "0X" prefix. */
  function WithoutPrefix(s: string): string {
    if |s| >= 2 && s[0] == '0' && (s[1] == 'x' || s[1] == 'X') then s[2..] else s
  }

  /**
   * `Scanner.scanHexInt64`: the leading hex digits after an optional
   * prefix, saturating at the largest UInt64; 0 when there are none (the
   * variable keeps its initial 0).
   */
  function ScanHex(s: string): (v: nat)
    ensures v <= UInt64Max
  {
    var body := WithoutPrefix(s);
    var n := HexRun(body);
    var value := HexValue(body[..n]);
    if value > UInt64Max then UInt64Max else value
  }

  /** The trimmed hex string: non-alphanumeric characters cut from both ends. */
  function TrimHex(s: string): (t: string)
    ensures |t| <= |s|
    ensures t == [] <==> forall k :: 0 <= k < |s| ==> NotAlphanumeric(s[k])
    ensures t != [] ==> !NotAlphanumeric(t[0]) && !NotAlphanumeric(t[|t| - 1])
  {
    Text.TrimWhere(s, NotAlphanumeric)
  }

  datatype Channels = Channels(a: nat, r: nat, g: nat, b: nat)

  /** The switch on the digit count: shifts and masks on the scanned value. */
  function ChannelsOf(count: nat, v: nat): (c: Channels)
    ensures v < Pow16(count) ==> c.a <= 255 && c.r <= 255 && c.g <= 255 && c.b <= 255
    ensures count !in {3, 6, 8} ==> c == Channels(255, 0, 0, 0)
    ensures count in {3, 6} ==> c.a == 255
  {
    assert Pow16(3) == 4096 && Pow16(6) == 16777216 && Pow16(8) == 4294967296;
    if count == 3 then Channels(255, (v / 256) * 17, (v / 16 % 16) * 17, (v % 16) * 17)
    else if count == 6 then Channels(255, v / 65536, v / 256 % 256, v % 256)
    else if count == 8 then Channels(v / 16777216, v / 65536 % 256, v / 256 % 256, v % 256)
    else Channels(255, 0, 0, 0)
  }

  /** `Color(hex:)`'s integer channels. */
  function ColorChannels(hex: string): Channels {
    var t := TrimHex(hex);
    ChannelsOf(|t|, ScanHex(t))
  }

  /** The scanned value of a string has at most as many hex digits as the string has characters. */
  lemma ScanBound(s: string)
    ensures ScanHex(s) < Pow16(|s|)
  {
    var body := WithoutPrefix(s);
    var n := HexRun(body);
    HexValueBound(body[..n]);
    Pow16Monotone(n, |s|);
  }

  lemma {:induction false} Pow16Monotone(a: nat, b: nat)
    requires a <= b
    ensures Pow16(a) <= Pow16(b)
  {
    if a < b {
      Pow16Monotone(a, b - 1);
    }
  }

  /** Every channel lies in 0..255, whatever the input. */
  lemma ChannelsInRange(hex: string)
    ensures var c := ColorChannels(hex);
      c.a <= 255 && c.r <= 255 && c.g <= 255 && c.b <= 255
  {
    var t := TrimHex(hex);
    ScanBound(t);
    assert Pow16(3) == 4096 && Pow16(6) == 16777216 && Pow16(8) == 4294967296;
  }

  /** Any trimmed length other than 3, 6 or 8 gives opaque black. */
  lemma OtherLengthsBlack(hex: string)
    requires |TrimHex(hex)| !in {3, 6, 8}
    ensures ColorChannels(hex) == Channels(255, 0, 0, 0)
  {
  }

  /** Appending digits shifts the value left by one hex place per digit. */
  lemma {:induction false} HexValueAppend(p: string, q: string)
    requires AllHex(p) && AllHex(q)
    ensures AllHex(p + q)
    ensures HexValue(p + q) == HexValue(p) * Pow16(|q|) + HexValue(q)
  {
    var pq := p + q;
    assert AllHex(pq) by {
      forall k | 0 <= k < |pq| ensures IsHexDigit(pq[k]) {
        if k < |p| { assert pq[k] == p[k]; } else { assert pq[k] == q[k - |p|]; }
      }
    }
    if q == [] {
      assert pq == p;
    } else {
      var q' := q[..|q| - 1];
      assert AllHex(q');
      assert pq[..|pq| - 1] == p + q';
      HexValueAppend(p, q');
      var d := DigitValue(q[|q| - 1]);
      assert pq[|pq| - 1] == q[|q| - 1];
      assert HexValue(pq) == 16 * HexValue(p + q') + d;
      assert Pow16(|q|) == 16 * Pow16(|q'|);
      assert HexValue(q) == 16 * HexValue(q') + d;
      ShiftOnce(HexValue(p), Pow16(|q'|), HexValue(q'), d);
    }
  }

  lemma ShiftOnce(p: nat, w: nat, h: nat, d: nat)
    ensures 16 * (p * w + h) + d == p * (16 * w) + (16 * h + d)
  {
  }

  /** The value of two hex digits, as in a "RRGGBB" pair. */
  function PairValue(hi: char, lo: char): (v: nat)
    requires IsHexDigit(hi) && IsHexDigit(lo)
    ensures v < 256
  {
    DigitValue(hi) * 16 + DigitValue(lo)
  }

  lemma Digit1(s: string)
    requires |s| == 1 && AllHex(s)
    ensures HexValue(s) == DigitValue(s[0])
  {
    assert s[..0] == [];
  }

  lemma Pair2(s: string)
    requires |s| == 2 && AllHex(s)
    ensures HexValue(s) == PairValue(s[0], s[1])
  {
    assert s[..1] == [s[0]];
    Digit1(s[..1]);
  }

  lemma Digits3(s: string)
    requires |s| == 3 && AllHex(s)
    ensures HexValue(s) == DigitValue(s[0]) * 256 + DigitValue(s[1]) * 16 + DigitValue(s[2])
  {
    assert s[..2][..1] == [s[0]];
    Digit1([s[0]]);
  }

  /** (x * d + y) splits back into x and y when y < d, for the place values the channels use. */
  lemma DivModSplit(x: nat, y: nat, d: nat)
    requires d == 16 || d == 256 || d == 65536 || d == 16777216
    requires 0 <= y < d
    ensures (x * d + y) / d == x && (x * d + y) % d == y
  {
    if d == 16 {
    } else if d == 256 {
    } else if d == 65536 {
    } else {
    }
  }

  /** Three hex digits: each nibble times 17, alpha 255. */
  lemma ThreeDigits(hex: string)
    requires var t := TrimHex(hex); |t| == 3 && AllHex(t)
    ensures var t := TrimHex(hex);
      ColorChannels(hex) == Channels(255, DigitValue(t[0]) * 17, DigitValue(t[1]) * 17, DigitValue(t[2]) * 17)
  {
    var t := TrimHex(hex);
    assert WithoutPrefix(t) == t by {
      assert !IsHexDigit('x') && !IsHexDigit('X');
    }
    assert t[..3] == t;
    var d0, d1, d2 := DigitValue(t[0]), DigitValue(t[1]), DigitValue(t[2]);
    var v := ScanHex(t);
    assert v == d0 * 256 + d1 * 16 + d2 by {
      Digits3(t);
    }
    SplitNibbles(v, d0, d1, d2);
    assert ColorChannels(hex) == ChannelsOf(3, v);
  }

  /** Three packed nibbles come back out by division and remainder. */
  lemma SplitNibbles(v: nat, d0: nat, d1: nat, d2: nat)
    requires d0 < 16 && d1 < 16 && d2 < 16
    requires v == d0 * 256 + d1 * 16 + d2
    ensures v / 256 == d0 && v / 16 % 16 == d1 && v % 16 == d2
  {
    assert v == (d0 * 16 + d1) * 16 + d2;
    DivModSplit(d0 * 16 + d1, d2, 16);
    DivModSplit(d0, d1, 16);
    DivModSplit(d0, d1 * 16 + d2, 256);
  }

  lemma Digits6(s: string)
    requires |s| == 6 && AllHex(s)
    ensures HexValue(s) == PairValue(s[0], s[1]) * 65536 + PairValue(s[2], s[3]) * 256 + PairValue(s[4], s[5])
  {
    var a, b, c := s[..2], s[2..4], s[4..];
    assert s == a + (b + c);
    assert AllHex(a) && AllHex(b) && AllHex(c);
    HexValueAppend(b, c);
    HexValueAppend(a, b + c);
    Pair2(a); Pair2(b); Pair2(c);
    assert Pow16(2) == 256 && Pow16(4) == 65536;
  }

  /** r, g and b packed into one integer come back out by shifts and masks. */
  lemma SplitBytes(v: nat, r: nat, g: nat, b: nat)
    requires r < 256 && g < 256 && b < 256
    requires v == r * 65536 + g * 256 + b
    ensures v / 65536 == r && v / 256 % 256 == g && v % 256 == b
  {
    assert v == (r * 256 + g) * 256 + b;
    DivModSplit(r * 256 + g, b, 256);
    DivModSplit(r, g, 256);
    assert g * 256 + b < 65536;
    DivModSplit(r, g * 256 + b, 65536);
  }

  /** Six hex digits: red, green and blue are the digit pairs in turn, alpha 255. */
  lemma SixDigits(hex: string)
    requires var t := TrimHex(hex); |t| == 6 && AllHex(t)
    ensures var t := TrimHex(hex);
      ColorChannels(hex) == Channels(255, PairValue(t[0], t[1]), PairValue(t[2], t[3]), PairValue(t[4], t[5]))
  {
    var t := TrimHex(hex);
    assert WithoutPrefix(t) == t by {
      assert !IsHexDigit('x') && !IsHexDigit('X');
    }
    assert t[..6] == t;
    Digits6(t);
    SplitBytes(ScanHex(t), PairValue(t[0], t[1]), PairValue(t[2], t[3]), PairValue(t[4], t[5]));
  }

  lemma Digits8(s: string)
    requires |s| == 8 && AllHex(s)
    ensures HexValue(s) == PairValue(s[0], s[1]) * 16777216 + HexValue(s[2..])
  {
    assert s == s[..2] + s[2..];
    assert AllHex(s[..2]) && AllHex(s[2..]);
    HexValueAppend(s[..2], s[2..]);
    Pair2(s[..2]);
    assert Pow16(6) == 16777216;
  }

  /** a, r, g and b packed into one integer come back out by shifts and masks. */
  lemma SplitWord(v: nat, a: nat, r: nat, g: nat, b: nat)
    requires a < 256 && r < 256 && g < 256 && b < 256
    requires v == a * 16777216 + r * 65536 + g * 256 + b
    ensures v / 16777216 == a && v / 65536 % 256 == r && v / 256 % 256 == g && v % 256 == b
  {
    var low := r * 65536 + g * 256 + b;
    SplitBytes(low, r, g, b);
    assert low < 16777216;
    assert v == a * 16777216 + low;
    DivModSplit(a, low, 16777216);
    var lowG := g * 256 + b;
    assert v == (a * 256 + r) * 65536 + lowG;
    DivModSplit(a * 256 + r, lowG, 65536);
    DivModSplit(a, r, 256);
    assert v == (a * 65536 + r * 256 + g) * 256 + b;
    DivModSplit(a * 65536 + r * 256 + g, b, 256);
    assert a * 65536 + r * 256 + g == (a * 256 + r) * 256 + g;
    DivModSplit(a * 256 + r, g, 256);
  }

  /** Eight hex digits are ARGB: alpha is the first pair. */
  lemma EightDigits(hex: string)
    requires var t := TrimHex(hex); |t| == 8 && AllHex(t)
    ensures var t := TrimHex(hex);
      ColorChannels(hex) == Channels(PairValue(t[0], t[1]), PairValue(t[2], t[3]), PairValue(t[4], t[5]), PairValue(t[6], t[7]))
  {
    var t := TrimHex(hex);
    assert WithoutPrefix(t) == t by {
      assert !IsHexDigit('x') && !IsHexDigit('X');
    }
    assert t[..8] == t;
    var a, r, g, b := PairValue(t[0], t[1]), PairValue(t[2], t[3]), PairValue(t[4], t[5]), PairValue(t[6], t[7]);
    assert HexValue(t) == a * 16777216 + r * 65536 + g * 256 + b by {
      Digits8(t);
      var rest := t[2..];
      assert AllHex(rest);
      Digits6(rest);
    }
    var v := ScanHex(t);
    assert v == a * 16777216 + r * 65536 + g * 256 + b;
    SplitWord(v, a, r, g, b);
    assert ColorChannels(hex) == ChannelsOf(8, v);
  }
}
