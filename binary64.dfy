/**
 * Swift's `Double` (IEEE 754 binary64), as far as the JSON layer needs it:
 * which values are finite, which are whole numbers, and which double an
 * integer numeral reads as. A finite double is kept by value, as a sign, a
 * significand and a power of two, in the format's unique form: a normal
 * number has a 53-bit significand, a subnormal or a zero the least exponent.
 * NaN payloads are not told apart.
 */
module Binary64 {
  import opened Wrappers

  function Pow2(n: nat): (p: nat)
    ensures p >= 1
  {
    if n == 0 then 1 else 2 * Pow2(n - 1)
  }

  lemma {:induction false} Pow2Monotone(a: nat, b: nat)
    requires a <= b
    ensures Pow2(a) <= Pow2(b)
  {
    if a < b {
      Pow2Monotone(a, b - 1);
    }
  }

  lemma {:induction false} Pow2Add(a: nat, b: nat)
    ensures Pow2(a + b) == Pow2(a) * Pow2(b)
  {
    if b > 0 {
      Pow2Add(a, b - 1);
      calc {
        Pow2(a + b);
        2 * Pow2(a + b - 1);
        2 * (Pow2(a) * Pow2(b - 1));
        Pow2(a) * (2 * Pow2(b - 1));
      }
    }
  }

  lemma Pow2Of32()
    ensures Pow2(16) == 0x1_0000 && Pow2(32) == 0x1_0000_0000
  {
    assert Pow2(4) == 16;
    assert Pow2(8) == 0x100 by { Pow2Add(4, 4); }
    assert Pow2(16) == 0x1_0000 by { Pow2Add(8, 8); }
    Pow2Add(16, 16);
  }

  lemma Pow2Constants()
    ensures Pow2(52) == Significand52 && Pow2(53) == Significand53
    ensures Pow2(64) == 2 * TwoTo63
  {
    Pow2Of32();
    assert Pow2(20) == 0x10_0000 by {
      assert Pow2(4) == 16;
      Pow2Add(4, 16);
    }
    assert Pow2(52) == Significand52 by { Pow2Add(32, 20); }
    assert Pow2(53) == Significand53 by { Pow2Add(52, 1); }
    assert Pow2(64) == 2 * TwoTo63 by { Pow2Add(32, 32); }
  }

  lemma MulMonotone(x: nat, y: nat, p: nat)
    requires x <= y
    ensures x * p <= y * p
  {
  }

  lemma MulStrict(x: nat, y: nat, p: nat)
    requires x < y && p > 0
    ensures x * p < y * p
  {
  }

  /** Bounds on a multiple carry over to the quotient. */
  lemma DivBounds(n: nat, a: nat, b: nat, p: nat)
    requires p > 0 && a * p <= n < b * p
    ensures a <= n / p < b
  {
    var q := n / p;
    assert n == q * p + n % p;
    if q < a {
      MulMonotone(q + 1, a, p);
    }
    if q >= b {
      MulMonotone(b, q, p);
    }
  }

  lemma ExactDiv(m: nat, p: nat)
    requires p > 0
    ensures (m * p) / p == m && (m * p) % p == 0
  {
    var q, r := (m * p) / p, (m * p) % p;
    assert m * p == q * p + r && 0 <= r < p;
    assert (m - q) * p == r;
    if m - q >= 1 {
      MulMonotone(1, m - q, p);
    } else if m - q <= -1 {
      MulMonotone(1, q - m, p);
    }
  }

  const Significand52: nat := 0x10_0000_0000_0000
  const Significand53: nat := 0x20_0000_0000_0000
  const MinExponent: int := -1074
  const MaxExponent: int := 971
  /** 2^63, the magnitude of Int64's least value. */
  const TwoTo63: nat := 0x8000_0000_0000_0000

  datatype RawDouble =
    | NaN
    | Infinity(negative: bool)
    | Finite(negative: bool, significand: nat, exponent: int)  // (-1)^negative · significand · 2^exponent

  predicate IsBinary64(d: RawDouble) {
    d.Finite? ==>
      && d.significand < Significand53
      && MinExponent <= d.exponent <= MaxExponent
      && (d.significand >= Significand52 || d.exponent == MinExponent)
  }

  type Double = d: RawDouble | IsBinary64(d) witness NaN

  type FiniteDouble = d: Double | d.Finite? witness Finite(false, 0, MinExponent)

  const PositiveZero: FiniteDouble := Finite(false, 0, MinExponent)

  predicate IsZero(d: Double) {
    d.Finite? && d.significand == 0
  }

  /** Swift's `==` on doubles: NaN equals nothing, and the two zeros are equal. */
  predicate DoubleEquals(a: Double, b: Double) {
    !a.NaN? && !b.NaN? && (a == b || (IsZero(a) && IsZero(b)))
  }

  function Abs(i: int): (n: nat)
    ensures n == i || n == -i
  {
    if i < 0 then -i else i
  }

  /**
   * The whole number a double equals, if it is one: for a negative
   * exponent, the significand must be a multiple of the power of two it is
   * divided by.
   */
  function IntegralValue(d: Double): (r: Option<int>)
    ensures r.Some? ==> d.Finite? && (r.value < 0 ==> d.negative) && (r.value > 0 ==> !d.negative)
    ensures r.Some? && d.exponent >= 0 ==> Abs(r.value) == d.significand * Pow2(d.exponent)
    ensures r.Some? && d.exponent < 0 ==> Abs(r.value) * Pow2(-d.exponent) == d.significand
    ensures d.Finite? && d.exponent >= 0 ==> r.Some?
    ensures d.Finite? && d.exponent < 0 && d.significand % Pow2(-d.exponent) != 0 ==> r.None?
  {
    match d
    case Finite(negative, m, e) =>
      if e >= 0 then
        Some(if negative then -(m * Pow2(e)) else m * Pow2(e))
      else if m % Pow2(-e) == 0 then
        assert (m / Pow2(-e)) * Pow2(-e) == m;
        Some(if negative then -(m / Pow2(-e)) else m / Pow2(-e))
      else None
    case _ => None
  }

  /** The number of binary digits of `n`. */
  function BitLength(n: nat): (k: nat)
    ensures n > 0 ==> k >= 1 && Pow2(k - 1) <= n < Pow2(k)
    ensures n == 0 ==> k == 0
  {
    if n == 0 then 0 else 1 + BitLength(n / 2)
  }

  lemma BitLengthUnique(n: nat, k: nat)
    requires k >= 1 && Pow2(k - 1) <= n < Pow2(k)
    ensures BitLength(n) == k
  {
    var b := BitLength(n);
    if b < k {
      Pow2Monotone(b, k - 1);
    } else if b > k {
      Pow2Monotone(k, b - 1);
    }
  }

  /** Scaling a k-digit number up to 53 digits gives a normal significand. */
  lemma ScaleUp(n: nat, k: nat)
    requires 1 <= k <= 53 && Pow2(k - 1) <= n < Pow2(k)
    ensures Significand52 <= n * Pow2(53 - k) < Significand53
  {
    Pow2Add(k - 1, 53 - k);
    Pow2Add(k, 53 - k);
    MulMonotone(Pow2(k - 1), n, Pow2(53 - k));
    MulStrict(n, Pow2(k), Pow2(53 - k));
    Pow2Constants();
  }

  /** Shifting a k-digit number down to 53 digits gives a normal significand. */
  lemma ShiftDown(n: nat, k: nat)
    requires k > 53 && Pow2(k - 1) <= n < Pow2(k)
    ensures Significand52 <= n / Pow2(k - 53) < Significand53
  {
    Pow2Add(52, k - 53);
    Pow2Add(53, k - 53);
    Pow2Constants();
    DivBounds(n, Significand52, Significand53, Pow2(k - 53));
  }

  /** `n` divided by 2^s, rounded to the nearest whole number, a tie going to the even one. */
  function RoundedShift(n: nat, s: nat): (q: nat)
    requires s >= 1
    ensures q == n / Pow2(s) || q == n / Pow2(s) + 1
    ensures n % Pow2(s) == 0 ==> q == n / Pow2(s)
  {
    var q := n / Pow2(s);
    var rem := n % Pow2(s);
    var half := Pow2(s - 1);
    if rem > half || (rem == half && q % 2 == 1) then q + 1 else q
  }

  /**
   * The double an integer numeral reads as: the nearest one, a tie going to
   * the even significand. Integers of Int64's range need at most 64 digits,
   * so the exponent stays small.
   */
  function IntToDouble(i: int): (d: FiniteDouble)
    requires -(TwoTo63 as int) <= i <= TwoTo63
    ensures d.negative <==> i < 0
    ensures i == 0 <==> IsZero(d)
  {
    var n: nat := Abs(i);
    if n == 0 then PositiveZero
    else
      var k := BitLength(n);
      assert k <= 64 by {
        if k > 64 {
          Pow2Monotone(64, k - 1);
          Pow2Constants();
        }
      }
      if k <= 53 then
        ScaleUp(n, k);
        Finite(i < 0, n * Pow2(53 - k), k - 53)
      else
        var s := k - 53;
        ShiftDown(n, k);
        var q' := RoundedShift(n, s);
        if q' == Significand53 then Finite(i < 0, Significand52, s + 1) else Finite(i < 0, q', s)
  }

  /** A nonzero whole double is normal, with an exponent no less than -52. */
  lemma WholeIsNormal(d: Double)
    requires IntegralValue(d).Some? && !IsZero(d)
    ensures d.significand >= Significand52 && d.exponent >= -52
  {
    if d.exponent < -52 {
      var p := Pow2(-d.exponent);
      assert d.significand < p by {
        Pow2Monotone(53, -d.exponent);
        Pow2Constants();
      }
      ModSmall(d.significand, p);
      assert false;
    }
  }

  lemma ModSmall(m: nat, p: nat)
    requires m < p
    ensures m % p == m
  {
  }

  /** An integer of more than 53 digits that ends in enough zeros reads as a double exactly. */
  lemma IntToDoubleExactShift(i: int, k: nat)
    requires -(TwoTo63 as int) <= i <= TwoTo63
    requires k > 53 && BitLength(Abs(i)) == k
    requires Abs(i) % Pow2(k - 53) == 0
    ensures IntToDouble(i) == Finite(i < 0, Abs(i) / Pow2(k - 53), k - 53)
  {
    var n: nat := Abs(i);
    ShiftDown(n, k);
  }

  /** An integer of at most 53 digits reads as a double exactly. */
  lemma IntToDoubleExactScale(i: int, k: nat)
    requires -(TwoTo63 as int) <= i <= TwoTo63 && i != 0
    requires k <= 53 && BitLength(Abs(i)) == k
    ensures IntToDouble(i) == Finite(i < 0, Abs(i) * Pow2(53 - k), k - 53)
  {
  }

  /** A normal significand shifted up by `e` places is a number of 53 + e digits. */
  lemma ScaledBitLength(n: nat, m: nat, e: nat)
    requires Significand52 <= m < Significand53 && n == m * Pow2(e)
    ensures BitLength(n) == 53 + e
  {
    var p := Pow2(e);
    Pow2Constants();
    Pow2Add(52, e);
    Pow2Add(53, e);
    MulMonotone(Significand52, m, p);
    MulStrict(m, Significand53, p);
    BitLengthUnique(n, 53 + e);
  }

  /** A whole double with a nonnegative exponent reads back as itself. */
  lemma LargeWholeReadsBack(d: Double)
    requires d.Finite? && d.significand >= Significand52 && d.exponent >= 0
    requires IntegralValue(d).value <= TwoTo63 && -(TwoTo63 as int) <= IntegralValue(d).value
    ensures IntToDouble(IntegralValue(d).value) == d
  {
    var i := IntegralValue(d).value;
    var m, e := d.significand, d.exponent;
    var p := Pow2(e);
    assert Abs(i) == m * p;
    assert i < 0 <==> d.negative by {
      MulMonotone(1, m, p);
    }
    ScaledBitLength(Abs(i), m, e);
    if e > 0 {
      assert Abs(i) % Pow2(e) == 0 && Abs(i) / Pow2(e) == m by {
        ExactDiv(m, p);
      }
      IntToDoubleExactShift(i, 53 + e);
      assert IntToDouble(i) == Finite(i < 0, m, e);
    } else {
      assert e == 0 && Abs(i) == m;
      IntToDoubleExactScale(i, 53);
      assert Abs(i) * Pow2(53 - 53) == m;
    }
  }

  /** A normal significand that is `n` shifted up by `s` places makes `n` a number of 53 - s digits. */
  lemma ShiftedBitLength(n: nat, m: nat, s: nat)
    requires 1 <= s <= 52 && Significand52 <= m < Significand53 && n * Pow2(s) == m
    ensures BitLength(n) == 53 - s && n < Significand53
  {
    var p := Pow2(s);
    Pow2Constants();
    Pow2Add(52 - s, s);
    Pow2Add(53 - s, s);
    DivBounds(m, Pow2(52 - s), Pow2(53 - s), p);
    ExactDiv(n, p);
    BitLengthUnique(n, 53 - s);
    Pow2Monotone(53 - s, 53);
  }

  /** A whole double with a negative exponent reads back as itself. */
  lemma SmallWholeReadsBack(d: Double)
    requires d.Finite? && d.significand >= Significand52 && -52 <= d.exponent < 0
    requires IntegralValue(d).Some?
    ensures IntToDouble(IntegralValue(d).value) == d
  {
    var i := IntegralValue(d).value;
    var m, e := d.significand, d.exponent;
    var n: nat := Abs(i);
    assert n * Pow2(-e) == m;
    ShiftedBitLength(n, m, -e);
    IntToDoubleExactScale(i, 53 + e);
    assert d == Finite(i < 0, m, e);
  }

  /**
   * Every whole double of Int64's range reads back from its integer as
   * itself; a negative zero comes back as a positive one, which `==` does
   * not tell apart.
   */
  lemma WholeDoubleReadsBack(d: Double)
    requires IntegralValue(d).Some?
    requires -(TwoTo63 as int) <= IntegralValue(d).value <= TwoTo63
    ensures IntToDouble(IntegralValue(d).value) == if IsZero(d) then PositiveZero else d
    ensures DoubleEquals(IntToDouble(IntegralValue(d).value), d)
  {
    if !IsZero(d) {
      WholeIsNormal(d);
      if d.exponent >= 0 {
        LargeWholeReadsBack(d);
      } else {
        SmallWholeReadsBack(d);
      }
    }
  }

  /** An integer of at most 53 binary digits reads as a double of exactly that value. */
  lemma SmallIntExact(i: int)
    requires -(Significand53 as int) < i < Significand53
    ensures IntegralValue(IntToDouble(i)) == Some(i)
  {
    var n: nat := Abs(i);
    if n != 0 {
      var k := BitLength(n);
      assert k <= 53 by {
        if k > 53 {
          Pow2Monotone(53, k - 1);
          Pow2Constants();
        }
      }
      IntToDoubleExactScale(i, k);
      IntegralOfScaled(IntToDouble(i), n);
    }
  }

  /** A double whose significand is `n` shifted up by its (nonpositive) exponent's places equals ±n. */
  lemma IntegralOfScaled(d: Double, n: nat)
    requires d.Finite? && d.exponent <= 0 && d.significand == n * Pow2(-d.exponent)
    ensures IntegralValue(d) == Some(if d.negative then -(n as int) else n as int)
  {
    ExactDiv(n, Pow2(-d.exponent));
  }
}
