/**
 * Go's fixed-width integer arithmetic, decimal rendering of integers, and the
 * stand-in for float64 values used by the interpreter.
 */
module Numbers {

  /** Go's int64. */
  type Int64 = x: int | -0x8000_0000_0000_0000 <= x < 0x8000_0000_0000_0000

  const MinInt64: Int64 := -0x8000_0000_0000_0000
  const MaxInt64: Int64 := 0x7FFF_FFFF_FFFF_FFFF

  /** Two's-complement truncation to 64 bits: what Go's int64 +, -, * and
      conversions do when the exact result does not fit. */
  function Wrap(x: int): (r: Int64)
    ensures MinInt64 <= x <= MaxInt64 ==> r == x
    ensures (x - r) % 0x1_0000_0000_0000_0000 == 0
  {
    (x + 0x8000_0000_0000_0000) % 0x1_0000_0000_0000_0000 - 0x8000_0000_0000_0000
  }

  function Abs(x: int): nat { if x < 0 then -x else x }

  /** Go's integer quotient, which truncates toward zero (Dafny's `/` is Euclidean). */
  function TruncDiv(a: int, b: int): int
    requires b != 0
  {
    if (a < 0) == (b < 0) then Abs(a) / Abs(b) else -(Abs(a) / Abs(b))
  }

  /** The quotient Go computes for two int64 operands; a zero divisor is a run-time
      panic in Go, so the caller must exclude it. */
  function GoQuotient(a: Int64, b: Int64): Int64
    requires b != 0
  {
    Wrap(TruncDiv(a, b))
  }

  /** Truncating division leaves a remainder smaller than the divisor that carries
      the sign of the dividend, which pins the quotient down uniquely. */
  lemma TruncDivRemainder(a: int, b: int)
    requires b != 0
    ensures var rem := a - TruncDiv(a, b) * b;
      Abs(rem) < Abs(b) && (rem == 0 || (rem < 0) == (a < 0))
  {
    var bigA, bigB := Abs(a), Abs(b);
    var q: int := bigA / bigB;
    EuclidNonNegative(bigA, bigB);
    var product := q * bigB;
    assert TruncDiv(a, b) * b == (if a < 0 then -product else product) by {
      SignedProduct(q, b);
    }
  }

  lemma EuclidNonNegative(a: nat, b: nat)
    requires b > 0
    ensures a == (a / b) * b + a % b && 0 <= a % b < b
  {
  }

  lemma SignedProduct(q: int, b: int)
    ensures q * b == (if b < 0 then -(q * -b) else q * b)
    ensures (-q) * b == -(q * b)
  {
  }

  /** The only int64 quotient that overflows is MinInt64 / -1, which Go defines to
      be MinInt64 again. */
  lemma GoQuotientOverflow()
    ensures GoQuotient(MinInt64, -1) == MinInt64
  {
  }

  lemma GoQuotientExact(a: Int64, b: Int64)
    requires b != 0 && !(a == MinInt64 && b == -1)
    ensures GoQuotient(a, b) == TruncDiv(a, b)
  {
    var q := Abs(a) / Abs(b);
    QuotientBound(Abs(a), Abs(b));
    if Abs(b) == 1 {
      assert q == Abs(a);
    } else {
      assert q < Abs(a) || Abs(a) == 0;
    }
  }

  lemma QuotientBound(a: nat, b: nat)
    requires b > 0
    ensures a / b <= a
    ensures b > 1 && a > 0 ==> a / b < a
    ensures b == 1 ==> a / b == a
  {
    var q := a / b;
    EuclidNonNegative(a, b);
    ScaleUp(q, b);
    if b > 1 && a > 0 && q > 0 {
      ScaleUp(q, b - 1);
      assert q * b == q * (b - 1) + q;
    }
  }

  lemma ScaleUp(x: nat, k: nat)
    requires k >= 1
    ensures x <= x * k
  {
    assert x * k == x * (k - 1) + x;
  }

  predicate IsDecimalDigit(c: char) { '0' <= c <= '9' }

  predicate AllDecimalDigits(s: string) { forall i :: 0 <= i < |s| ==> IsDecimalDigit(s[i]) }

  function DigitChar(d: nat): char
    requires d < 10
  {
    (48 + d) as char
  }

  /** Decimal digits of a natural number, most significant first. */
  function NatToDecimal(n: nat): (s: string)
    ensures |s| >= 1 && AllDecimalDigits(s)
    ensures s[0] == '0' ==> n == 0
  {
    if n < 10 then [DigitChar(n)] else NatToDecimal(n / 10) + [DigitChar(n % 10)]
  }

  /** Value of a string of decimal digits. */
  function DecimalToNat(s: string): nat
    requires AllDecimalDigits(s)
  {
    if s == [] then 0 else 10 * DecimalToNat(s[..|s| - 1]) + (s[|s| - 1] as int - 48)
  }

  lemma {:induction false} DecimalRoundTrip(n: nat)
    ensures DecimalToNat(NatToDecimal(n)) == n
  {
    if n >= 10 {
      var s := NatToDecimal(n);
      assert s[..|s| - 1] == NatToDecimal(n / 10);
      DecimalRoundTrip(n / 10);
    }
  }

  /** Go's `%d` rendering of an integer: an optional minus sign, then the digits. */
  function IntToDecimal(i: int): (s: string)
    ensures |s| >= 1 && (s[0] == '-' <==> i < 0)
    ensures i < 0 ==> AllDecimalDigits(s[1..])
    ensures i >= 0 ==> AllDecimalDigits(s)
  {
    if i < 0 then "-" + NatToDecimal(-i) else NatToDecimal(i)
  }

  /** Reads back what IntToDecimal writes. */
  function ParseDecimal(s: string): int
  {
    if |s| > 0 && s[0] == '-' && AllDecimalDigits(s[1..]) then -(DecimalToNat(s[1..]) as int)
    else if AllDecimalDigits(s) then DecimalToNat(s)
    else 0
  }

  lemma {:induction false} IntDecimalRoundTrip(i: int)
    ensures ParseDecimal(IntToDecimal(i)) == i
  {
    var s := IntToDecimal(i);
    if i < 0 {
      assert s[1..] == NatToDecimal(-i);
      DecimalRoundTrip(-i);
      assert ParseDecimal(s) == -(DecimalToNat(s[1..]) as int);
    } else {
      DecimalRoundTrip(i);
      assert ParseDecimal(s) == DecimalToNat(s);
    }
  }

  /** The IEEE-754 binary64 bit pattern of a Go float64. */
  type Float64 = bv64

  /** Go's float64 arithmetic, comparison, int64-to-float64 conversion and `%v`
      formatting. They are IEEE-754 hardware operations and are not modelled: the
      evaluator takes them as a parameter and only decides WHICH of them applies. */
  datatype FloatOps = FloatOps(
    fromInt: Int64 -> Float64,
    add: (Float64, Float64) -> Float64,
    sub: (Float64, Float64) -> Float64,
    mul: (Float64, Float64) -> Float64,
    div: (Float64, Float64) -> Float64,
    less: (Float64, Float64) -> bool,
    equal: (Float64, Float64) -> bool,
    format: Float64 -> string)
}
