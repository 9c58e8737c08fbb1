/** C# `int` semantics the core relies on: 32-bit two's-complement arithmetic
    (unchecked, so `++` and `-=` wrap around) and the decimal text that
    `int.ToString()` produces when an int is concatenated to a string. */
module CSharpInt {

  const MinInt: int := -0x8000_0000
  const MaxInt: int := 0x7FFF_FFFF
  const Modulus: int := 0x1_0000_0000

  predicate IsInt32(x: int) {
    MinInt <= x <= MaxInt
  }

  /** The int32 value congruent to `x` modulo 2^32: what unchecked C#
      arithmetic yields for a mathematically exact result `x`. */
  function Wrap32(x: int): (r: int)
    ensures IsInt32(r)
    ensures (r - x) % Modulus == 0
    ensures IsInt32(x) ==> r == x
  {
    var m := (x - MinInt) % Modulus;
    MinInt + m
  }

  /** `a + 1` on C# ints. */
  function Inc32(a: int): (r: int)
    requires IsInt32(a)
    ensures IsInt32(r)
    ensures a < MaxInt ==> r == a + 1
    ensures a == MaxInt ==> r == MinInt
  {
    Wrap32(a + 1)
  }

  /** `a - b` on C# ints. */
  function Sub32(a: int, b: int): (r: int)
    requires IsInt32(a) && IsInt32(b)
    ensures IsInt32(r)
    ensures IsInt32(a - b) ==> r == a - b
    ensures !IsInt32(a - b) ==> (r == a - b + Modulus || r == a - b - Modulus)
  {
    Wrap32(a - b)
  }

  /** The int32 representative of a residue class is unique. */
  lemma WrapUnique(x: int, r: int)
    requires IsInt32(r) && (r - x) % Modulus == 0
    ensures r == Wrap32(x)
  {
  }

  /** Two unchecked subtractions in a row give the same int as one
      subtraction of both amounts: repeated `Hits -= dmg` accumulates the
      damage modulo 2^32. */
  lemma SubTwice(h: int, a: int, b: int)
    requires IsInt32(h) && IsInt32(a) && IsInt32(b)
    ensures Sub32(Sub32(h, a), b) == Wrap32(h - a - b)
  {
  }

  predicate IsDigit(c: char) {
    '0' <= c <= '9'
  }

  predicate AllDigits(s: string) {
    forall i :: 0 <= i < |s| ==> IsDigit(s[i])
  }

  function DigitChar(d: nat): (c: char)
    requires d < 10
    ensures IsDigit(c) && c as int - '0' as int == d
  {
    ('0' as int + d) as char
  }

  /** Decimal digits of `n`, most significant first, no leading zero. */
  function NatToDecimal(n: nat): (s: string)
    ensures |s| >= 1 && AllDigits(s)
    ensures n > 0 ==> s[0] != '0'
  {
    if n < 10 then [DigitChar(n)] else NatToDecimal(n / 10) + [DigitChar(n % 10)]
  }

  /** The number a string of decimal digits denotes. */
  function DecimalValue(s: string): nat
    requires AllDigits(s)
  {
    if s == [] then 0
    else DecimalValue(s[..|s| - 1]) * 10 + (s[|s| - 1] as int - '0' as int)
  }

  /** `n.ToString()` for a C# int: a minus sign before the digits of |n|. */
  function IntToDecimal(n: int): (s: string)
    ensures |s| >= 1
    ensures n >= 0 ==> AllDigits(s)
    ensures n < 0 ==> s[0] == '-' && AllDigits(s[1..])
  {
    if n < 0 then "-" + NatToDecimal(-n) else NatToDecimal(n)
  }

  /** Reading back the digits recovers the number. */
  lemma {:induction false} DecimalRoundTrip(n: nat)
    ensures DecimalValue(NatToDecimal(n)) == n
  {
    if n >= 10 {
      DecimalRoundTrip(n / 10);
      var s := NatToDecimal(n);
      assert s[..|s| - 1] == NatToDecimal(n / 10);
    }
  }

  /** The decimal text of an int determines the int: distinct levels print
      differently. */
  lemma IntToDecimalInjective(a: int, b: int)
    requires IntToDecimal(a) == IntToDecimal(b)
    ensures a == b
  {
    if a < 0 && b < 0 {
      assert NatToDecimal(-a) == IntToDecimal(a)[1..];
      assert NatToDecimal(-b) == IntToDecimal(b)[1..];
      DecimalRoundTrip(-a);
      DecimalRoundTrip(-b);
    } else if a >= 0 && b >= 0 {
      DecimalRoundTrip(a);
      DecimalRoundTrip(b);
    }
  }
}
