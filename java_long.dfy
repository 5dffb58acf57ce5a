/**
  The pieces of Java's `long` arithmetic and text conversion that the core
  relies on: Long.parseLong, Long.toString as its partner, the truncating `/`
  of Java integer division, and the `(int)` narrowing of `Long.intValue()`.
 */
module JavaLong {
  import opened Chain

  const MinLong: int := -0x8000_0000_0000_0000
  const MaxLong: int := 0x7FFF_FFFF_FFFF_FFFF

  predicate IsDigit(c: char)
  {
    '0' <= c <= '9'
  }

  predicate AllDigits(s: string)
  {
    forall i :: 0 <= i < |s| ==> IsDigit(s[i])
  }

  function DigitValue(c: char): (d: nat)
    requires IsDigit(c)
    ensures d < 10
  {
    c as int - '0' as int
  }

  function DigitChar(d: nat): (c: char)
    requires d < 10
    ensures IsDigit(c) && DigitValue(c) == d
  {
    ('0' as int + d) as char
  }

  /** The value of a string of decimal digits, most significant first. */
  function DigitsValue(s: string): nat
    requires AllDigits(s)
    decreases |s|
  {
    if |s| == 0 then 0 else DigitsValue(s[..|s| - 1]) * 10 + DigitValue(s[|s| - 1])
  }

  /**
    Long.parseLong(s): an optional '+' or '-' followed by at least one decimal
    digit, whose value fits in 64 bits; None where Java throws
    NumberFormatException.
   */
  function ParseLong(s: string): (r: Option<int>)
    ensures r.Some? ==> MinLong <= r.value <= MaxLong
    ensures r.Some? ==> |s| > 0
    ensures |s| > 0 && AllDigits(s) ==> (r.Some? <==> DigitsValue(s) <= MaxLong)
  {
    if |s| > 0 && (s[0] == '-' || s[0] == '+') then
      var digits := s[1..];
      if |digits| == 0 || !AllDigits(digits) then None
      else
        var magnitude: int := DigitsValue(digits);
        var v := if s[0] == '-' then -magnitude else magnitude;
        if MinLong <= v <= MaxLong then Some(v) else None
    else if |s| == 0 || !AllDigits(s) then None
    else if DigitsValue(s) <= MaxLong then Some(DigitsValue(s))
    else None
  }

  /** The decimal digits of a natural number, without leading zeros. */
  function NatDigits(n: nat): (s: string)
    ensures |s| > 0 && AllDigits(s)
    decreases n
  {
    if n < 10 then [DigitChar(n)] else NatDigits(n / 10) + [DigitChar(n % 10)]
  }

  /** Long.toString(n). */
  function Decimal(n: int): string
  {
    if n < 0 then ['-'] + NatDigits(-n) else NatDigits(n)
  }

  lemma {:induction false} NatDigitsValue(n: nat)
    ensures DigitsValue(NatDigits(n)) == n
    decreases n
  {
    if n >= 10 {
      var s := NatDigits(n);
      assert s[..|s| - 1] == NatDigits(n / 10);
      NatDigitsValue(n / 10);
    }
  }

  /** Parsing the decimal rendering of a 64-bit value gives the value back. */
  lemma ParseDecimal(n: int)
    requires MinLong <= n <= MaxLong
    ensures ParseLong(Decimal(n)) == Some(n)
  {
    var s := Decimal(n);
    if n < 0 {
      assert s[0] == '-' && s[1..] == NatDigits(-n);
      NatDigitsValue(-n);
    } else {
      assert IsDigit(s[0]);
      NatDigitsValue(n);
    }
  }

  /** Java's `a / b` on longs with b > 0: the quotient truncated toward zero. */
  function Quot(a: int, b: int): (q: int)
    requires b > 0
    ensures a >= 0 ==> q * b <= a < q * b + b
    ensures a < 0 ==> q * b - b < a <= q * b
  {
    if a >= 0 then a / b else -((-a) / b)
  }

  /** Long.intValue(): the low 32 bits as a signed int. */
  function IntValue(x: int): (r: int)
    ensures -0x8000_0000 <= r < 0x8000_0000
    ensures (x - r) % 0x1_0000_0000 == 0
    ensures -0x8000_0000 <= x < 0x8000_0000 ==> r == x
  {
    (x + 0x8000_0000) % 0x1_0000_0000 - 0x8000_0000
  }
}
