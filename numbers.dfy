/**
 * Fixed-width integers as the Rust source uses them, and the two text
 * conversions it relies on: `str::parse::<u64>` / `str::parse::<i64>` and
 * the decimal `Display` of an unsigned integer.
 */
module Numbers {
  import opened Wrappers

  const U64_LIMIT: nat := 0x1_0000_0000_0000_0000
  const I64_MIN: int := -0x8000_0000_0000_0000
  const I64_LIMIT: int := 0x8000_0000_0000_0000

  type u64 = n: nat | n < U64_LIMIT
  type i64 = x: int | I64_MIN <= x < I64_LIMIT
  type byte = b: int | 0 <= b < 256

  /** Two's-complement wrap-around of an i64 result (release-mode `*`). */
  function WrapI64(x: int): (r: i64)
    ensures (r - x) % U64_LIMIT == 0
  {
    (x - I64_MIN) % U64_LIMIT + I64_MIN
  }

  /** A value that already fits is left alone by the wrap. */
  lemma WrapI64Fits(x: int)
    requires I64_MIN <= x < I64_LIMIT
    ensures WrapI64(x) == x
  {
    assert 0 <= x - I64_MIN < U64_LIMIT;
  }

  /** Rust's `n as i64` for an unsigned 64-bit `n`. */
  function U64AsI64(n: u64): (r: i64)
    ensures (r - n) % U64_LIMIT == 0
    ensures n < I64_LIMIT ==> r == n
    ensures n >= I64_LIMIT ==> r < 0
  {
    if n < I64_LIMIT then n else n - U64_LIMIT
  }

  /** Rust's `/` on integers: the quotient is truncated toward zero. */
  function TruncDiv(a: int, d: int): (q: int)
    requires d > 0
    ensures a >= 0 ==> q * d <= a < q * d + d
    ensures a < 0 ==> q * d - d < a <= q * d
  {
    if a >= 0 then a / d else -((-a) / d)
  }

  predicate IsDigit(c: char) {
    '0' <= c <= '9'
  }

  predicate AllDigits(s: string) {
    forall i :: 0 <= i < |s| ==> IsDigit(s[i])
  }

  function DigitValue(c: char): nat
    requires IsDigit(c)
  {
    c as int - '0' as int
  }

  function DigitChar(d: nat): (c: char)
    requires d < 10
    ensures IsDigit(c) && DigitValue(c) == d
  {
    ('0' as int + d) as char
  }

  /** The value of a run of decimal digits, most significant first. */
  function DigitsValue(s: string): nat
    requires AllDigits(s)
  {
    if s == [] then 0 else DigitsValue(s[..|s| - 1]) * 10 + DigitValue(s[|s| - 1])
  }

  /** Rust's `str::parse::<u64>`: an optional '+', at least one digit, no overflow. */
  function ParseU64(s: string): (r: Option<u64>)
  {
    var digits := if |s| > 0 && s[0] == '+' then s[1..] else s;
    if digits != [] && AllDigits(digits) && DigitsValue(digits) < U64_LIMIT
    then Some(DigitsValue(digits))
    else None
  }

  /** Rust's `str::parse::<i64>`: an optional sign, at least one digit, no overflow. */
  function ParseI64(s: string): (r: Option<i64>)
  {
    if |s| > 0 && s[0] == '-' then
      var digits := s[1..];
      if digits != [] && AllDigits(digits) && DigitsValue(digits) <= -I64_MIN
      then Some(0 - DigitsValue(digits) as int)
      else None
    else
      var digits := if |s| > 0 && s[0] == '+' then s[1..] else s;
      if digits != [] && AllDigits(digits) && DigitsValue(digits) < I64_LIMIT
      then Some(DigitsValue(digits))
      else None
  }

  /** The decimal `Display` of a natural number: no sign, no leading zero. */
  function Decimal(n: nat): (s: string)
    ensures s != [] && AllDigits(s)
    ensures |s| > 1 ==> s[0] != '0'
  {
    if n < 10 then [DigitChar(n)] else Decimal(n / 10) + [DigitChar(n % 10)]
  }

  lemma {:induction false} DecimalValue(n: nat)
    ensures DigitsValue(Decimal(n)) == n
  {
    if n >= 10 {
      var s := Decimal(n);
      assert s[..|s| - 1] == Decimal(n / 10);
      DecimalValue(n / 10);
    }
  }

  /** Printing a u64 and parsing it back gives the same number. */
  lemma ParseDecimal(n: u64)
    ensures ParseU64(Decimal(n)) == Some(n)
  {
    DecimalValue(n);
    assert Decimal(n)[0] != '+';
  }

  /** A leading '+' is accepted, and so are leading zeros: both give the same value. */
  lemma ParseU64Prefixes(n: u64)
    ensures ParseU64("+" + Decimal(n)) == Some(n)
    ensures ParseU64("0" + Decimal(n)) == Some(n)
  {
    ParseDecimal(n);
    assert ("+" + Decimal(n))[1..] == Decimal(n);
    LeadingZeroValue(Decimal(n));
  }

  /** A '0' in front of a run of digits leaves its value unchanged. */
  lemma {:induction false} LeadingZeroValue(s: string)
    requires AllDigits(s)
    ensures AllDigits("0" + s) && DigitsValue("0" + s) == DigitsValue(s)
  {
    var z := "0" + s;
    assert forall i :: 0 <= i < |z| ==> IsDigit(z[i]) by {
      forall i | 0 <= i < |z| ensures IsDigit(z[i]) {
        if i > 0 { assert z[i] == s[i - 1]; }
      }
    }
    if s != [] {
      assert z[..|z| - 1] == "0" + s[..|s| - 1];
      var init := s[..|s| - 1];
      assert forall i :: 0 <= i < |init| ==> init[i] == s[i];
      LeadingZeroValue(s[..|s| - 1]);
    } else {
      assert z == "0";
    }
  }

  /** A negative number, and the decimal text of any value from 2^64 up, are rejected. */
  lemma ParseU64RejectsSignAndOverflow(n: nat)
    ensures ParseU64("-" + Decimal(n)) == None
    ensures n >= U64_LIMIT ==> ParseU64(Decimal(n)) == None
  {
    DecimalValue(n);
    assert ("-" + Decimal(n))[0] == '-' && !IsDigit('-');
    assert Decimal(n)[0] != '+';
  }

  /** Text that is not a run of digits (after an optional '+') never parses. */
  lemma ParseU64Rejects(s: string)
    ensures ParseU64(s).None? <==>
      var digits := if |s| > 0 && s[0] == '+' then s[1..] else s;
      digits == [] || !AllDigits(digits) || DigitsValue(digits) >= U64_LIMIT
  {
  }
}
