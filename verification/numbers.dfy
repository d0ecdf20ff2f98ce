/**
 * The two numeric conversions the request builder relies on: Go's
 * `int(float64)` conversion and `fmt.Sscanf(s, "%d", &n)`, with a decimal
 * printer as the inverse of the latter.
 */
module Numbers {
  import opened Basics

  /** Go's `int(x)` for a float64 `x`: the fractional part is dropped (truncation toward zero). */
  function TruncToInt(x: real): (n: int)
    ensures 0.0 <= x ==> 0 <= n && n as real <= x < n as real + 1.0
    ensures x < 0.0 ==> n <= 0 && n as real - 1.0 < x <= n as real
  {
    if x >= 0.0 then x.Floor else -((-x).Floor)
  }

  predicate IsDigit(c: char) {
    '0' <= c <= '9'
  }

  predicate AllDigits(s: string) {
    forall i :: 0 <= i < |s| ==> IsDigit(s[i])
  }

  function DigitValue(c: char): nat
    requires IsDigit(c)
  {
    c as int - '0' as int
  }

  function DigitChar(d: nat): (c: char)
    requires d < 10
    ensures IsDigit(c) && DigitValue(c) == d
  {
    ('0' as int + d) as char
  }

  /** Length of the longest run of decimal digits at the start of `s`. */
  function DigitRun(s: string): (k: nat)
    ensures k <= |s| && AllDigits(s[..k])
    ensures k < |s| ==> !IsDigit(s[k])
  {
    if s == [] || !IsDigit(s[0]) then 0 else 1 + DigitRun(s[1..])
  }

  /** The number a string of decimal digits denotes, most significant digit first. */
  function DigitsValue(d: string): nat
    requires AllDigits(d)
  {
    if d == [] then 0 else 10 * DigitsValue(d[..|d| - 1]) + DigitValue(d[|d| - 1])
  }

  /** 1 when `s` starts with a sign character, 0 otherwise. */
  function SignLength(s: string): nat {
    if s != [] && (s[0] == '+' || s[0] == '-') then 1 else 0
  }

  /** The value of the run of digits at the start of `t`, when there is one. */
  function ScanDigits(t: string): Option<nat> {
    var k := DigitRun(t);
    if k == 0 then None else Some(DigitsValue(t[..k]))
  }

  /**
   * `fmt.Sscanf(s, "%d", &n)`: an optional sign followed by at least one
   * decimal digit at the start of `s`. Scanning stops at the first non-digit;
   * what follows is not read and is no error.
   */
  function ParseInt(s: string): (r: Option<int>)
    ensures s == [] ==> r.None?
    ensures s != [] && !IsDigit(s[0]) && s[0] != '+' && s[0] != '-' ==> r.None?
    ensures r.Some? && s[0] != '-' ==> r.value >= 0
  {
    match ScanDigits(s[SignLength(s)..])
    case None => None
    case Some(magnitude) => if s[0] == '-' then Some(-(magnitude as int)) else Some(magnitude)
  }

  /** Decimal form of a natural number, without leading zeros. */
  function NatToDecimal(n: nat): (s: string)
    ensures s != [] && AllDigits(s)
  {
    if n < 10 then [DigitChar(n)] else NatToDecimal(n / 10) + [DigitChar(n % 10)]
  }

  /** Decimal form of an integer, with a leading '-' when it is negative. */
  function IntToDecimal(i: int): string {
    if i < 0 then "-" + NatToDecimal(-i) else NatToDecimal(i)
  }

  lemma {:induction false} DecimalValue(n: nat)
    ensures DigitsValue(NatToDecimal(n)) == n
  {
    if n >= 10 {
      var s := NatToDecimal(n);
      assert s[..|s| - 1] == NatToDecimal(n / 10);
      DecimalValue(n / 10);
    }
  }

  lemma {:induction false} DigitRunOfDigits(d: string, rest: string)
    requires AllDigits(d)
    requires rest == [] || !IsDigit(rest[0])
    ensures DigitRun(d + rest) == |d|
  {
    if d == [] {
      assert d + rest == rest;
    } else {
      assert (d + rest)[1..] == d[1..] + rest;
      DigitRunOfDigits(d[1..], rest);
    }
  }

  /** A run of digits followed by a non-digit, or by nothing, scans as the run's value. */
  lemma ScanDigitRun(d: string, rest: string)
    requires d != [] && AllDigits(d)
    requires rest == [] || !IsDigit(rest[0])
    ensures ScanDigits(d + rest) == Some(DigitsValue(d))
  {
    DigitRunOfDigits(d, rest);
    assert (d + rest)[..|d|] == d;
  }

  lemma ParseDecimal(n: nat, rest: string)
    requires rest == [] || !IsDigit(rest[0])
    ensures ParseInt(NatToDecimal(n) + rest) == Some(n)
  {
    var d := NatToDecimal(n);
    var s := d + rest;
    assert s[0] == d[0] && s[SignLength(s)..] == s;
    DecimalValue(n);
    ScanDigitRun(d, rest);
  }

  lemma ParseMinusDecimal(n: nat, rest: string)
    requires rest == [] || !IsDigit(rest[0])
    ensures ParseInt("-" + NatToDecimal(n) + rest) == Some(-(n as int))
  {
    var d := NatToDecimal(n);
    var s := "-" + d + rest;
    assert s[0] == '-' && s[SignLength(s)..] == d + rest;
    DecimalValue(n);
    ScanDigitRun(d, rest);
  }

  /**
   * Scanning the decimal form of any integer gives that integer back, also
   * when non-digit text follows it.
   */
  lemma ParseIntRoundTrip(i: int, rest: string)
    requires rest == [] || !IsDigit(rest[0])
    ensures ParseInt(IntToDecimal(i) + rest) == Some(i)
  {
    if i < 0 {
      ParseMinusDecimal(-i, rest);
    } else {
      ParseDecimal(i, rest);
    }
  }
}
