/** JavaScript numbers as the parsers produce them, and a decimal model of `parseInt`. */
module Numbers {

  /** A JavaScript number: a value, NaN, or an infinity. Doubles are modelled by
      reals, so rounding and negative zero are not represented. */
  datatype Number = Finite(value: real) | NaN | Infinite(negative: bool)

  predicate IsDigit(c: char) {
    '0' <= c <= '9'
  }

  function DigitValue(c: char): (d: nat)
    requires IsDigit(c)
    ensures d < 10
  {
    c as int - '0' as int
  }

  function DigitChar(d: nat): (c: char)
    requires d < 10
    ensures IsDigit(c) && DigitValue(c) == d
  {
    ('0' as int + d) as char
  }

  predicate AllDigits(s: string) {
    forall k :: 0 <= k < |s| ==> IsDigit(s[k])
  }

  /** The length of the run of decimal digits at the start of `s`. */
  function DigitRun(s: string): (n: nat)
    ensures n <= |s|
    ensures AllDigits(s[..n])
    ensures n < |s| ==> !IsDigit(s[n])
  {
    if s == [] || !IsDigit(s[0]) then 0
    else
      var n := 1 + DigitRun(s[1..]);
      assert forall k :: 1 <= k < n ==> s[..n][k] == s[1..][..n - 1][k - 1];
      n
  }

  /** The value of a string of decimal digits, most significant first. */
  function DigitsValue(ds: string): nat
    requires AllDigits(ds)
  {
    if ds == [] then 0
    else DigitsValue(ds[..|ds| - 1]) * 10 + DigitValue(ds[|ds| - 1])
  }

  /** The text after an optional leading sign. */
  function Unsigned(s: string): string {
    if |s| > 0 && (s[0] == '-' || s[0] == '+') then s[1..] else s
  }

  /** `parseInt` without a radix, on decimal input: an optional sign, then the
      longest run of digits; anything after the run is ignored, and no digits at
      all gives NaN. */
  function ParseIntPrefix(s: string): (r: Number)
    ensures r.NaN? <==> DigitRun(Unsigned(s)) == 0
    ensures !r.Infinite?
    ensures r.Finite? && |s| > 0 && s[0] == '-' ==> r.value <= 0.0
    ensures r.Finite? && (|s| == 0 || s[0] != '-') ==> r.value >= 0.0
  {
    var body := Unsigned(s);
    var n := DigitRun(body);
    if n == 0 then NaN
    else
      var magnitude := DigitsValue(body[..n]) as real;
      Finite(if |s| > 0 && s[0] == '-' then -magnitude else magnitude)
  }

  /** The decimal numeral of `n`, without leading zeros. */
  function Decimal(n: nat): (s: string)
    ensures |s| >= 1 && AllDigits(s)
  {
    if n < 10 then [DigitChar(n)] else Decimal(n / 10) + [DigitChar(n % 10)]
  }

  /** The decimal numeral of `n`, with a minus sign when negative. */
  function SignedDecimal(n: int): string {
    if n < 0 then "-" + Decimal(-n) else Decimal(n)
  }

  lemma {:induction false} DecimalValue(n: nat)
    ensures DigitsValue(Decimal(n)) == n
  {
    if n >= 10 {
      DecimalValue(n / 10);
      var s := Decimal(n);
      assert s[..|s| - 1] == Decimal(n / 10);
    }
  }

  /** The digit run of a numeral followed by text that does not start with a
      digit is exactly the numeral. */
  lemma {:induction false} DigitRunOfNumeral(ds: string, rest: string)
    requires AllDigits(ds)
    requires rest == [] || !IsDigit(rest[0])
    ensures DigitRun(ds + rest) == |ds|
  {
    if ds != [] {
      assert (ds + rest)[1..] == ds[1..] + rest;
      DigitRunOfNumeral(ds[1..], rest);
    } else {
      assert ds + rest == rest;
    }
  }

  /** `parseInt` reads back the numeral of any integer, whatever non-digit text
      follows it. */
  lemma ParseIntOfDecimal(n: int, rest: string)
    requires rest == [] || !IsDigit(rest[0])
    ensures ParseIntPrefix(SignedDecimal(n) + rest) == Finite(n as real)
  {
    var m: nat := if n < 0 then -n else n;
    var ds := Decimal(m);
    var s := SignedDecimal(n) + rest;
    DecimalValue(m);
    DigitRunOfNumeral(ds, rest);
    if n < 0 {
      assert s == ['-'] + (ds + rest);
      assert Unsigned(s) == ds + rest;
    } else {
      assert s == ds + rest;
      assert IsDigit(ds[0]);
      assert Unsigned(s) == ds + rest;
    }
    assert (ds + rest)[..|ds|] == ds;
  }
}
