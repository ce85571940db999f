/** Decimal digit strings for natural numbers, as JavaScript renders integers. */
module Decimal {
  import opened Options
  import opened Text

  predicate IsDigit(c: char) {
    '0' <= c <= '9'
  }

  predicate AllDigits(s: string) {
    forall i :: 0 <= i < |s| ==> IsDigit(s[i])
  }

  function DigitChar(d: nat): (c: char)
    requires d < 10
    ensures IsDigit(c)
  {
    ('0' as int + d) as char
  }

  function DigitValue(c: char): nat
    requires IsDigit(c)
  {
    c as int - '0' as int
  }

  /** `String(n)` for a natural number: no sign, no leading zero. */
  function NatToString(n: nat): (s: string)
    ensures |s| >= 1 && AllDigits(s)
    ensures |s| > 1 ==> s[0] != '0'
    decreases n
  {
    if n < 10 then [DigitChar(n)] else NatToString(n / 10) + [DigitChar(n % 10)]
  }

  /** The number a digit string denotes. */
  function DigitsValue(s: string): nat
    requires AllDigits(s)
  {
    if s == [] then 0 else DigitsValue(s[..|s| - 1]) * 10 + DigitValue(s[|s| - 1])
  }

  /** Reading back a rendered number gives the number. */
  lemma {:induction false} NatToStringRoundTrip(n: nat)
    ensures DigitsValue(NatToString(n)) == n
    decreases n
  {
    var s := NatToString(n);
    if n >= 10 {
      NatToStringRoundTrip(n / 10);
      assert s[..|s| - 1] == NatToString(n / 10);
    }
  }

  lemma NatToStringInjective(a: nat, b: nat)
    requires NatToString(a) == NatToString(b)
    ensures a == b
  {
    NatToStringRoundTrip(a);
    NatToStringRoundTrip(b);
  }

  /** The two-digit cents field of a currency amount: `0` to `99` with a leading zero. */
  function TwoDigits(n: nat): (s: string)
    requires n < 100
    ensures |s| == 2 && AllDigits(s)
  {
    [DigitChar(n / 10), DigitChar(n % 10)]
  }

  lemma TwoDigitsRoundTrip(n: nat)
    requires n < 100
    ensures DigitsValue(TwoDigits(n)) == n
  {
    var s := TwoDigits(n);
    assert s[..1] == [s[0]];
    assert DigitsValue(s[..1]) == DigitValue(s[0]) by {
      assert [s[0]][..0] == [];
    }
  }

  function Pow10(n: nat): (r: nat)
    ensures r >= 1
  {
    if n == 0 then 1 else 10 * Pow10(n - 1)
  }

  /** The value of the digits after a decimal point. */
  function FractionValue(frac: string): real
    requires AllDigits(frac)
  {
    DigitsValue(frac) as real / Pow10(|frac|) as real
  }

  /** The value of an unsigned decimal numeral: digits, optionally followed by a dot and at least one more
      digit. None for any other text. */
  function UnsignedDecimalValue(s: string): Option<real> {
    if s != [] && AllDigits(s) then Some(DigitsValue(s) as real)
    else
      var frac := AfterLast(s, '.');
      if |frac| == |s| then None
      else
        var whole := s[..|s| - |frac| - 1];
        if whole != [] && AllDigits(whole) && frac != [] && AllDigits(frac) then
          Some(DigitsValue(whole) as real + FractionValue(frac))
        else None
  }

  /** The value of a decimal numeral with an optional leading minus sign: the texts on which `parseFloat`
      reads the number the text shows. */
  function DecimalValue(s: string): Option<real> {
    if s != [] && s[0] == '-' then
      match UnsignedDecimalValue(s[1..])
      case None => None
      case Some(v) => Some(-v)
    else UnsignedDecimalValue(s)
  }

  /** A parser agrees with DecimalValue on every decimal numeral. */
  ghost predicate ReadsDecimals(parse: NumberParser) {
    forall s :: DecimalValue(s).Some? ==> parse(s) == DecimalValue(s)
  }

  /** A numeral that starts with a digit reads unsigned; behind a minus sign it reads negated. */
  lemma DecimalSign(s: string)
    requires s != [] && IsDigit(s[0])
    ensures DecimalValue(s) == UnsignedDecimalValue(s)
    ensures DecimalValue("-" + s)
         == if UnsignedDecimalValue(s).Some? then Some(-UnsignedDecimalValue(s).value) else None
  {
    var t := "-" + s;
    assert t != [] && t[0] == '-' && t[1..] == s;
    assert s[0] != '-';
  }

  /** Digits, a dot and digits read as the whole part plus the fraction. */
  lemma UnsignedDecimalOfParts(whole: string, frac: string)
    requires whole != [] && AllDigits(whole) && frac != [] && AllDigits(frac)
    ensures UnsignedDecimalValue(whole + "." + frac)
         == Some(DigitsValue(whole) as real + FractionValue(frac))
  {
    var s := whole + "." + frac;
    assert '.' !in frac by {
      forall i | 0 <= i < |frac| ensures frac[i] != '.' {
        assert IsDigit(frac[i]);
      }
    }
    AfterLastJoin(whole, frac, '.');
    assert s[|whole|] == '.';
    assert !AllDigits(s);
    assert s[..|s| - |frac| - 1] == whole;
  }
}
