/** Decimal text of integers, as Java's string concatenation writes a `long`
    or an `int` (an optional '-' and the digits, no leading zeros). The
    services' exception messages end in such numbers. */
module Decimal {

  function DigitChar(d: nat): (c: char)
    requires d < 10
    ensures '0' <= c <= '9'
  {
    ['0', '1', '2', '3', '4', '5', '6', '7', '8', '9'][d]
  }

  function DigitValue(c: char): nat
  {
    if '0' <= c <= '9' then (c - '0') as nat else 0
  }

  predicate AllDigits(s: string)
  {
    forall i :: 0 <= i < |s| ==> '0' <= s[i] <= '9'
  }

  /** The digits of a natural number, most significant first. */
  function Digits(n: nat): (s: string)
    ensures |s| >= 1 && AllDigits(s)
    ensures n >= 10 ==> s[0] != '0'
    decreases n
  {
    if n < 10 then [DigitChar(n)] else Digits(n / 10) + [DigitChar(n % 10)]
  }

  /** Java's `"" + n`. */
  function Text(n: int): (s: string)
    ensures |s| >= 1
    ensures (s[0] == '-') <==> n < 0
    ensures AllDigits(if n < 0 then s[1..] else s)
  {
    if n < 0 then "-" + Digits(-n) else Digits(n)
  }

  function ParseDigits(s: string): nat
  {
    if s == [] then 0 else ParseDigits(s[..|s| - 1]) * 10 + DigitValue(s[|s| - 1])
  }

  /** Reads back what Text writes. */
  function Parse(s: string): int
  {
    if |s| > 0 && s[0] == '-' then -(ParseDigits(s[1..]) as int) else ParseDigits(s)
  }

  lemma {:induction false} ParseDigitsOfDigits(n: nat)
    ensures ParseDigits(Digits(n)) == n
    decreases n
  {
    if n >= 10 {
      var s := Digits(n);
      assert s[..|s| - 1] == Digits(n / 10);
      ParseDigitsOfDigits(n / 10);
    }
  }

  lemma RoundTripNegative(n: int)
    requires n < 0
    ensures Parse(Text(n)) == n
  {
    var d := Digits(-n);
    assert Text(n) == "-" + d;
    assert ("-" + d)[1..] == d;
    ParseDigitsOfDigits(-n);
  }

  lemma RoundTripNonNegative(n: nat)
    ensures Parse(Text(n)) == n
  {
    var d := Digits(n);
    assert '0' <= d[0] <= '9';
    ParseDigitsOfDigits(n);
  }

  /** The text of a number determines the number: a message that ends in an
      id names exactly one id. */
  lemma TextRoundTrip(n: int)
    ensures Parse(Text(n)) == n
  {
    if n < 0 {
      RoundTripNegative(n);
    } else {
      RoundTripNonNegative(n);
    }
  }

  lemma TextInjective(a: int, b: int)
    ensures Text(a) == Text(b) <==> a == b
  {
    TextRoundTrip(a);
    TextRoundTrip(b);
  }

  /** A message made of a fixed text, a number and another fixed text names
      exactly one number. */
  lemma EmbeddedInjective(prefix: string, a: int, b: int, suffix: string)
    ensures prefix + Text(a) + suffix == prefix + Text(b) + suffix <==> a == b
  {
    var ma, mb := prefix + Text(a) + suffix, prefix + Text(b) + suffix;
    if ma == mb {
      assert |Text(a)| == |Text(b)|;
      assert ma[|prefix|..|prefix| + |Text(a)|] == Text(a);
      assert mb[|prefix|..|prefix| + |Text(b)|] == Text(b);
      TextInjective(a, b);
    }
  }
}
