/**
 * The dashboard card's counter text: the value's decimal representation,
 * left-padded with "0" to at least two characters.
 */
module StatCard {

  predicate IsDigit(c: char) {
    '0' <= c <= '9'
  }

  predicate AllDigits(s: string) {
    forall i :: 0 <= i < |s| ==> IsDigit(s[i])
  }

  function DigitChar(d: nat): (c: char)
    requires d < 10
    ensures IsDigit(c)
  {
    ('0' as int + d) as char
  }

  function DigitValue(c: char): (d: nat)
    requires IsDigit(c)
    ensures d < 10 && DigitChar(d) == c
  {
    c as int - '0' as int
  }

  /** `toString()` of a natural: its decimal digits, most significant first, without leading zeros. */
  function Decimal(n: nat): (s: string)
    ensures |s| >= 1 && AllDigits(s)
    ensures s[0] == '0' ==> n == 0
    decreases n
  {
    if n < 10 then [DigitChar(n)] else Decimal(n / 10) + [DigitChar(n % 10)]
  }

  /** Reads a digit string as a number; leading zeros add nothing. */
  function DecimalValue(s: string): nat
    requires AllDigits(s)
    decreases |s|
  {
    if s == [] then 0 else DecimalValue(s[..|s| - 1]) * 10 + DigitValue(s[|s| - 1])
  }

  function Pow10(k: nat): (p: nat)
    ensures p >= 1
  {
    if k == 0 then 1 else 10 * Pow10(k - 1)
  }

  /** Reading the representation back gives the value. */
  lemma {:induction false} DecimalRoundTrip(n: nat)
    ensures DecimalValue(Decimal(n)) == n
  {
    if n >= 10 {
      DecimalRoundTrip(n / 10);
      var s := Decimal(n);
      assert s[..|s| - 1] == Decimal(n / 10);
    }
  }

  /** The representation has k characters exactly when 10^(k-1) <= n < 10^k (or k == 1 for 0). */
  lemma {:induction false} DecimalLength(n: nat)
    ensures n < Pow10(|Decimal(n)|)
    ensures |Decimal(n)| > 1 ==> Pow10(|Decimal(n)| - 1) <= n
  {
    if n >= 10 {
      DecimalLength(n / 10);
    }
  }

  /** A leading "0" does not change the value a digit string denotes. */
  lemma {:induction false} LeadingZeroIgnored(s: string)
    requires AllDigits(s)
    ensures DecimalValue(['0'] + s) == DecimalValue(s)
  {
    if s != [] {
      var z := ['0'] + s;
      assert z[..|z| - 1] == ['0'] + s[..|s| - 1];
      LeadingZeroIgnored(s[..|s| - 1]);
    }
  }

  /** `padStart(targetLength, fill)` with a one-character fill string. */
  function PadStart(s: string, targetLength: nat, fill: char): (r: string)
    ensures |r| == if |s| >= targetLength then |s| else targetLength
    ensures r[|r| - |s|..] == s
    ensures forall i :: 0 <= i < |r| - |s| ==> r[i] == fill
    decreases targetLength
  {
    if |s| >= targetLength then s else [fill] + PadStart(s, targetLength - 1, fill)
  }

  /** The text shown for a counter value. */
  function FormatStatValue(n: nat): (r: string)
    ensures |r| == if |Decimal(n)| >= 2 then |Decimal(n)| else 2
    ensures r[|r| - |Decimal(n)|..] == Decimal(n)
    ensures n < 10 ==> r == ['0', DigitChar(n)]
    ensures n >= 10 ==> r == Decimal(n)
  {
    DecimalLength(n);
    PadStart(Decimal(n), 2, '0')
  }

  /** The shown text is all digits and reads back as the value. */
  lemma FormatStatValueReadsBack(n: nat)
    ensures AllDigits(FormatStatValue(n))
    ensures DecimalValue(FormatStatValue(n)) == n
  {
    DecimalRoundTrip(n);
    if n < 10 {
      LeadingZeroIgnored([DigitChar(n)]);
    }
  }

  // The dashboard's fixture statistics (9, 23, 11) and zero, as shown

  lemma FormatNine()
    ensures FormatStatValue(9) == "09"
  {
    assert DigitChar(9) == '9';
  }

  lemma FormatTwentyThree()
    ensures FormatStatValue(23) == "23"
  {
    assert DigitChar(2) == '2' && DigitChar(3) == '3';
    assert Decimal(23) == Decimal(2) + [DigitChar(3)];
  }

  lemma FormatEleven()
    ensures FormatStatValue(11) == "11"
  {
    assert DigitChar(1) == '1';
    assert Decimal(11) == Decimal(1) + [DigitChar(1)];
  }

  lemma FormatZero()
    ensures FormatStatValue(0) == "00"
  {
    assert DigitChar(0) == '0';
  }
}
