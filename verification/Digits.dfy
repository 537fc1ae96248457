/**
  Decimal printing of numbers, left-padded with zeros, and reading them back.

  `Decimal` prints a number without leading zeros and `Value` reads digits, so that the number comes
  back; `Text` adds the sign of a whole number.  Padding with zeros keeps the value, so padded texts are
  equal only for equal numbers.  Document numbers and the cost in a barcode are printed this way.
*/
module Digits {
  function DigitChar(d: nat): char
    requires d < 10
  {
    "0123456789"[d]
  }

  predicate IsDigit(c: char) { '0' <= c <= '9' }

  function DigitValue(c: char): nat
    requires IsDigit(c)
  {
    c as nat - '0' as nat
  }

  predicate AllDigits(s: string) { forall k :: 0 <= k < |s| ==> IsDigit(s[k]) }

  function Decimal(n: nat): (s: string)
    ensures AllDigits(s) && |s| > 0
    ensures n > 0 ==> s[0] != '0'
  {
    if n < 10 then [DigitChar(n)] else Decimal(n / 10) + [DigitChar(n % 10)]
  }

  function Value(s: string): nat
    requires AllDigits(s)
  {
    if |s| == 0 then 0 else 10 * Value(s[..|s| - 1]) + DigitValue(s[|s| - 1])
  }

  lemma {:induction false} ValueOfDecimal(n: nat)
    ensures Value(Decimal(n)) == n
  {
    if n >= 10 {
      ValueOfDecimal(n / 10);
      assert Decimal(n)[..|Decimal(n)| - 1] == Decimal(n / 10);
    } else {
      assert Decimal(n)[..0] == "";
    }
  }

  /** A whole number as text, negative ones with a leading minus. */
  function Text(n: int): string { Signed(n < 0, Magnitude(n)) }

  function Magnitude(n: int): nat { if n < 0 then -n else n }

  function Signed(negative: bool, magnitude: nat): string { (if negative then "-" else "") + Decimal(magnitude) }

  function Pad(s: string, width: nat): (r: string)
    ensures |r| == if |s| < width then width else |s|
    decreases width - |s|
  {
    if |s| >= width then s else Pad("0" + s, width)
  }

  /** Skips leading zeros, then reads an optional minus and digits. */
  function Read(s: string): int {
    if |s| == 0 then 0
    else if s[0] == '0' then Read(s[1..])
    else if s[0] == '-' then (if AllDigits(s[1..]) then 0 - Value(s[1..]) as int else 0)
    else if AllDigits(s) then Value(s) else 0
  }

  lemma {:induction false} ReadSkipsPadding(s: string, width: nat)
    ensures Read(Pad(s, width)) == Read(s)
    decreases width - |s|
  {
    if |s| < width {
      ReadSkipsPadding("0" + s, width);
      assert ("0" + s)[1..] == s;
    }
  }

  lemma {:induction false} ReadNegative(digits: string)
    requires AllDigits(digits)
    ensures Read("-" + digits) == 0 - Value(digits) as int
  {
    var s := "-" + digits;
    assert s[0] == '-' && s[1..] == digits;
  }

  lemma {:induction false} ReadPositive(digits: string)
    requires AllDigits(digits) && |digits| > 0 && digits[0] != '0'
    ensures Read(digits) == Value(digits)
  {
    assert IsDigit(digits[0]);
  }

  lemma {:induction false} ReadZero()
    ensures Read(Decimal(0)) == 0
  {
    assert Decimal(0) == "0" && "0"[1..] == "";
  }

  lemma {:induction false} ReadText(n: int)
    ensures Read(Text(n)) == n
  {
    var m := Magnitude(n);
    var digits := Decimal(m);
    ValueOfDecimal(m);
    assert "" + digits == digits;
    if n < 0 { ReadNegative(digits); } else if n == 0 { ReadZero(); } else { ReadPositive(digits); }
  }

  /** Padded printing loses nothing: reading gives the number back. */
  lemma {:induction false} ReadPadded(n: int, width: nat)
    ensures Read(Pad(Text(n), width)) == n
  {
    ReadSkipsPadding(Text(n), width);
    ReadText(n);
  }

  /** Padding a string of digits keeps it one and keeps its value. */
  lemma {:induction false} PadDigits(s: string, width: nat)
    requires AllDigits(s)
    ensures AllDigits(Pad(s, width)) && Value(Pad(s, width)) == Value(s)
    decreases width - |s|
  {
    if |s| < width {
      PadDigits("0" + s, width);
      LeadingZero(s);
    }
  }

  lemma {:induction false} LeadingZero(s: string)
    requires AllDigits(s)
    ensures Value("0" + s) == Value(s)
  {
    if |s| == 0 {
      assert ("0" + s)[..0] == "";
    } else {
      LeadingZero(s[..|s| - 1]);
      assert ("0" + s)[..|s|] == "0" + s[..|s| - 1];
    }
  }

  /** k digits are worth less than 10^k. */
  function Power(k: nat): (p: nat)
    ensures p > 0
  {
    if k == 0 then 1 else 10 * Power(k - 1)
  }

  lemma {:induction false} ValueFits(s: string)
    requires AllDigits(s)
    ensures Value(s) < Power(|s|)
  {
    if |s| > 0 { ValueFits(s[..|s| - 1]); }
  }

  lemma {:induction false} DecimalFits(n: nat, width: nat)
    requires n < Power(width) && width > 0
    ensures |Decimal(n)| <= width
  {
    if n >= 10 { DecimalFits(n / 10, width - 1); }
  }
}
