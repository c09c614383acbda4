/**
 * String rules shared by the form schemas: ASCII digits (what `\d` matches in
 * a JavaScript regular expression without the `u` flag), the two anchored
 * digit patterns, and a reference reading of an all-digit string as a
 * zero-padded decimal number.
 */
module FormRules {

  predicate IsAsciiDigit(c: char)
  {
    '0' <= c <= '9'
  }

  predicate AllDigits(s: string)
  {
    forall i :: 0 <= i < |s| ==> IsAsciiDigit(s[i])
  }

  /** `/^\d+$/`: one or more digits and nothing else. */
  predicate MatchesDigits(s: string)
  {
    |s| >= 1 && AllDigits(s)
  }

  /** `/^\d{4}$/`: exactly four digits and nothing else. */
  predicate MatchesFourDigits(s: string)
  {
    |s| == 4 && AllDigits(s)
  }

  function Pow10(w: nat): nat
  {
    if w == 0 then 1 else 10 * Pow10(w - 1)
  }

  function DigitChar(d: int): char
    requires 0 <= d < 10
  {
    ('0' as int + d) as char
  }

  function DigitValue(c: char): int
    requires IsAsciiDigit(c)
  {
    c as int - '0' as int
  }

  /** The number an all-digit string spells in decimal (leading zeros allowed). */
  function DecimalValue(s: string): nat
    requires AllDigits(s)
  {
    if s == [] then 0 else 10 * DecimalValue(s[..|s| - 1]) + DigitValue(s[|s| - 1])
  }

  /** `v` written in decimal with exactly `w` digits, padded with leading zeros. */
  function Padded(v: nat, w: nat): (s: string)
    ensures |s| == w && AllDigits(s)
  {
    if w == 0 then "" else Padded(v / 10, w - 1) + [DigitChar(v % 10)]
  }

  /** Every all-digit string is the zero-padded rendering of the number it spells. */
  lemma {:induction false} PaddedOfValue(s: string)
    requires AllDigits(s)
    ensures DecimalValue(s) < Pow10(|s|)
    ensures Padded(DecimalValue(s), |s|) == s
  {
    if s != [] {
      var init, last := s[..|s| - 1], s[|s| - 1];
      assert AllDigits(init);
      PaddedOfValue(init);
      var v := DecimalValue(s);
      var d := DigitValue(last);
      assert v == 10 * DecimalValue(init) + d;
      assert v / 10 == DecimalValue(init) && v % 10 == d;
      assert DigitChar(d) == last;
      assert s == init + [last];
    }
  }

  /** Padding a number that fits in `w` digits and reading it back gives the number. */
  lemma {:induction false} ValueOfPadded(v: nat, w: nat)
    requires v < Pow10(w)
    ensures DecimalValue(Padded(v, w)) == v
  {
    if w > 0 {
      ValueOfPadded(v / 10, w - 1);
      var s := Padded(v, w);
      assert s[..|s| - 1] == Padded(v / 10, w - 1);
      assert DigitValue(s[|s| - 1]) == v % 10;
    }
  }

  /** The strings of `w` digits are exactly the paddings of the numbers below `10^w`. */
  lemma DigitStringsArePaddings(s: string, w: nat)
    ensures (|s| == w && AllDigits(s)) <==> exists v: nat :: v < Pow10(w) && s == Padded(v, w)
  {
    if |s| == w && AllDigits(s) {
      PaddedOfValue(s);
    }
  }
}
