/** Identifier formatting (helper/misc.py) and the decimal rendering it relies on. */
module Misc {

  predicate IsDigit(c: char) { '0' <= c <= '9' }

  function DigitChar(d: nat): (c: char)
    requires d < 10
    ensures IsDigit(c) && (c as int) - ('0' as int) == d
  {
    (('0' as int) + d) as char
  }

  /** Python's `str(n)` for a non-negative integer: decimal digits without leading zeros. */
  function Digits(n: nat): (s: string)
    ensures 1 <= |s|
    ensures forall i :: 0 <= i < |s| ==> IsDigit(s[i])
    ensures n < 10 <==> |s| == 1
    ensures n < 100 <==> |s| <= 2
    decreases n
  {
    if n < 10 then [DigitChar(n)] else Digits(n / 10) + [DigitChar(n % 10)]
  }

  /** Python's `str(n)` for any integer. */
  function Str(n: int): string
  {
    if n < 0 then "-" + Digits(-n) else Digits(n)
  }

  /** Python's `s.rjust(width, fill)`. */
  function RJust(s: string, width: nat, fill: char): (r: string)
    ensures |r| == if |s| >= width then |s| else width
    ensures |s| <= |r| && r[|r| - |s|..] == s
    ensures forall i :: 0 <= i < |r| - |s| ==> r[i] == fill
  {
    if |s| >= width then s else seq(width - |s|, _ => fill) + s
  }

  /**
   * `create_id(letter, number)`: the letter followed by `str(number)` padded on the
   * left with '0' to two characters.  Numbers above 99 only log a warning and give
   * a longer id.
   */
  function CreateId(letter: char, number: int): (id: string)
    ensures 3 <= |id| && id[0] == letter
    ensures 0 <= number <= 99 ==> |id| == 3
    ensures number > 99 ==> |id| > 3
    ensures 0 <= number ==> forall i :: 1 <= i < |id| ==> IsDigit(id[i])
  {
    [letter] + RJust(Str(number), 2, '0')
  }

  /** Reads a string of decimal digits as a number, the inverse of `Digits`. */
  function DigitsValue(s: string): nat
  {
    if s == [] then 0
    else
      var d := (s[|s| - 1] as int) - ('0' as int);
      DigitsValue(s[..|s| - 1]) * 10 + (if 0 <= d then d else 0)
  }

  lemma {:induction false} DigitsValueOfDigits(n: nat)
    ensures DigitsValue(Digits(n)) == n
    decreases n
  {
    if n >= 10 {
      var s := Digits(n / 10) + [DigitChar(n % 10)];
      assert s[..|s| - 1] == Digits(n / 10);
      DigitsValueOfDigits(n / 10);
    }
  }

  /** Leading zeros do not change the value of a digit string. */
  lemma {:induction false} DigitsValueLeadingZero(s: string)
    ensures DigitsValue("0" + s) == DigitsValue(s)
    decreases |s|
  {
    if s != [] {
      var t := "0" + s;
      assert t[..|t| - 1] == "0" + s[..|s| - 1];
      assert t[|t| - 1] == s[|s| - 1];
      DigitsValueLeadingZero(s[..|s| - 1]);
    }
  }

  /** Splits an identifier back into its letter and number. */
  function ParseId(id: string): (char, nat)
    requires 1 <= |id|
  {
    (id[0], DigitsValue(id[1..]))
  }

  /** For a non-negative number the id decodes back to the letter and the number it was built from. */
  lemma CreateIdRoundTrip(letter: char, number: nat)
    ensures ParseId(CreateId(letter, number)) == (letter, number)
  {
    var id := CreateId(letter, number);
    assert id[1..] == RJust(Digits(number), 2, '0');
    DigitsValueOfDigits(number);
    if number < 10 {
      assert id[1..] == "0" + Digits(number);
      DigitsValueLeadingZero(Digits(number));
    } else {
      assert id[1..] == Digits(number);
    }
  }

  /** Different non-negative numbers give different ids. */
  lemma CreateIdInjective(letter: char, a: nat, b: nat)
    ensures CreateId(letter, a) == CreateId(letter, b) ==> a == b
  {
    CreateIdRoundTrip(letter, a);
    CreateIdRoundTrip(letter, b);
  }

  /** Branch ids start at B00 and component ids at C01, three characters each. */
  lemma FirstIdsExamples()
    ensures CreateId('B', 0) == "B00"
    ensures CreateId('C', 1) == "C01"
  {
  }

  /** A two-digit counter fills both digit places. */
  lemma TwoDigitIdExample()
    ensures CreateId('P', 12) == "P12"
  {
  }

  /** A counter above 99 gives a longer id rather than an error. */
  lemma LongIdExample()
    ensures CreateId('B', 100) == "B100"
  {
    assert Digits(100) == Digits(10) + [DigitChar(0)];
    assert Digits(10) == Digits(1) + [DigitChar(0)];
  }
}
