/**
 * Validation of the board size typed by the user: the text minus its last
 * character must be a decimal number that is odd and between 5 and 21.
 */
module FieldSize {
  import opened Geometry

  /** Why a size was refused: not a number, too large, or even or too small. */
  datatype SizeError = NotInt | TooMany | ValProps

  datatype SizeVerdict = Correct | Incorrect(error: SizeError)

  predicate IsDigit(c: char) {
    '0' <= c <= '9'
  }

  /** A nonempty string of ASCII digits. */
  predicate IsDigits(s: string) {
    |s| > 0 && forall i :: 0 <= i < |s| ==> IsDigit(s[i])
  }

  function DigitValue(c: char): (d: nat)
    requires IsDigit(c)
    ensures d <= 9
  {
    c as int - '0' as int
  }

  /** The value of a string of digits read in base ten (leading zeros allowed). */
  function DecimalValue(s: string): nat
    requires forall i :: 0 <= i < |s| ==> IsDigit(s[i])
  {
    if s == [] then 0 else 10 * DecimalValue(s[..|s| - 1]) + DigitValue(s[|s| - 1])
  }

  /** Python's `s[:-1]`: everything but the last character (nothing left of an empty string). */
  function DropLast(s: string): (r: string)
    ensures |s| > 0 ==> r + [s[|s| - 1]] == s
    ensures |s| == 0 ==> r == []
  {
    if |s| == 0 then [] else s[..|s| - 1]
  }

  /** The sizes the game accepts. */
  predicate ValidSize(n: int) {
    n % 2 == 1 && 5 <= n <= 21
  }

  lemma ValidSizeIsOddBoard(n: int)
    requires ValidSize(n)
    ensures OddBoard(n)
  {
  }

  /**
   * `size_is_correct`: the typed text minus its last character is checked
   * for being a number first, then for being at most 21, then for being odd
   * and at least 5.
   */
  function SizeIsCorrect(size: string): (r: SizeVerdict)
    ensures r == Correct <==> IsDigits(DropLast(size)) && ValidSize(DecimalValue(DropLast(size)))
    ensures r == Incorrect(NotInt) <==> !IsDigits(DropLast(size))
    ensures r == Incorrect(TooMany) <==> IsDigits(DropLast(size)) && DecimalValue(DropLast(size)) > 21
  {
    var body := DropLast(size);
    if !IsDigits(body) then Incorrect(NotInt)
    else if DecimalValue(body) > 21 then Incorrect(TooMany)
    else if DecimalValue(body) < 5 || DecimalValue(body) % 2 == 0 then Incorrect(ValProps)
    else Correct
  }

  /** The decimal digits of `v`, without leading zeros. */
  function ShowDecimal(v: nat): (s: string)
    ensures IsDigits(s) && DecimalValue(s) == v
    ensures s[0] != '0' || v == 0
    decreases v
  {
    var last := ['0' + ((v % 10) as char)];
    if v < 10 then last
    else
      var front := ShowDecimal(v / 10);
      assert (front + last)[..|front + last| - 1] == front;
      front + last
  }

  /** Every valid size, typed in decimal and followed by any character, is accepted. */
  lemma AcceptsEveryValidSize(n: nat, last: char)
    requires ValidSize(n)
    ensures SizeIsCorrect(ShowDecimal(n) + [last]) == Correct
  {
    assert DropLast(ShowDecimal(n) + [last]) == ShowDecimal(n);
  }

  /** An accepted size is a board the game can be played on. */
  lemma AcceptedSizeIsOddBoard(size: string)
    requires SizeIsCorrect(size) == Correct
    ensures OddBoard(DecimalValue(DropLast(size)))
  {
  }

  /** Accepted sizes; leading zeros are allowed, as Python's `int` allows them. */
  lemma AcceptedExamples()
    ensures SizeIsCorrect("11\n") == Correct
    ensures SizeIsCorrect("011\n") == Correct
  {
    assert DropLast("11\n") == "11" && "11"[..1] == "1";
    assert DropLast("011\n") == "011" && "011"[..2] == "01" && "01"[..1] == "0";
    assert DecimalValue("1") == 1 && DecimalValue("11") == 11;
    assert DecimalValue("0") == 0 && DecimalValue("01") == 1 && DecimalValue("011") == 11;
  }

  /** Text that is not a number, or nothing at all once the last character is dropped. */
  lemma NotIntExamples()
    ensures SizeIsCorrect("x1\n") == Incorrect(NotInt)
    ensures SizeIsCorrect("\n") == Incorrect(NotInt)
    ensures SizeIsCorrect("") == Incorrect(NotInt)
  {
    assert DropLast("x1\n") == "x1";
  }

  /** Values above 21 are refused as too many, even when they are also even. */
  lemma TooManyExamples()
    ensures SizeIsCorrect("22\n") == Incorrect(TooMany)
    ensures SizeIsCorrect("23\n") == Incorrect(TooMany)
  {
    assert DropLast("22\n") == "22" && "22"[..1] == "2";
    assert DropLast("23\n") == "23" && "23"[..1] == "2";
    assert DecimalValue("2") == 2 && DecimalValue("22") == 22 && DecimalValue("23") == 23;
  }

  /**
   * Even or small values are refused; so is "11" without a trailing
   * character, since its last digit is the one dropped.
   */
  lemma ValPropsExamples()
    ensures SizeIsCorrect("11") == Incorrect(ValProps)
    ensures SizeIsCorrect("4\n") == Incorrect(ValProps)
    ensures SizeIsCorrect("12\n") == Incorrect(ValProps)
  {
    assert DropLast("11") == "1" && DecimalValue("1") == 1;
    assert DropLast("4\n") == "4" && DecimalValue("4") == 4;
    assert DropLast("12\n") == "12" && "12"[..1] == "1";
    assert DecimalValue("12") == 12;
  }
}
