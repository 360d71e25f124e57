/**
 * The parts of PHP's string handling that a tile depends on: the decimal
 * rendering of an integer used when an `int` is concatenated with `.`, PHP's
 * truthiness of strings, and a parser that inverts the size label.
 */
module PhpStrings {
  import opened Wrappers

  predicate IsDigit(c: char) {
    '0' <= c <= '9'
  }

  predicate AllDigits(s: string) {
    forall i :: 0 <= i < |s| ==> IsDigit(s[i])
  }

  /** PHP treats the empty string and "0" as false (`?:`, `!`). */
  predicate TruthyString(s: string) {
    s != "" && s != "0"
  }

  function DigitValue(c: char): (d: nat)
    requires IsDigit(c)
    ensures d < 10
  {
    c as int - '0' as int
  }

  function DigitChar(d: nat): (c: char)
    requires d < 10
    ensures IsDigit(c) && DigitValue(c) == d
  {
    ('0' as int + d) as char
  }

  /** Decimal digits of `n`, most significant first, without leading zeros. */
  function NatToDecimal(n: nat): (s: string)
    ensures |s| >= 1 && AllDigits(s)
    ensures (s[0] == '0') == (n == 0)
    decreases n
  {
    if n < 10 then [DigitChar(n)] else NatToDecimal(n / 10) + [DigitChar(n % 10)]
  }

  /** The number a string of decimal digits denotes. */
  function DecimalValue(s: string): nat
    requires AllDigits(s)
    decreases |s|
  {
    if s == [] then 0 else DecimalValue(s[..|s| - 1]) * 10 + DigitValue(s[|s| - 1])
  }

  lemma {:induction false} DecimalRoundTrip(n: nat)
    ensures DecimalValue(NatToDecimal(n)) == n
    decreases n
  {
    if n >= 10 {
      var prefix := NatToDecimal(n / 10);
      var s := NatToDecimal(n);
      assert s == prefix + [DigitChar(n % 10)];
      assert s[..|s| - 1] == prefix;
      DecimalRoundTrip(n / 10);
    }
  }

  /** PHP's conversion of an integer to a string: a '-' for negatives, then the digits. */
  function IntToString(i: int): (s: string)
    ensures |s| >= 1 && (s[0] == '-') == (i < 0)
    ensures AllDigits(if i < 0 then s[1..] else s)
  {
    if i < 0 then "-" + NatToDecimal(-i) else NatToDecimal(i)
  }

  /** Reads back an integer written by IntToString; anything else is None. */
  function ParseInt(s: string): Option<int> {
    if |s| >= 2 && s[0] == '-' && AllDigits(s[1..]) then Some(-(DecimalValue(s[1..]) as int))
    else if |s| >= 1 && AllDigits(s) then Some(DecimalValue(s))
    else None
  }

  lemma IntRoundTrip(i: int)
    ensures ParseInt(IntToString(i)) == Some(i)
  {
    if i < 0 {
      var digits := NatToDecimal(-i);
      var s := "-" + digits;
      assert s[1..] == digits;
      DecimalRoundTrip(-i);
      assert ParseInt(s) == Some(-(DecimalValue(digits) as int));
    } else {
      var digits := NatToDecimal(i);
      assert IsDigit(digits[0]);
      DecimalRoundTrip(i);
      assert ParseInt(digits) == Some(DecimalValue(digits) as int);
    }
  }

  /** The tile size label: width and height joined by a '-'. */
  function SizeLabel(width: int, height: int): string {
    IntToString(width) + "-" + IntToString(height)
  }

  /** The index of the first '-' at or after `from`, or |s| when there is none. */
  function FindDash(s: string, from: nat): (k: nat)
    requires from <= |s|
    ensures from <= k <= |s|
    ensures k < |s| ==> s[k] == '-'
    ensures forall j :: from <= j < k ==> s[j] != '-'
    decreases |s| - from
  {
    if from == |s| || s[from] == '-' then from else FindDash(s, from + 1)
  }

  /**
   * Splits a size label at the first '-' that is not a leading sign and reads
   * both halves as integers.
   */
  function ParseSizeLabel(text: string): Option<(int, int)> {
    if |text| == 0 then None
    else
      var k := FindDash(text, 1);
      if k == |text| then None
      else
        match (ParseInt(text[..k]), ParseInt(text[k + 1..]))
        case (Some(w), Some(h)) => Some((w, h))
        case _ => None
  }

  /** The size label determines the width and height it was made from, signs included. */
  lemma SizeLabelRoundTrip(width: int, height: int)
    ensures ParseSizeLabel(SizeLabel(width, height)) == Some((width, height))
  {
    var a, b := IntToString(width), IntToString(height);
    var text := SizeLabel(width, height);
    assert text == a + "-" + b;
    forall j | 1 <= j < |a|
      ensures text[j] != '-'
    {
      if width < 0 {
        assert a[j] == a[1..][j - 1];
      }
      assert IsDigit(a[j]);
    }
    assert text[|a|] == '-';
    var k := FindDash(text, 1);
    assert k == |a|;
    assert text[..k] == a;
    assert text[k + 1..] == b;
    IntRoundTrip(width);
    IntRoundTrip(height);
  }
}
