/** Python's `int(text)` on a `str`, base 10: surrounding whitespace is
    ignored, one optional sign is allowed, and single underscores may
    separate digits. */
module PyInt {
  import opened Results
  import opened Strings

  predicate IsDigit(c: char) {
    '0' <= c <= '9'
  }

  function DigitOf(c: char): nat
    requires IsDigit(c)
  {
    c as int - '0' as int
  }

  function DigitChar(d: nat): (c: char)
    requires d < 10
    ensures IsDigit(c) && DigitOf(c) == d
  {
    ('0' as int + d) as char
  }

  /** The digit part Python accepts: digits, where an underscore may stand
      only between two digits. */
  predicate DigitsOrUnderscores(t: string) {
    forall i :: 0 <= i < |t| ==> IsDigit(t[i]) || t[i] == '_'
  }

  predicate WellFormedDigits(t: string) {
    && |t| > 0
    && IsDigit(t[0])
    && DigitsOrUnderscores(t)
    && forall i {:trigger t[i]} :: 0 <= i < |t| ==>
         IsDigit(t[i]) || (t[i] == '_' && 0 < i < |t| - 1 && IsDigit(t[i + 1]))
  }

  /** The value of a digit string, underscores ignored. */
  function DigitsValue(t: string): nat
    requires DigitsOrUnderscores(t)
    decreases |t|
  {
    if |t| == 0 then 0
    else if t[|t| - 1] == '_' then DigitsValue(t[..|t| - 1])
    else DigitsValue(t[..|t| - 1]) * 10 + DigitOf(t[|t| - 1])
  }

  /** `int(s)`; `None` where Python raises `ValueError`. */
  function ParseInt(s: string): (r: Option<int>)
    ensures r.Some? ==> |Strip(s)| > 0
    ensures r.Some? ==> r.value < 0 ==> Strip(s)[0] == '-'
  {
    var t := Strip(s);
    if |t| > 0 && (t[0] == '+' || t[0] == '-') then
      var d := t[1..];
      if WellFormedDigits(d) then
        var v: int := DigitsValue(d);
        Some(if t[0] == '-' then -v else v)
      else None
    else if WellFormedDigits(t) then Some(DigitsValue(t))
    else None
  }

  /** Decimal text of a natural number, without leading zeros. */
  function NatToText(n: nat): (t: string)
    ensures |t| > 0
    ensures forall i :: 0 <= i < |t| ==> IsDigit(t[i])
    decreases n
  {
    if n < 10 then [DigitChar(n)] else NatToText(n / 10) + [DigitChar(n % 10)]
  }

  /** Python `str(n)` for an integer. */
  function IntToText(n: int): (t: string)
    ensures |t| > 0 && IsDigit(t[|t| - 1])
    ensures forall i :: 0 <= i < |t| ==> IsDigit(t[i]) || (i == 0 && t[i] == '-')
  {
    if n < 0 then "-" + NatToText(-n) else NatToText(n)
  }

  lemma {:induction false} NatToTextValue(n: nat)
    ensures DigitsValue(NatToText(n)) == n
    decreases n
  {
    var t := NatToText(n);
    if n >= 10 {
      NatToTextValue(n / 10);
      assert t[..|t| - 1] == NatToText(n / 10);
    }
  }

  lemma NoSpaceStrip(t: string)
    requires |t| > 0 && !IsSpace(t[0]) && !IsSpace(t[|t| - 1])
    ensures Strip(t) == t
  {
  }

  /** A well-formed digit string ends in a digit. */
  lemma WellFormedEndsInDigit(t: string)
    requires WellFormedDigits(t)
    ensures IsDigit(t[|t| - 1])
  {
  }

  /** A string whose last character is not a digit is not a digit string. */
  lemma NotDigitsAtEnd(t: string)
    requires |t| == 0 || !IsDigit(t[|t| - 1])
    ensures !WellFormedDigits(t)
  {
    if WellFormedDigits(t) {
      WellFormedEndsInDigit(t);
    }
  }

  lemma NatToTextWellFormed(n: nat)
    ensures WellFormedDigits(NatToText(n))
  {
  }

  lemma ParseUnsigned(d: string)
    requires WellFormedDigits(d)
    ensures ParseInt(d) == Some(DigitsValue(d) as int)
  {
    WellFormedEndsInDigit(d);
    NoSpaceStrip(d);
    assert d[0] != '+' && d[0] != '-';
  }

  lemma ParseNegative(d: string)
    requires WellFormedDigits(d)
    ensures ParseInt("-" + d) == Some(-(DigitsValue(d) as int))
  {
    var t := "-" + d;
    WellFormedEndsInDigit(d);
    assert t[|t| - 1] == d[|d| - 1];
    NoSpaceStrip(t);
    assert t[1..] == d;
  }

  /** `int(str(n)) == n`. */
  lemma ParseIntToText(n: int)
    ensures ParseInt(IntToText(n)) == Some(n)
  {
    var m := if n < 0 then -n else n;
    NatToTextValue(m);
    NatToTextWellFormed(m);
    if n < 0 {
      ParseNegative(NatToText(m));
    } else {
      ParseUnsigned(NatToText(m));
    }
  }

  /** Stripping keeps a final character that is not whitespace. */
  lemma StripKeepsLast(s: string)
    requires |s| > 0 && !IsSpace(s[|s| - 1])
    ensures |Strip(s)| > 0 && Strip(s)[|Strip(s)| - 1] == s[|s| - 1]
  {
    var l := StripLeft(s);
    assert |l| > 0 && l[|l| - 1] == s[|s| - 1];
  }

  /** A token that still ends in a comma is refused, which is why the
      signature parser strips commas first. */
  lemma ParseIntRefusesComma(s: string)
    requires |s| > 0 && s[|s| - 1] == ','
    ensures ParseInt(s) == None
  {
    StripKeepsLast(s);
    var t := Strip(s);
    NotDigitsAtEnd(t);
    var d := t[1..];
    NotDigitsAtEnd(d);
  }
}
