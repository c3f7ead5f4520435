/**
 * Calendar dates and their ISO text form, as produced by Python's `date.isoformat()`:
 * the `full-date` of section 5.6 of RFC 3339 (`YYYY-MM-DD`, four-digit year,
 * two-digit month and day, zero padded).
 */
module Dates {
  import opened Wrappers

  datatype Date = Date(year: int, month: int, day: int)

  predicate IsLeapYear(y: int) {
    y % 4 == 0 && (y % 100 != 0 || y % 400 == 0)
  }

  function DaysInMonth(y: int, m: int): (n: int)
    requires 1 <= m <= 12
    ensures 28 <= n <= 31
  {
    if m == 2 then (if IsLeapYear(y) then 29 else 28)
    else if m == 4 || m == 6 || m == 9 || m == 11 then 30
    else 31
  }

  /** The dates Python's `date` type can hold (years 1 to 9999). */
  predicate Valid(d: Date) {
    1 <= d.year <= 9999 && 1 <= d.month <= 12 && 1 <= d.day <= DaysInMonth(d.year, d.month)
  }

  predicate IsDigit(c: char) {
    '0' <= c <= '9'
  }

  predicate AllDigits(s: string) {
    forall k :: 0 <= k < |s| ==> IsDigit(s[k])
  }

  function DigitChar(n: nat): (c: char)
    requires n < 10
    ensures IsDigit(c)
  {
    (48 + n) as char
  }

  function DigitValue(c: char): (n: nat)
    requires IsDigit(c)
    ensures n < 10 && DigitChar(n) == c
  {
    c as int - 48
  }

  function Pow10(w: nat): (p: nat)
    ensures p >= 1
  {
    if w == 0 then 1 else 10 * Pow10(w - 1)
  }

  /** `n` written in decimal with exactly `width` digits, zero padded on the left. */
  function Pad(n: nat, width: nat): (s: string)
    requires n < Pow10(width)
    ensures |s| == width && AllDigits(s)
    decreases width
  {
    if width == 0 then "" else Pad(n / 10, width - 1) + [DigitChar(n % 10)]
  }

  /** The number a string of decimal digits denotes. */
  function Decimal(s: string): (n: nat)
    requires AllDigits(s)
    ensures n < Pow10(|s|)
  {
    if s == [] then 0 else 10 * Decimal(s[..|s| - 1]) + DigitValue(s[|s| - 1])
  }

  /** Reading back a padded number gives the number. */
  lemma {:induction false} DecimalOfPad(n: nat, width: nat)
    requires n < Pow10(width)
    ensures Decimal(Pad(n, width)) == n
    decreases width
  {
    if width > 0 {
      var s := Pad(n, width);
      assert s[..|s| - 1] == Pad(n / 10, width - 1);
      DecimalOfPad(n / 10, width - 1);
    }
  }

  /** Padding the value of a digit string to its own length gives the string back. */
  lemma {:induction false} PadOfDecimal(s: string)
    requires AllDigits(s)
    ensures Pad(Decimal(s), |s|) == s
  {
    if s != [] {
      var init, last := s[..|s| - 1], s[|s| - 1];
      var n := Decimal(s);
      assert n == 10 * Decimal(init) + DigitValue(last);
      assert n / 10 == Decimal(init) && n % 10 == DigitValue(last);
      PadOfDecimal(init);
      assert s == init + [last];
    }
  }

  /** `date.isoformat()`: `YYYY-MM-DD`. */
  function IsoFormat(d: Date): (s: string)
    requires Valid(d)
    ensures |s| == 10 && s[4] == '-' && s[7] == '-'
    ensures forall k :: 0 <= k < 10 && k != 4 && k != 7 ==> IsDigit(s[k])
  {
    assert Pow10(4) == 10000 && Pow10(2) == 100;
    Pad(d.year, 4) + "-" + Pad(d.month, 2) + "-" + Pad(d.day, 2)
  }

  /** The `full-date` shape: ten characters, `-` at indices 4 and 7, digits elsewhere. */
  predicate IsFullDateShape(s: string) {
    |s| == 10 && s[4] == '-' && s[7] == '-' &&
    AllDigits(s[..4]) && AllDigits(s[5..7]) && AllDigits(s[8..])
  }

  /**
   * The reading of a `full-date` (section 5.6 of RFC 3339) that Python's `date`
   * can hold (so not year 0000) back into a date: the inverse that IsoFormat is
   * proved against.
   */
  function ParseFullDate(s: string): (r: Option<Date>)
    ensures r.Some? ==> Valid(r.value) && IsFullDateShape(s)
  {
    if IsFullDateShape(s) then
      var d := Date(Decimal(s[..4]), Decimal(s[5..7]), Decimal(s[8..]));
      if Valid(d) then Some(d) else None
    else None
  }

  /** Parsing a formatted date gives the date back. */
  lemma ParseOfIsoFormat(d: Date)
    requires Valid(d)
    ensures ParseFullDate(IsoFormat(d)) == Some(d)
  {
    assert Pow10(4) == 10000 && Pow10(2) == 100;
    var s := IsoFormat(d);
    assert s[..4] == Pad(d.year, 4);
    assert s[5..7] == Pad(d.month, 2);
    assert s[8..] == Pad(d.day, 2);
    DecimalOfPad(d.year, 4);
    DecimalOfPad(d.month, 2);
    DecimalOfPad(d.day, 2);
  }

  /** Formatting a parsed date gives the text back: the text form is unique. */
  lemma IsoFormatOfParse(s: string)
    requires ParseFullDate(s).Some?
    ensures IsoFormat(ParseFullDate(s).value) == s
  {
    PadOfDecimal(s[..4]);
    PadOfDecimal(s[5..7]);
    PadOfDecimal(s[8..]);
    assert s == s[..4] + "-" + s[5..7] + "-" + s[8..];
  }
}
