/** Calendar dates and `to_date(text, "MM-dd-yy")`: two-digit month,
    two-digit day and two-digit year separated by `-`, a two-digit year
    standing for 2000-2099, and null for text of any other shape or for a
    day that does not exist. */
module Dates {
  import opened Options
  import opened Casts

  datatype Date = Date(year: int, month: int, day: int)

  /** First year a two-digit year `yy` can stand for. */
  const CENTURY: int := 2000

  predicate IsLeapYear(y: int) {
    y % 4 == 0 && (y % 100 != 0 || y % 400 == 0)
  }

  function DaysInMonth(y: int, m: int): (n: int)
    requires 1 <= m <= 12
    ensures 28 <= n <= 31
    ensures m == 2 ==> (n == 29 <==> IsLeapYear(y))
  {
    if m == 2 then (if IsLeapYear(y) then 29 else 28)
    else if m == 4 || m == 6 || m == 9 || m == 11 then 30
    else 31
  }

  /** A day of the Gregorian calendar. */
  predicate IsValid(d: Date) {
    1 <= d.month <= 12 && 1 <= d.day <= DaysInMonth(d.year, d.month)
  }

  /** The dates the pattern can denote. */
  predicate InPatternRange(d: Date) {
    IsValid(d) && CENTURY <= d.year < CENTURY + 100
  }

  /** `to_date(s, "MM-dd-yy")`: null unless `s` is exactly eight characters
      `MM-dd-yy` naming an existing day. */
  function ParseDate(s: string): (r: Option<Date>)
    ensures r.Some? ==> InPatternRange(r.value)
    ensures r.Some? ==> |s| == 8
  {
    if |s| == 8 && s[2] == '-' && s[5] == '-'
       && AllDigits(s[0..2]) && AllDigits(s[3..5]) && AllDigits(s[6..8])
    then
      var d := Date(CENTURY + DigitsValue(s[6..8]), DigitsValue(s[0..2]), DigitsValue(s[3..5]));
      if IsValid(d) then Some(d) else None
    else None
  }

  /** Two digits with a leading zero. */
  function TwoDigits(n: nat): (s: string)
    requires n < 100
    ensures |s| == 2 && AllDigits(s) && DigitsValue(s) == n
  {
    var s := [Digit(n / 10), Digit(n % 10)];
    assert s[..1] == [Digit(n / 10)];
    s
  }

  /** Writes a date with the same pattern; the inverse of `ParseDate`. */
  function FormatDate(d: Date): (s: string)
    requires InPatternRange(d)
    ensures |s| == 8
  {
    TwoDigits(d.month) + "-" + TwoDigits(d.day) + "-" + TwoDigits(d.year - CENTURY)
  }

  lemma TwoDigitsOfValue(s: string)
    requires |s| == 2 && AllDigits(s)
    ensures DigitsValue(s) < 100 && TwoDigits(DigitsValue(s)) == s
  {
    assert s[..1] == [s[0]];
  }

  /** Every date the pattern can denote is read back from its own text. */
  lemma {:induction false} ParseFormat(d: Date)
    requires InPatternRange(d)
    ensures ParseDate(FormatDate(d)) == Some(d)
  {
    var s := FormatDate(d);
    assert s[0..2] == TwoDigits(d.month);
    assert s[3..5] == TwoDigits(d.day);
    assert s[6..8] == TwoDigits(d.year - CENTURY);
  }

  /** Text that parses is exactly the text of the date it parses to: the
      pattern admits one spelling per date. */
  lemma {:induction false} FormatParse(s: string)
    requires ParseDate(s).Some?
    ensures FormatDate(ParseDate(s).value) == s
  {
    TwoDigitsOfValue(s[0..2]);
    TwoDigitsOfValue(s[3..5]);
    TwoDigitsOfValue(s[6..8]);
    assert s == s[0..2] + "-" + s[3..5] + "-" + s[6..8];
  }
}
