/**
 Calendar dates as Python's `datetime` admits them, their rendering with the
 strftime patterns "%m/%d/%Y" and "%d/%m/%Y", and a reader for that layout.
 */
module Dates {
  import opened Wrappers
  import opened Text

  datatype Date = Date(year: int, month: int, day: int)

  predicate IsLeapYear(y: int) {
    y % 4 == 0 && (y % 100 != 0 || y % 400 == 0)
  }

  function DaysInMonth(y: int, m: int): int {
    if m == 2 then (if IsLeapYear(y) then 29 else 28)
    else if m == 4 || m == 6 || m == 9 || m == 11 then 30
    else 31
  }

  /** The dates a `datetime` can hold: years 1 to 9999, real months and days. */
  predicate ValidDate(d: Date) {
    && 1 <= d.year <= 9999
    && 1 <= d.month <= 12
    && 1 <= d.day <= DaysInMonth(d.year, d.month)
  }

  type CalendarDate = d: Date | ValidDate(d) witness Date(1, 1, 1)

  /** The labels reported as `birth_format`. */
  const MonthFirstLabel: string := "MM/DD/YYYY"
  const DayFirstLabel: string := "DD/MM/YYYY"

  function FormatLabel(monthFirst: bool): string {
    if monthFirst then MonthFirstLabel else DayFirstLabel
  }

  /**
   strftime with "%m/%d/%Y" (monthFirst) or "%d/%m/%Y": two-digit month and
   day, four-digit year, separated by slashes.
   */
  function FormatDate(d: CalendarDate, monthFirst: bool): (s: string)
    ensures |s| == 10 && s[2] == '/' && s[5] == '/'
    ensures ReadDate(s, monthFirst) == Some(d)
  {
    var mm := Pad(d.month, 2);
    var dd := Pad(d.day, 2);
    var yyyy := Pad(d.year, 4);
    var s := (if monthFirst then mm + "/" + dd else dd + "/" + mm) + "/" + yyyy;
    assert s[..2] == (if monthFirst then mm else dd);
    assert s[3..5] == (if monthFirst then dd else mm);
    assert s[6..] == yyyy;
    PadRoundTrip(d.month, 2);
    PadRoundTrip(d.day, 2);
    PadRoundTrip(d.year, 4);
    s
  }

  /** The layout FormatDate produces: "AA/BB/CCCC" with decimal digits in the fields. */
  predicate IsDateLayout(s: string) {
    && |s| == 10 && s[2] == '/' && s[5] == '/'
    && AllDigits(s[..2]) && AllDigits(s[3..5]) && AllDigits(s[6..])
  }

  /**
   Reads a "AA/BB/CCCC" string back into its fields; the first field is the
   month when monthFirst holds and the day otherwise.
   */
  function ReadDate(s: string, monthFirst: bool): (r: Option<Date>)
    ensures r.Some? <==> IsDateLayout(s)
  {
    if IsDateLayout(s) then
      var first := ValueOf(s[..2]);
      var second := ValueOf(s[3..5]);
      var year := ValueOf(s[6..]);
      Some(if monthFirst then Date(year, first, second) else Date(year, second, first))
    else None
  }

  /** Reads a date string according to a `birth_format` label. */
  function ReadByLabel(s: string, fmt: string): Option<Date> {
    if fmt == MonthFirstLabel then ReadDate(s, true)
    else if fmt == DayFirstLabel then ReadDate(s, false)
    else None
  }

  /** A formatted date read under the label of its own convention gives the date back. */
  lemma FormatAgreesWithLabel(d: CalendarDate, monthFirst: bool)
    ensures ReadByLabel(FormatDate(d, monthFirst), FormatLabel(monthFirst)) == Some(d)
  {
  }

  /** Distinct dates are never rendered alike under one convention. */
  lemma FormatInjective(d1: CalendarDate, d2: CalendarDate, monthFirst: bool)
    requires FormatDate(d1, monthFirst) == FormatDate(d2, monthFirst)
    ensures d1 == d2
  {
    assert ReadDate(FormatDate(d1, monthFirst), monthFirst) == Some(d1);
  }
}
