/**
 Three worked scenarios, stated against the model with a parser that accepts exactly the one candidate shown.
 */
module ScanExamples {
  import opened Wrappers
  import opened Text
  import opened Dates
  import opened Nation
  import opened Birth
  import opened Report

  /** A parser that knows one date, read in one order. */
  function OneDateParser(candidate: string, dayFirst: bool, d: CalendarDate): Parser {
    (s, df) => if s == candidate && df == dayFirst then Some(d) else None
  }

  /** A string holding a character the text lacks does not occur in it. */
  lemma NotContains(text: string, sub: string, k: nat)
    requires k < |sub| && sub[k] !in text
    ensures !Contains(text, sub)
  {
  }

  /** A text containing "DOB" at position `at` opens the keyword gate. */
  lemma DobGateOpen(text: string, at: nat)
    requires at + 3 <= |text| && text[at..at + 3] == "DOB"
    ensures KeywordFound(text)
  {
    assert OccursAt(text, Keywords[0], at);
  }

  /** A literal "NN/NN/NNNN" candidate is date-shaped and colon-free. */
  lemma ShapedLiteral(m: string)
    requires m == "15/03/1990" || m == "03/15/1990"
    ensures DateShape(m) && ReplaceColons(m) == m
  {
    assert ShapeAt(m, 2, 5);
    ShapedHasNoColon(m);
  }

  /** The one-date parser accepts its candidate, and only in its own order, as the first of a one-element list. */
  lemma OneDateParsedFirst(m: string, dayFirst: bool, d: CalendarDate)
    requires m == "15/03/1990" || m == "03/15/1990"
    ensures FirstParsedAt([m], OneDateParser(m, dayFirst, d), dayFirst, 0)
    ensures OneDateParser(m, dayFirst, d)(ReplaceColons(m), dayFirst) == Some(d)
  {
    ShapedLiteral(m);
  }

  /** The date of both scenarios, rendered in either order. */
  lemma ExampleDateRendered()
    ensures FormatDate(Date(1990, 3, 15), false) == "15/03/1990"
    ensures FormatDate(Date(1990, 3, 15), true) == "03/15/1990"
  {
  }

  /** "DOB 15/03/1990": no country, and the candidate read day first. */
  lemma DayFirstDetectors(countries: seq<Country>)
    requires NoRecordMatches("DOB 15/03/1990", countries)
    ensures DetectNation("DOB 15/03/1990", countries) == NationGuess(None, 0)
    ensures DetectBirth("DOB 15/03/1990", ["15/03/1990"], OneDateParser("15/03/1990", true, Date(1990, 3, 15)), None)
            == BirthGuess(Some("15/03/1990"), 90)
  {
    var text := "DOB 15/03/1990";
    NotContains(text, UsaCode, 0);
    NotContains(text, UsaName, 0);
    DobGateOpen(text, 0);
    OneDateParsedFirst("15/03/1990", true, Date(1990, 3, 15));
    ExampleDateRendered();
    assert !MonthFirst(None);
  }

  /**
   "DOB 15/03/1990" with a country list none of whose records matches: the date is read day first and
   reported as "15/03/1990" in DD/MM/YYYY, but the missing nation sends the
   result to review.
   */
  lemma DayFirstExample(countries: seq<Country>)
    requires NoRecordMatches("DOB 15/03/1990", countries)
    ensures var r := Assemble("DOB 15/03/1990", ["15/03/1990"], countries, OneDateParser("15/03/1990", true, Date(1990, 3, 15)), false);
      && r.nation == None && r.nationConfidence == 0
      && r.birth == Some("15/03/1990") && r.birthFormat == "DD/MM/YYYY" && r.birthConfidence == 90
      && r.needsHumanReview
  {
    DayFirstDetectors(countries);
  }

  /** "UNITED STATES OF AMERICA DOB 03/15/1990": the United States, whatever the country list. */
  lemma MonthFirstNation(countries: seq<Country>)
    ensures DetectNation("UNITED STATES OF AMERICA DOB 03/15/1990", countries) == NationGuess(Some(UsaCode), 95)
  {
    assert OccursAt("UNITED STATES OF AMERICA DOB 03/15/1990", UsaName, 0);
  }

  /** "UNITED STATES OF AMERICA DOB 03/15/1990": the candidate read month first. */
  lemma MonthFirstBirth()
    ensures DetectBirth("UNITED STATES OF AMERICA DOB 03/15/1990", ["03/15/1990"], OneDateParser("03/15/1990", false, Date(1990, 3, 15)), Some(UsaCode))
            == BirthGuess(Some("03/15/1990"), 90)
  {
    DobGateOpen("UNITED STATES OF AMERICA DOB 03/15/1990", 25);
    OneDateParsedFirst("03/15/1990", false, Date(1990, 3, 15));
    ExampleDateRendered();
    assert MonthFirst(Some(UsaCode));
  }

  /**
   "UNITED STATES OF AMERICA DOB 03/15/1990": nation "USA" at 0.95, the
   date read month first and reported as "03/15/1990" in MM/DD/YYYY, and
   no review needed.
   */
  lemma MonthFirstExample(countries: seq<Country>)
    ensures var r := Assemble("UNITED STATES OF AMERICA DOB 03/15/1990", ["03/15/1990"], countries, OneDateParser("03/15/1990", false, Date(1990, 3, 15)), false);
      && r.nation == Some("USA") && r.nationConfidence == 95
      && r.birth == Some("03/15/1990") && r.birthFormat == "MM/DD/YYYY" && r.birthConfidence == 90
      && !r.needsHumanReview
  {
    MonthFirstNation(countries);
    MonthFirstBirth();
  }

  /**
   The date-shaped "12-34-5678" in a text with none of the keywords: whatever
   the parser would say, no birth date is reported.
   */
  lemma GateExample(countries: seq<Country>, parse: Parser)
    ensures DateShape("12-34-5678")
    ensures var r := Assemble("12-34-5678", ["12-34-5678"], countries, parse, false);
      r.birth.None? && r.birthConfidence == 0 && r.needsHumanReview
  {
    var text := "12-34-5678";
    assert ShapeAt(text, 2, 5);
    NotContains(text, "DOB", 0);
    NotContains(text, "BIRTH", 0);
    NotContains(text, "BORN", 0);
    NotContains(text, "DATE", 0);
    NotContains(text, "3 ", 1);
    NotContains(text, "POS", 0);
    assert !KeywordFound(text);
  }
}
