/**
 The date-of-birth detector of openIDscan.py: date-shaped candidates, the
 keyword gate, and the loop that keeps the first candidate the date parser
 accepts, formatted in the detected nation's convention.
 */
module Birth {
  import opened Wrappers
  import opened Text
  import opened Search
  import opened Dates
  import Nation

  /** The separator class `[/\-.\s]` of the date pattern. */
  predicate IsDateSeparator(c: char) {
    c == '/' || c == '-' || c == '.' || IsSpace(c)
  }

  /**
   `s` splits as the date pattern demands, with its first separator at `a`
   and its second at `b`: 1-4 digits, a separator, 2-9 characters of
   `[A-Z0-9]`, a separator, 2-4 digits.
   */
  predicate ShapeAt(s: string, a: int, b: int) {
    && 1 <= a <= 4 && a + 3 <= b && b <= a + 10 && b + 3 <= |s| <= b + 5
    && AllDigits(s[..a])
    && IsDateSeparator(s[a])
    && (forall k :: a < k < b ==> IsUpperAlnum(s[k]))
    && IsDateSeparator(s[b])
    && AllDigits(s[b + 1..])
  }

  /** A whole string the date pattern matches, as every element of `findall`'s result does. */
  predicate DateShape(s: string) {
    exists a, b :: 0 <= a < b < |s| && ShapeAt(s, a, b)
  }

  /**
   Any 1-4 digits, a separator, 2-9 characters of `[A-Z0-9]`, a separator
   and 2-4 digits, put together, form a date-shaped string.
   */
  lemma ShapeOfParts(lead: string, sep1: char, mid: string, sep2: char, tail: string)
    requires 1 <= |lead| <= 4 && AllDigits(lead)
    requires IsDateSeparator(sep1)
    requires 2 <= |mid| <= 9 && forall k :: 0 <= k < |mid| ==> IsUpperAlnum(mid[k])
    requires IsDateSeparator(sep2)
    requires 2 <= |tail| <= 4 && AllDigits(tail)
    ensures DateShape(lead + [sep1] + mid + [sep2] + tail)
  {
    var s := lead + [sep1] + mid + [sep2] + tail;
    var a := |lead|;
    var b := |lead| + 1 + |mid|;
    assert s[..a] == lead;
    assert s[b + 1..] == tail;
    forall k | a < k < b
      ensures IsUpperAlnum(s[k])
    {
      assert s[k] == mid[k - a - 1];
    }
    assert ShapeAt(s, a, b);
  }

  /**
   Conversely, a date-shaped string is 7 to 21 characters long, starts and
   ends with a digit, and holds only digits, separators and `[A-Z0-9]`.
   */
  lemma ShapeBounds(s: string)
    requires DateShape(s)
    ensures 7 <= |s| <= 21
    ensures IsDigit(s[0]) && IsDigit(s[|s| - 1])
    ensures forall k :: 0 <= k < |s| ==> IsUpperAlnum(s[k]) || IsDateSeparator(s[k])
  {
    var a, b :| 0 <= a < b < |s| && ShapeAt(s, a, b);
    assert IsDigit(s[..a][0]);
  }

  /** Each element of a `findall` result list is date-shaped. */
  predicate AllDateShaped(matches: seq<string>) {
    forall i :: 0 <= i < |matches| ==> DateShape(matches[i])
  }

  /** Python's `s.replace(':', ' ')`. */
  function ReplaceColons(s: string): (r: string)
    ensures |r| == |s|
    ensures ':' !in r
    ensures forall i :: 0 <= i < |s| && s[i] == ':' ==> r[i] == ' '
    ensures forall i :: 0 <= i < |s| && s[i] != ':' ==> r[i] == s[i]
  {
    seq(|s|, i requires 0 <= i < |s| => if s[i] == ':' then ' ' else s[i])
  }

  /** The pattern's character classes all exclude ':', so a date-shaped string has none. */
  lemma ShapedHasNoColon(s: string)
    requires DateShape(s)
    ensures ':' !in s
    ensures ReplaceColons(s) == s
  {
    var a, b :| 0 <= a < b < |s| && ShapeAt(s, a, b);
    forall k | 0 <= k < |s|
      ensures s[k] != ':'
    {
      if k < a {
        assert IsDigit(s[..a][k]);
      } else if b < k {
        assert IsDigit(s[b + 1..][k - b - 1]);
      }
    }
  }

  /** The keyword list of the contextual gate, in source order. */
  const Keywords: seq<string> := ["DOB", "BIRTH", "BORN", "DATE", "3 ", "POS"]

  /** The gate: some keyword occurs anywhere in the text. */
  predicate KeywordFound(text: string) {
    exists k :: 0 <= k < |Keywords| && Contains(text, Keywords[k])
  }

  /** The gate spelled out: one of the six literal keywords occurs in the text. */
  lemma KeywordFoundIff(text: string)
    ensures KeywordFound(text) <==>
      || Contains(text, "DOB") || Contains(text, "BIRTH") || Contains(text, "BORN")
      || Contains(text, "DATE") || Contains(text, "3 ") || Contains(text, "POS")
  {
    assert Keywords[0] == "DOB" && Keywords[1] == "BIRTH" && Keywords[2] == "BORN";
    assert Keywords[3] == "DATE" && Keywords[4] == "3 " && Keywords[5] == "POS";
  }

  /** The date parser: a candidate and the day-first flag give a date, or nothing when parsing fails. */
  type Parser = (string, bool) -> Option<CalendarDate>

  /** Confidence in hundredths when a date was extracted, 0.90; otherwise it is `Nation.NoConfidence`. */
  const BirthConfidence: int := 90

  datatype BirthGuess = BirthGuess(birth: Option<string>, confidence: int)

  /** The nation whose convention is month first; every other nation, and none, is day first. */
  predicate MonthFirst(nation: Option<string>) {
    nation == Some(Nation.UsaCode)
  }

  /**
   One test decides both conventions: the parse is day first, and the label
   is DD/MM/YYYY, exactly when the nation is not "USA"; the label is
   MM/DD/YYYY exactly when it is.
   */
  lemma ConventionFollowsNation(nation: Option<string>)
    ensures !MonthFirst(nation) <==> nation != Some("USA")
    ensures FormatLabel(MonthFirst(nation)) == "MM/DD/YYYY" <==> nation == Some("USA")
    ensures FormatLabel(MonthFirst(nation)) == "DD/MM/YYYY" <==> nation != Some("USA")
  {
  }

  /** One iteration of the parse loop: the candidate with colons blanked, parsed with the given order. */
  function ParseProbe(parse: Parser, dayFirst: bool): string -> Option<CalendarDate> {
    m => parse(ReplaceColons(m), dayFirst)
  }

  /** Candidate `i` is the first, left to right, that the parser accepts. */
  predicate FirstParsedAt(matches: seq<string>, parse: Parser, dayFirst: bool, i: int) {
    && 0 <= i < |matches|
    && parse(ReplaceColons(matches[i]), dayFirst).Some?
    && forall j :: 0 <= j < i ==> parse(ReplaceColons(matches[j]), dayFirst).None?
  }

  /** No candidate is accepted by the parser. */
  predicate NoneParses(matches: seq<string>, parse: Parser, dayFirst: bool) {
    forall j :: 0 <= j < |matches| ==> parse(ReplaceColons(matches[j]), dayFirst).None?
  }

  /**
   Date-of-birth detection: when the gate holds, the first candidate that
   parses (day first unless the nation is "USA") becomes the birth string in
   the nation's convention with confidence 0.90; otherwise there is none.
   */
  function DetectBirth(text: string, matches: seq<string>, parse: Parser, nation: Option<string>): (g: BirthGuess)
    ensures !KeywordFound(text) ==> g == BirthGuess(None, Nation.NoConfidence)
    ensures KeywordFound(text) ==> forall i :: FirstParsedAt(matches, parse, !MonthFirst(nation), i) ==>
              g == BirthGuess(Some(FormatDate(parse(ReplaceColons(matches[i]), !MonthFirst(nation)).value, MonthFirst(nation))), BirthConfidence)
    ensures g.birth.None? <==> !KeywordFound(text) || NoneParses(matches, parse, !MonthFirst(nation))
    ensures g.confidence == (if g.birth.Some? then BirthConfidence else Nation.NoConfidence)
  {
    var dayFirst := !MonthFirst(nation);
    if !KeywordFound(text) then BirthGuess(None, Nation.NoConfidence)
    else
      match FirstHit(matches, ParseProbe(parse, dayFirst))
      case Some(h) => BirthGuess(Some(FormatDate(h.value, MonthFirst(nation))), BirthConfidence)
      case None => BirthGuess(None, Nation.NoConfidence)
  }

  /**
   On the candidates `findall` returns, blanking colons changes nothing, so
   the parser sees each candidate exactly as it was matched.
   */
  lemma ParseSeesRawMatch(matches: seq<string>, parse: Parser, dayFirst: bool)
    requires AllDateShaped(matches)
    ensures forall i :: 0 <= i < |matches| ==> ParseProbe(parse, dayFirst)(matches[i]) == parse(matches[i], dayFirst)
  {
    forall i | 0 <= i < |matches|
      ensures ParseProbe(parse, dayFirst)(matches[i]) == parse(matches[i], dayFirst)
    {
      ShapedHasNoColon(matches[i]);
    }
  }
}
