/**
 The result assembler of openIDscan.py and the whole `simple_scan` pipeline
 from the upper-cased OCR text onwards: the result record, its review flag,
 the debug-only keys and the digit-redacted text sample.
 */
module Report {
  import opened Wrappers
  import opened Text
  import opened Dates
  import opened Nation
  import opened Birth

  /** The two debug-only entries: the raw candidate list and the redacted text sample. */
  datatype DebugInfo = DebugInfo(rawMatches: seq<string>, sanitizedSample: string)

  /** The result dictionary; `debug` is None exactly when the debug keys are absent. */
  datatype ScanResult = ScanResult(
    nation: Option<string>,
    nationConfidence: int,
    birth: Option<string>,
    birthFormat: string,
    birthConfidence: int,
    needsHumanReview: bool,
    debug: Option<DebugInfo>)

  /** What `simple_scan` returns: an error dictionary for an unreadable image, a result otherwise. */
  datatype ScanOutcome = Errors(messages: seq<string>) | Scanned(result: ScanResult)

  const UnreadableMessage: string := "File not found or unreadable."

  /** How many characters of the OCR text the debug sample keeps. */
  const SampleLength: nat := 150

  function Min(a: int, b: int): int {
    if a <= b then a else b
  }

  /** Turns every newline into a space. */
  function NewlinesToSpaces(s: string): string {
    seq(|s|, i requires 0 <= i < |s| => if s[i] == '\n' then ' ' else s[i])
  }

  /** Replaces every digit with 'X'. */
  function RedactDigits(s: string): string {
    seq(|s|, i requires 0 <= i < |s| => if IsDigit(s[i]) then 'X' else s[i])
  }

  /**
   The debug text sample: the first 150 characters, newlines turned into
   spaces, then every digit redacted.
   */
  function Sanitize(text: string): (r: string)
    ensures |r| == Min(SampleLength, |text|)
    ensures forall i :: 0 <= i < |r| ==> !IsDigit(r[i]) && r[i] != '\n'
    ensures forall i :: 0 <= i < |r| && IsDigit(text[i]) ==> r[i] == 'X'
    ensures forall i :: 0 <= i < |r| && text[i] == '\n' ==> r[i] == ' '
    ensures forall i :: 0 <= i < |r| && !IsDigit(text[i]) && text[i] != '\n' ==> r[i] == text[i]
  {
    RedactDigits(NewlinesToSpaces(text[..Min(SampleLength, |text|)]))
  }

  /** Sanitising a sample again changes nothing: it already holds no digit and no newline. */
  lemma SanitizeIdempotent(text: string)
    ensures Sanitize(Sanitize(text)) == Sanitize(text)
  {
    var r := Sanitize(text);
    var rr := Sanitize(r);
    assert |rr| == |r|;
    forall i | 0 <= i < |r|
      ensures rr[i] == r[i]
    {
      assert !IsDigit(r[i]) && r[i] != '\n';
    }
  }

  /**
   Assembles the result from the OCR text, the ordered `findall` candidates,
   the country list and the date parser.
   */
  function Assemble(text: string, matches: seq<string>, countries: seq<Country>, parse: Parser, debug: bool): (r: ScanResult)
    ensures NationGuess(r.nation, r.nationConfidence) == DetectNation(text, countries)
    ensures BirthGuess(r.birth, r.birthConfidence) == DetectBirth(text, matches, parse, r.nation)
    ensures r.needsHumanReview <==> r.nation.None? || r.birth.None?
    ensures r.birthFormat == (if r.nation == Some(UsaCode) then MonthFirstLabel else DayFirstLabel)
    ensures r.debug.Some? <==> debug
    ensures r.debug.Some? ==> r.debug.value.rawMatches == matches && r.debug.value.sanitizedSample == Sanitize(text)
  {
    var n := DetectNation(text, countries);
    var b := DetectBirth(text, matches, parse, n.nation);
    ScanResult(
      n.nation, n.confidence,
      b.birth, FormatLabel(MonthFirst(n.nation)), b.confidence,
      n.nation.None? || b.birth.None?,
      if debug then Some(DebugInfo(matches, Sanitize(text))) else None)
  }

  /**
   `simple_scan` from the OCR text onwards; `image` is None when the image
   file could not be read, in which case only the error entry is returned.
   */
  function Scan(image: Option<string>, matches: seq<string>, countries: seq<Country>, parse: Parser, debug: bool): (r: ScanOutcome)
    ensures image.None? <==> r.Errors?
    ensures r.Errors? ==> r.messages == [UnreadableMessage]
  {
    match image
    case None => Errors([UnreadableMessage])
    case Some(text) => Scanned(Assemble(text, matches, countries, parse, debug))
  }

  /** The keys of the result dictionary. */
  const BaseKeys: set<string> := {"nation", "nation_confidence", "birth", "birth_format", "birth_confidence", "needs_human_review"}
  const DebugKeys: set<string> := {"raw_matches", "ocr_text_sample_sanitized"}

  function Keys(r: ScanResult): set<string> {
    if r.debug.Some? then BaseKeys + DebugKeys else BaseKeys
  }

  /**
   Without debug the result has exactly the six base keys; with debug it has
   the two debug keys on top, eight in all.
   */
  lemma KeysMatchDebugFlag(text: string, matches: seq<string>, countries: seq<Country>, parse: Parser, debug: bool)
    ensures var ks := Keys(Assemble(text, matches, countries, parse, debug));
      && ("raw_matches" in ks <==> debug)
      && ("ocr_text_sample_sanitized" in ks <==> debug)
      && BaseKeys <= ks
      && |ks| == (if debug then 8 else 6)
  {
    assert |BaseKeys| == 6;
    assert |DebugKeys| == 2;
    assert BaseKeys !! DebugKeys;
  }

  /**
   The review flag in terms of the inputs: no review is needed exactly when a
   nation was detected, the keyword gate holds, and some candidate parses in
   the detected nation's day/month order.
   */
  lemma ReviewNotNeededIff(text: string, matches: seq<string>, countries: seq<Country>, parse: Parser, debug: bool)
    ensures var r := Assemble(text, matches, countries, parse, debug);
      !r.needsHumanReview <==>
        && (MentionsUsa(text) || !NoRecordMatches(text, countries))
        && KeywordFound(text)
        && !NoneParses(matches, parse, !MonthFirst(DetectNation(text, countries).nation))
  {
  }

  /** Without any keyword no birth date is reported, and the result always goes to review. */
  lemma GateClosedNoBirth(text: string, matches: seq<string>, countries: seq<Country>, parse: Parser, debug: bool)
    requires !KeywordFound(text)
    ensures var r := Assemble(text, matches, countries, parse, debug);
      r.birth.None? && r.birthConfidence == 0 && r.needsHumanReview
  {
  }

  /**
   A reported birth string reads back, under the reported `birth_format`, as
   the date the parser gave for the first candidate it accepted; the parser
   saw that candidate exactly as matched, day first unless the nation is "USA".
   */
  lemma BirthAgreesWithFormat(text: string, matches: seq<string>, countries: seq<Country>, parse: Parser, debug: bool)
    requires AllDateShaped(matches)
    ensures var r := Assemble(text, matches, countries, parse, debug);
      var dayFirst := r.nation != Some(UsaCode);
      r.birth.Some? ==>
        && r.birthConfidence == 90
        && exists i :: FirstParsedAt(matches, parse, dayFirst, i)
             && parse(matches[i], dayFirst).Some?
             && ReadByLabel(r.birth.value, r.birthFormat) == Some(parse(matches[i], dayFirst).value)
  {
    var r := Assemble(text, matches, countries, parse, debug);
    var monthFirst := MonthFirst(r.nation);
    if r.birth.Some? {
      var h := Search.FirstHit(matches, ParseProbe(parse, !monthFirst));
      assert h.Some?;
      var i := h.value.index;
      ShapedHasNoColon(matches[i]);
      assert FirstParsedAt(matches, parse, !monthFirst, i);
      FormatAgreesWithLabel(h.value.value, monthFirst);
    }
  }

  /** Every debug candidate is date-shaped and holds no colon. */
  lemma RawMatchesAreShaped(text: string, matches: seq<string>, countries: seq<Country>, parse: Parser)
    requires AllDateShaped(matches)
    ensures var r := Assemble(text, matches, countries, parse, true);
      forall i :: 0 <= i < |r.debug.value.rawMatches| ==>
        DateShape(r.debug.value.rawMatches[i]) && ':' !in r.debug.value.rawMatches[i]
  {
    forall i | 0 <= i < |matches|
      ensures ':' !in matches[i]
    {
      ShapedHasNoColon(matches[i]);
    }
  }
}
