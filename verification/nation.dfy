/**
 The nation detector of openIDscan.py: a literal check for the United States
 that short-circuits everything, then a first-match scan over the ordered
 list of country records.
 */
module Nation {
  import opened Wrappers
  import opened Text
  import opened Search

  /** One record of the country reference list: its ISO 3166 alpha-3 code and its name. */
  datatype Country = Country(alpha3: string, name: string)

  const UsaCode: string := "USA"
  const UsaName: string := "UNITED STATES"

  /** Confidences in hundredths: 0.95 for the literal United States check, 0.85 for a list match, 0.0 for none. */
  const UsaConfidence: int := 95
  const CountryConfidence: int := 85
  const NoConfidence: int := 0

  datatype NationGuess = NationGuess(nation: Option<string>, confidence: int)

  /** The short-circuit test: the text mentions "USA" or "UNITED STATES". */
  predicate MentionsUsa(text: string) {
    Contains(text, UsaCode) || Contains(text, UsaName)
  }

  /** A record matches when its alpha-3 code or its upper-cased name occurs in the text. */
  predicate RecordMatches(text: string, c: Country) {
    Contains(text, c.alpha3) || Contains(text, Upper(c.name))
  }

  /** One step of the country loop: the record's code if it matches, nothing otherwise. */
  function RecordProbe(text: string): Country -> Option<string> {
    c => if RecordMatches(text, c) then Some(c.alpha3) else None
  }

  /** Position `i` holds the first record, in list order, that matches the text. */
  predicate FirstMatchAt(text: string, countries: seq<Country>, i: int) {
    && 0 <= i < |countries|
    && RecordMatches(text, countries[i])
    && forall j :: 0 <= j < i ==> !RecordMatches(text, countries[j])
  }

  /** No record of the list matches the text. */
  predicate NoRecordMatches(text: string, countries: seq<Country>) {
    forall j :: 0 <= j < |countries| ==> !RecordMatches(text, countries[j])
  }

  /** Nation detection on the upper-cased OCR text. */
  function DetectNation(text: string, countries: seq<Country>): (g: NationGuess)
    ensures MentionsUsa(text) ==> g == NationGuess(Some(UsaCode), UsaConfidence)
    ensures !MentionsUsa(text) ==> forall i :: FirstMatchAt(text, countries, i) ==>
              g == NationGuess(Some(countries[i].alpha3), CountryConfidence)
    ensures g.nation.None? <==> !MentionsUsa(text) && NoRecordMatches(text, countries)
    ensures g.nation.None? ==> g.confidence == NoConfidence
  {
    if MentionsUsa(text) then NationGuess(Some(UsaCode), UsaConfidence)
    else
      match FirstHit(countries, RecordProbe(text))
      case Some(h) => NationGuess(Some(h.value), CountryConfidence)
      case None => NationGuess(None, NoConfidence)
  }

  /**
   Whatever other country codes or names occur, a text that mentions the
   United States is detected as "USA" with confidence 0.95.
   */
  lemma UsaShortCircuit(countries: seq<Country>, prefix: string, suffix: string)
    ensures DetectNation(prefix + UsaName + suffix, countries) == NationGuess(Some(UsaCode), UsaConfidence)
    ensures DetectNation(prefix + UsaCode + suffix, countries) == NationGuess(Some(UsaCode), UsaConfidence)
  {
    var t1 := prefix + UsaName + suffix;
    assert OccursAt(t1, UsaName, |prefix|) by {
      assert t1[|prefix|..|prefix| + |UsaName|] == UsaName;
    }
    var t2 := prefix + UsaCode + suffix;
    assert OccursAt(t2, UsaCode, |prefix|) by {
      assert t2[|prefix|..|prefix| + |UsaCode|] == UsaCode;
    }
  }
}
