# openIDscan extraction core in Dafny

This project models the heuristic extraction core of `simple_scan` in
openIDscan.py: the part that turns the upper-cased OCR text of an identity
document into a result record holding a nation, a date of birth, their
confidences, a human-review flag and, in debug mode, the raw date candidates
and a digit-redacted text sample.

Modules, one per stage of the pipeline:

- `Wrappers`: `Option`, the model's `None`.
- `Text`: Python's `in` on strings (`Contains`), the regular-expression
  character classes, ASCII upper-casing and zero-padded decimal rendering
  with its reader (`Pad`, `ValueOf`, `PadRoundTrip`).
- `Search`: `FirstHit`, the left-to-right "stop at the first success" scan
  shared by the country loop and the date-parse loop.
- `Nation`: the "USA" / "UNITED STATES" short-circuit, then the first
  country record whose alpha-3 code or upper-cased name occurs in the text.
- `Dates`: calendar dates as Python's `datetime` admits them, strftime's
  `%m/%d/%Y` and `%d/%m/%Y`, the `birth_format` labels and a reader that
  recovers the date from the rendered string.
- `Birth`: the date-candidate shape, the colon replacement, the keyword gate
  (`DOB`, `BIRTH`, `BORN`, `DATE`, `"3 "`, `POS`) and the first-successful-parse loop.
- `Report`: the result record, the review flag, the debug keys, the text
  sanitiser and `Scan`, which returns the error entry for an unreadable image.
- `ScanExamples`: three worked scenarios
  (`DOB 15/03/1990`, `UNITED STATES OF AMERICA DOB 03/15/1990`, `12-34-5678`
  without keywords) checked against the model.

The foreign pieces are parameters. The country list is an ordered
`seq<Country>`. The date parser is a function value
`(string, bool) -> Option<CalendarDate>`, where `None` stands for the
exception the source swallows. `findall`'s result is a `seq<string>`; the
lemmas that depend on it require every element to be date-shaped. An
unreadable image is `image == None`. Confidences are integer hundredths:
95, 85, 90 and 0.

## Model

| member | source | states |
|---|---|---|
| Search.FirstHit | openIDscan.py:25-29 | the scan returns the first element, in order, for which the step yields a value, with its position; every earlier element yields nothing; it returns nothing exactly when no element yields a value |
| Search.FirstHitAt | openIDscan.py:42-50 | conversely, if position i is the first that succeeds, the scan reports exactly position i and its value |
| Nation.DetectNation | openIDscan.py:18-29 | a text containing "USA" or "UNITED STATES" gives nation "USA" at 0.95; otherwise the alpha-3 code of the first matching record, by code or upper-cased name, at 0.85; nation is unset exactly when neither happens, and then its confidence is 0.0 |
| Nation.UsaShortCircuit | openIDscan.py:21-23 | whatever surrounds "USA" or "UNITED STATES" in the text, and whatever the country list, the nation is "USA" at 0.95 |
| Text.PadRoundTrip | openIDscan.py:46 | a zero-padded rendering of a number that fits the width reads back as that number |
| Dates.FormatDate | openIDscan.py:46 | the birth string is ten characters with slashes at positions 2 and 5, and reading it back with the same field order gives the parsed date |
| Dates.FormatAgreesWithLabel | openIDscan.py:46-57 | a date rendered under one convention reads back as itself under that convention's label, MM/DD/YYYY or DD/MM/YYYY |
| Dates.FormatInjective | openIDscan.py:46 | two different dates never render to the same birth string under the same convention |
| Text.Upper | openIDscan.py:26 | the upper-cased name has the name's length and each ASCII lower-case letter becomes its capital, every other character kept in place |
| Birth.ShapeOfParts | openIDscan.py:32 | 1-4 digits, a separator from `/ - .` or whitespace, 2-9 characters of `[A-Z0-9]`, another separator and 2-4 digits, joined, form a date-shaped candidate |
| Birth.ShapeBounds | openIDscan.py:32 | a date-shaped candidate is 7 to 21 characters long, starts and ends with a digit, and holds only digits, separators and `[A-Z0-9]` |
| Birth.KeywordFoundIff | openIDscan.py:40 | the gate holds exactly when one of DOB, BIRTH, BORN, DATE, "3 " or POS occurs in the text |
| Birth.ConventionFollowsNation | openIDscan.py:37-57 | the parse is day first and the label DD/MM/YYYY exactly when the nation is not "USA"; the label is MM/DD/YYYY exactly when it is |
| Birth.ReplaceColons | openIDscan.py:45 | the replacement keeps the length, turns each colon into a space, leaves no colon and keeps every other character |
| Birth.ShapedHasNoColon | openIDscan.py:32-45 | no character class of the date pattern admits ':', so a date-shaped candidate has no colon and the replacement leaves it unchanged |
| Birth.ParseSeesRawMatch | openIDscan.py:42-45 | on date-shaped candidates the parser receives each candidate exactly as matched |
| Birth.DetectBirth | openIDscan.py:35-50 | with no keyword the birth is unset at 0.0 whatever the candidates; otherwise the first candidate the parser accepts, day first unless the nation is "USA", is reported in the nation's field order at 0.90; the birth is unset exactly when the gate is closed or no candidate parses |
| Report.Sanitize | openIDscan.py:66 | the sample has length min(150, length of text) and holds no digit and no newline; each digit became 'X', each newline a space, every other character is kept in place |
| Report.SanitizeIdempotent | openIDscan.py:66 | sanitising a sample again leaves it unchanged |
| Report.Assemble | openIDscan.py:53-67 | nation and nation_confidence are the nation detector's result on the text, birth and birth_confidence the birth detector's result on the text, candidates and parser under that nation; needs_human_review holds exactly when nation or birth is unset; birth_format is MM/DD/YYYY exactly when the nation is "USA"; the debug entries are present exactly when debug is set and then hold the candidate list and the sanitised sample |
| Report.Scan | openIDscan.py:6-8 | an unreadable image, and only that, yields the single error "File not found or unreadable." |
| Report.KeysMatchDebugFlag | openIDscan.py:53-67 | raw_matches and ocr_text_sample_sanitized are keys exactly when debug is set; the six base keys are always present; there are 6 keys without debug and 8 with it |
| Report.ReviewNotNeededIff | openIDscan.py:59 | no review is needed exactly when a nation was detected, a keyword occurs and some candidate parses in the detected nation's day/month order |
| Report.GateClosedNoBirth | openIDscan.py:40-43 | without any keyword the birth is unset at 0.0 and the result needs review |
| Report.BirthAgreesWithFormat | openIDscan.py:37-57 | a reported birth comes at 0.90 and reads back under birth_format as the parser's date for the first accepted candidate, parsed as matched, day first unless the nation is "USA" |
| Report.RawMatchesAreShaped | openIDscan.py:32-33 | given that `findall` returns date-shaped candidates (assumed, not derived), every entry of raw_matches holds no colon |
| ScanExamples.DayFirstExample | openIDscan.py:17-60 | "DOB 15/03/1990" with any country list none of whose records matches gives nation unset at 0.0 and birth "15/03/1990" in DD/MM/YYYY at 0.90, and needs review |
| ScanExamples.MonthFirstExample | openIDscan.py:17-60 | "UNITED STATES OF AMERICA DOB 03/15/1990" gives "USA" at 0.95 and birth "03/15/1990" in MM/DD/YYYY at 0.90, and needs no review |
| ScanExamples.GateExample | openIDscan.py:35-50 | "12-34-5678" is date-shaped, yet with none of the keywords gives no birth, whatever the parser, and needs review |

## Left out

- Image loading, grayscale conversion and 2x cubic upscaling (openIDscan.py:6-12) are calls into an image library. Only the unreadable-file branch is kept, as `image == None`.
- OCR (openIDscan.py:15) is an external engine. The `.upper()` the script applies to its output is not modelled; the model's input is the text after it.
- The date parser's fuzzy and locale rules are not modelled. The parser is a parameter, and a parse exception is `None`.
- The regular-expression engine's left-to-right, non-overlapping scan for `findall` (openIDscan.py:33) is not modelled. The candidate list is an input, and the lemmas that use its shape require it.
- The pycountry data is not modelled. The ordered record list is a parameter.
- Text.Upper: upper-cases ASCII letters only. Python's `str.upper` also maps non-ASCII letters and can change a string's length.
- Birth.DateShape: reads `\d` as ASCII digits and `\s` as ASCII whitespace. Python's patterns on `str` also accept other Unicode digits and spaces.
- Report.Sanitize: redacts ASCII digits only. `\d` in the source also matches other Unicode decimal digits.
- Dates.FormatDate: always pads the year to four digits. strftime's `%Y` for years below 1000 depends on the platform.
- The command-line entry point (openIDscan.py:71-77) only handles arguments and prints JSON.
- api.py is not part of this model. It is an HTTP upload endpoint with temporary-file handling around `simple_scan`.
- Confidences are exact hundredths, not floats. The source only assigns constants and does no arithmetic on them.
