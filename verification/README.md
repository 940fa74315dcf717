# KVN line lexers

A model of the line lexers of the Keyword Value Notation (KVN) reader in
the `lox-io` crate. KVN is the text form of CCSDS navigation data messages
(section 7.4 of CCSDS 502.0-B-3). Every line of a KVN message has the form
`KEYWORD = value [unit]`. The lexers in `crates/lox-io/src/ndm/kvn/parser.rs`
take one line and return its value as a string, an integer, a
floating-point number or a date. Otherwise they return one of three errors:
an empty value, an empty keyword, or a malformed line. A separate
matcher reports whether a line's keyword is the one the deserializer
expects.

The source recognises lines with eight regular expressions. Seven of them
(the string, empty-value, date-time and four number patterns) are
recognizers in module `KvnGrammar`. Each works over a `Line`, a record of
the spans of a match: leading white space, keyword, the gaps around the
`=`, value, optional unit clause and trailing white space. Two facts are
proved for each of these seven:
- the recognizer returns the line that `Render` turns back into the input,
  and that line satisfies the pattern's grammar predicate;
- on every line of that grammar the recognizer returns exactly that line.

The eighth, the matcher's pattern `^\s*[0-9A-Z_]*\s*`, matches every line.
It only splits off the leading upper-case run. `KvnLexers.KvnLineMatchesKey`
models it with the greedy split `Text.SplitRun`, and its contract states
outright when the matcher answers true.

So each of the seven recognizers accepts a text if and only if the text
is a rendered line of its grammar. The lexers (module `KvnLexers`) run their checks in
the order of the source. Module `KvnProperties` proves what each lexer
returns on every line of its grammar. Module `KvnCases` works through
inputs from the source's unit tests and one input that makes the
date-time lexer panic.

Modules:
- `Results`: `Option` and `Result`;
- `Text`: white space, keyword and unit character classes, the
  `str::trim_*` family, greedy runs and decimal values;
- `KvnLayout`: the `Line` record, `Render`, and the grammar predicates;
- `KvnGrammar`: the recognizers and their round-trip lemmas;
- `KvnErrors`: error enums and their conversion into the deserializer's error;
- `KvnLexers`: the matcher and the four lexers;
- `KvnProperties`, `KvnCases`: properties and worked inputs.

White space (`\s` in the patterns and `char::is_whitespace` in the trims)
is the Unicode White_Space set. Characters are Dafny `char`s. An integer
type is an `IntTarget(lo, hi)`: its range, signed when `lo < 0`.

## Model

| member | source | states |
|---|---|---|
| KvnErrors.FromStringErr | crates/lox-io/src/ndm/kvn/parser.rs:42-58 | a string-lexer error keeps its kind and its input line; a format error becomes the string-format variant |
| KvnErrors.FromDateTimeErr | crates/lox-io/src/ndm/kvn/parser.rs:60-76 | a date-time error keeps its kind and input; a format error becomes the date-time-format variant |
| KvnErrors.FromNumberErr | crates/lox-io/src/ndm/kvn/parser.rs:78-94 | a number error keeps its kind and input; a format error also becomes the date-time-format variant |
| KvnErrors.FromKeywordNotFoundErr | crates/lox-io/src/ndm/kvn/parser.rs:96-102 | a missing keyword becomes `KeywordNotFound` with the expected keyword |
| KvnErrors.NormalizationInjective | crates/lox-io/src/ndm/kvn/parser.rs:42-94 | no two different errors of one lexer convert to the same deserializer error |
| KvnErrors.NumberAndDateTimeErrorsCoincide | crates/lox-io/src/ndm/kvn/parser.rs:78-94 | a malformed number and a malformed date on the same line convert to the same error; a malformed string converts to a different one |
| Text.TrimStart | crates/lox-io/src/ndm/kvn/parser.rs:147-152 | `trim_start` returns a suffix that starts with no white space, and everything it drops is white space |
| Text.TrimEnd | crates/lox-io/src/ndm/kvn/parser.rs:184-190 | `trim_end` returns a prefix that ends with no white space, and everything it drops is white space |
| Text.TrimEndOf | crates/lox-io/src/ndm/kvn/parser.rs:184-190 | trailing white space is exactly what `trim_end` removes |
| Text.TrimStartMatches | crates/lox-io/src/ndm/kvn/parser.rs:151 | `trim_start_matches` drops some number of copies of the pattern from the front, and what remains no longer starts with the pattern |
| Text.SplitRun | crates/lox-io/src/ndm/kvn/parser.rs:127 | a greedy `k*` splits off a run of `k` that is not followed by a character of `k` |
| Text.SplitRunOf | crates/lox-io/src/ndm/kvn/parser.rs:127 | a run of `k` followed by a character outside `k` is exactly the split a greedy `k*` makes |
| Text.DecimalRoundTrip | crates/lox-io/src/ndm/kvn/parser.rs:326-350 | reading the decimal text of a number gives the number back |
| KvnGrammar.MatchHead | crates/lox-io/src/ndm/kvn/parser.rs:165 | the head `\s*keyword\s*=` splits the input into white space, a keyword run, white space, `=` and the rest; an empty keyword leaves no white space before the `=` |
| KvnGrammar.MatchHeadOf | crates/lox-io/src/ndm/kvn/parser.rs:165 | on every text of that shape the head recognizer finds exactly those spans |
| KvnGrammar.MatchStringLine | crates/lox-io/src/ndm/kvn/parser.rs:165 | a match of the string pattern renders back to the input and satisfies the string grammar (the value stops at the first line feed and only white space follows it) |
| KvnGrammar.MatchStringLineOf | crates/lox-io/src/ndm/kvn/parser.rs:165 | the string pattern finds exactly the spans of every line of its grammar |
| KvnGrammar.MatchStringLineIff | crates/lox-io/src/ndm/kvn/parser.rs:165-170 | the string pattern matches a text if and only if the text is a line of the string grammar |
| KvnGrammar.MatchEmptyValue | crates/lox-io/src/ndm/kvn/parser.rs:248 | a match of the empty-value pattern renders back to the input; after the `=` comes white space and at most a bare unit clause |
| KvnGrammar.MatchEmptyValueOf | crates/lox-io/src/ndm/kvn/parser.rs:248 | the empty-value pattern finds exactly the spans of every line of its grammar |
| KvnGrammar.MatchEmptyValueIff | crates/lox-io/src/ndm/kvn/parser.rs:246-253 | `is_empty_value` holds if and only if the text is a line of the empty-value grammar |
| KvnGrammar.ScanNumeral | crates/lox-io/src/ndm/kvn/parser.rs:211 | the value `[-+]?[0-9]+(\.\d*)?`, with an exponent `([eE][+-]?\d+)?` when it is allowed, is a well-formed numeral followed by the rest of the text |
| KvnGrammar.ScanNumeralOf | crates/lox-io/src/ndm/kvn/parser.rs:265 | a numeral followed by something that cannot extend it is scanned back exactly |
| KvnGrammar.MatchUnitTail | crates/lox-io/src/ndm/kvn/parser.rs:211 | what follows the value is white space with an optional `[unit]` whose closing bracket may be missing, and the unit clause appears only when units are enabled |
| KvnGrammar.MatchUnitTailOf | crates/lox-io/src/ndm/kvn/parser.rs:211-213 | every allowed unit clause and trailing white space is recognized exactly |
| KvnGrammar.MatchNumberLine | crates/lox-io/src/ndm/kvn/parser.rs:210-214 | a match of an integer or floating-point pattern renders back to the input and satisfies the number grammar |
| KvnGrammar.MatchNumberLineOf | crates/lox-io/src/ndm/kvn/parser.rs:263-268 | the number patterns find exactly the spans and the numeral of every line of their grammar |
| KvnGrammar.MatchNumberLineIff | crates/lox-io/src/ndm/kvn/parser.rs:219-221 | a number pattern matches a text if and only if the text is a line of its grammar |
| KvnGrammar.ScanDate | crates/lox-io/src/ndm/kvn/parser.rs:306 | a scanned date is `YYYY-M[M]-D[D]Th[h]:m[m]:` followed by at most two seconds digits and an optional fraction |
| KvnGrammar.ScanDateOf | crates/lox-io/src/ndm/kvn/parser.rs:306 | every date of that form, followed by white space or nothing, is scanned back into its fields |
| KvnGrammar.MatchDateTimeLine | crates/lox-io/src/ndm/kvn/parser.rs:306 | a match of the date-time pattern renders back to the input and satisfies the date-time grammar |
| KvnGrammar.MatchDateTimeLineOf | crates/lox-io/src/ndm/kvn/parser.rs:306 | the date-time pattern finds exactly the spans and the date fields of every line of its grammar |
| KvnGrammar.MatchDateTimeLineIff | crates/lox-io/src/ndm/kvn/parser.rs:306-310 | the date-time pattern matches a text if and only if the text is a line of the date-time grammar |
| KvnGrammar.EmptyStringLineIsEmptyValue | crates/lox-io/src/ndm/kvn/parser.rs:192-194 | a string line whose value is empty is already an empty-value line, so the source's second emptiness test never fires |
| KvnGrammar.StringLineIsNotEmptyValue | crates/lox-io/src/ndm/kvn/parser.rs:158-160 | a string line whose value does not start with `[` is not an empty-value line |
| KvnGrammar.NumberLineIsNotEmptyValue | crates/lox-io/src/ndm/kvn/parser.rs:206-208 | no line of a number grammar is an empty-value line |
| KvnGrammar.DateTimeLineIsNotEmptyValue | crates/lox-io/src/ndm/kvn/parser.rs:301-303 | no line of the date-time grammar is an empty-value line |
| KvnLexers.KeywordTrimEnd | crates/lox-io/src/ndm/kvn/parser.rs:138 | the `trim_end` of a captured keyword changes nothing |
| KvnLexers.KvnLineMatchesKey | crates/lox-io/src/ndm/kvn/parser.rs:123-142 | the matcher never fails; it answers true if and only if the upper-case run after the leading white space is exactly the key |
| KvnLexers.IsEmptyValue | crates/lox-io/src/ndm/kvn/parser.rs:246-253 | holds if and only if the line is a keyword, `=`, then only white space or a bare unit clause |
| KvnLexers.ParseStringLine | crates/lox-io/src/ndm/kvn/parser.rs:144-197 | a `COMMENT ` line is always accepted; otherwise an empty-value line gives `EmptyValue`, a non-matching line gives `InvalidFormat`, every error carries the input, and an accepted value is nonempty and trimmed at both ends |
| KvnLexers.IntFromStr | crates/lox-io/src/ndm/kvn/parser.rs:239-241 | integer `from_str` returns only values in the type's range; its full behaviour on numerals is `KvnProperties.IntFromStrOfNumeral` |
| KvnLexers.ParseIntegerLine | crates/lox-io/src/ndm/kvn/parser.rs:199-244 | an empty-value line gives `EmptyValue`, a non-matching line gives `InvalidFormat`, `EmptyKeyword` only on a matching line, an accepted value is within the type's range, and no unit is reported without units enabled |
| KvnLexers.ParseNumericLine | crates/lox-io/src/ndm/kvn/parser.rs:255-296 | the same error order as the integer lexer; an accepted value is a well-formed numeral, possibly with an exponent |
| KvnLexers.SecondsParse | crates/lox-io/src/ndm/kvn/parser.rs:354-359 | `parse::<f64>` of the seconds capture succeeds if and only if the captured text is neither empty nor a lone `.` |
| KvnLexers.DateTimeValueOf | crates/lox-io/src/ndm/kvn/parser.rs:326-365 | each field is the decimal value of its digits, and the fields fit their `u16` and `u8` conversions (year below 10000, the others below 100) |
| KvnLexers.ParseDateTimeLineAsWritten | crates/lox-io/src/ndm/kvn/parser.rs:298-377 | an empty-value line gives `EmptyValue`, and a panic happens only on a line of the date-time grammar |
| KvnLexers.ParseDateTimeLine | crates/lox-io/src/ndm/kvn/parser.rs:298-377 | as the source, with a seconds field that cannot be read reported as `InvalidFormat`; the error order is the same as the other lexers, and accepted fields fit their types |
| KvnLexers.DecimalValueBound | crates/lox-io/src/ndm/kvn/parser.rs:326-350 | a value of `k` digits is below 10^k |
| KvnProperties.HeadRuns | crates/lox-io/src/ndm/kvn/parser.rs:127 | after its leading white space a line splits into its keyword run, then white space, then `=` |
| KvnProperties.MatcherSeesLineKeyword | crates/lox-io/src/ndm/kvn/parser.rs:123-142 | on every line of every lexer's grammar with an upper-case keyword, the matcher answers true for that keyword and false for every other key |
| KvnProperties.CommentLineValue | crates/lox-io/src/ndm/kvn/parser.rs:147-156 | on `COMMENT ` after white space the value is the rest of the line with its leading white space removed and its trailing white space kept |
| KvnProperties.EmptyValueComesFirst | crates/lox-io/src/ndm/kvn/parser.rs:158-160 | all four lexers answer `EmptyValue` on an empty-value line, even one without a keyword (the string lexer only when the line is no comment) |
| KvnProperties.StringLineNeedsEquals | crates/lox-io/src/ndm/kvn/parser.rs:165-170 | a line that is no comment, has a value, and has no `=` right after its upper-case keyword is `InvalidFormat` |
| KvnProperties.StringLineRoundTrip | crates/lox-io/src/ndm/kvn/parser.rs:164-196 | on a string line, an empty keyword gives `EmptyKeyword`; otherwise the value is the text after the `=` trimmed at both ends, and it is never empty |
| KvnProperties.IntFromStrOfNumeral | crates/lox-io/src/ndm/kvn/parser.rs:239-241 | `from_str` reads a numeral as the integer it denotes; it rejects a fraction, a `-` for an unsigned type, and a value out of range |
| KvnProperties.DecimalValueLeadingZeros | crates/lox-io/src/ndm/kvn/parser.rs:239-241 | leading zeros do not change a decimal value |
| KvnProperties.IntegerLineRoundTrip | crates/lox-io/src/ndm/kvn/parser.rs:199-244 | on an integer line: an empty keyword gives `EmptyKeyword`; otherwise the numeral's value and the unit written are returned when `from_str` accepts the numeral, and `InvalidFormat` otherwise |
| KvnProperties.NumberLineWithUnit | crates/lox-io/src/ndm/kvn/parser.rs:210-214 | the number pattern with units admits every line of the pattern without units |
| KvnProperties.BracketNeedsUnits | crates/lox-io/src/ndm/kvn/parser.rs:213 | a line with a unit clause is not a line of the pattern without units |
| KvnProperties.WithoutUnitsBracketIsInvalid | crates/lox-io/src/ndm/kvn/parser.rs:263-274 | with units disabled, both number lexers answer `InvalidFormat` on a line with a unit clause |
| KvnProperties.NumericLineRoundTrip | crates/lox-io/src/ndm/kvn/parser.rs:255-296 | on a floating-point line, an empty keyword gives `EmptyKeyword`; otherwise the result is the numeral and the unit written |
| KvnProperties.DateTimeLineRoundTrip | crates/lox-io/src/ndm/kvn/parser.rs:298-377 | on a date-time line: an empty keyword gives `EmptyKeyword`, an unreadable seconds field gives `InvalidFormat`, and otherwise the result is the fields' decimal values with the whole value as `full_value` |
| KvnProperties.DateTimeCorrectionAgrees | crates/lox-io/src/ndm/kvn/parser.rs:354-359 | where the lexer as written returns, the corrected lexer returns the same; where it panics, the corrected lexer answers `InvalidFormat` |
| KvnProperties.DateTimeAsWrittenPanics | crates/lox-io/src/ndm/kvn/parser.rs:354-359 | the lexer as written panics on every date-time line with a keyword whose seconds field has no digit |
| KvnCases.BlankComment | crates/lox-io/src/ndm/kvn/parser.rs:465-471 | `"  COMMENT "` gives the empty value |
| KvnCases.TextComment | crates/lox-io/src/ndm/kvn/parser.rs:457-463 | the comment's text is kept with its inner and trailing white space |
| KvnCases.StringCase | crates/lox-io/src/ndm/kvn/parser.rs:446-452 | `"  ASD  = ASDFG"` gives `ASDFG` |
| KvnCases.EmptyKeywordCase | crates/lox-io/src/ndm/kvn/parser.rs:429-434 | `" = asd [km]"` gives `EmptyKeyword` |
| KvnCases.PaddedIntegerCase | crates/lox-io/src/ndm/kvn/parser.rs:514-520 | `00028800 [s]` reads as 28800 with unit `s` |
| KvnCases.UnitDisabledCase | crates/lox-io/src/ndm/kvn/parser.rs:546-551 | with units disabled, `28800 [s]` is `InvalidFormat` |
| KvnCases.NegativeIntegerCases | crates/lox-io/src/ndm/kvn/parser.rs:530-536 | `-28800` reads as -28800 for a signed 32-bit type and is `InvalidFormat` for an unsigned one |
| KvnCases.ExponentCase | crates/lox-io/src/ndm/kvn/parser.rs:648-654 | `5.801003223606e-05` after two spaces is read as that numeral |
| KvnCases.DateTimeCase | crates/lox-io/src/ndm/kvn/parser.rs:693-705 | `2021-06-03T05:33:00.123` reads as 2021, 6, 3, 5, 33, 0 with fraction digits `123` and the whole value |
| KvnCases.SecondsWithoutDigitsPanics | crates/lox-io/src/ndm/kvn/parser.rs:354-359 | `CREATION_DATE = 2021-06-03T05:33:` makes the lexer as written panic; the corrected lexer answers `InvalidFormat` |

## Left out

- Regular-expression compilation and its `unwrap` (parser.rs:164-166, 217, 270, 306): each pattern is a fixed recognizer.
- Digits: `\d` is modelled as the ASCII digits `0-9`. The Rust `regex` crate's `\d` also matches other Unicode decimal digits. On such digits the date-field parses at parser.rs:326-350 would fail to `unwrap`, and the fraction of a number would be refused by its conversion. Neither is modelled.
- KvnLexers.ParseNumericLine: the value is the numeral the pattern captured, not the `f64` that `fast_float::parse` makes of it. Rounding to a double and the conversion's error branch (parser.rs:292-293) are not modelled. Every numeral the pattern admits is taken to convert.
- KvnLexers.DateTimeValueOf: `fractional_second` is kept as the digits after the point, not as an `f64`. The `floor` and `fract` of parser.rs:361-363 are exact here, with no double rounding.
- KvnLexers.ParseIntegerLine: the generic `T: FromStr` is modelled only for primitive integer types, given by their range. Integer `from_str` rejects a numeral with a fraction, so the lexer answers `InvalidFormat` on `1.5`. It does not discard the fraction, although a plain reading of the format would suggest that.
- The deserializer and its derive macro (`deserializer.rs`, used by the test at parser.rs:821-838 with its types at 804-819) are not part of this model, so a `KvnDeserializerErr` is modelled only with the variants these conversions build.
- The other crates (`lox-time`, `lox-space`, `lox-earth`) are not part of this model.
- Borrowed strings and lifetimes: errors carry a copy of the input line.

## Findings

| source | as written | input that shows it | evidently intended | confidence | as-written member | corrected member |
|---|---|---|---|---|---|---|
| crates/lox-io/src/ndm/kvn/parser.rs:354-359 | the seconds capture `\d{0,2}(?:\.\d*)?` may be empty or a lone `.`, and `parse::<f64>().unwrap()` then panics | `CREATION_DATE = 2021-06-03T05:33:` | a malformed date is reported as `InvalidFormat`, like every other malformed line | not executed | KvnLexers.ParseDateTimeLineAsWritten (KvnProperties.DateTimeAsWrittenPanics, KvnCases.SecondsWithoutDigitsPanics) | KvnLexers.ParseDateTimeLine (KvnProperties.DateTimeLineRoundTrip, KvnProperties.DateTimeCorrectionAgrees) |
