/**
  The error values of the KVN line lexers (parser.rs:16-40) and their
  normalization into the deserializer's error type (parser.rs:42-102).
  Every error carries the text it was raised for: the whole input line, or,
  for a missing keyword, the keyword that was expected.
*/
module KvnErrors {

  datatype KvnStringParserErr =
    | EmptyKeyword(input: string)
    | EmptyValue(input: string)
    | InvalidFormat(input: string)

  datatype KvnNumberParserErr =
    | EmptyKeyword(input: string)
    | EmptyValue(input: string)
    | InvalidFormat(input: string)

  datatype KvnDateTimeParserErr =
    | EmptyKeyword(input: string)
    | EmptyValue(input: string)
    | InvalidFormat(input: string)

  datatype KvnKeywordNotFoundErr = KvnKeywordNotFoundErr(expected: string)

  /** The deserializer's error type, as far as these conversions build it:
      number and date-time format errors share one variant. */
  datatype KvnDeserializerErr =
    | EmptyKeyword(input: string)
    | EmptyValue(input: string)
    | InvalidStringFormat(input: string)
    | InvalidDateTimeFormat(input: string)
    | KeywordNotFound(expected: string)

  /** `From<KvnStringParserErr>` (parser.rs:42-58). */
  function FromStringErr(e: KvnStringParserErr): (r: KvnDeserializerErr)
    ensures r.EmptyValue? <==> e.EmptyValue?
    ensures r.EmptyKeyword? <==> e.EmptyKeyword?
    ensures r.InvalidStringFormat? <==> e.InvalidFormat?
    ensures !r.KeywordNotFound? && r.input == e.input
  {
    match e
    case EmptyValue(input) => KvnDeserializerErr.EmptyValue(input)
    case EmptyKeyword(input) => KvnDeserializerErr.EmptyKeyword(input)
    case InvalidFormat(input) => InvalidStringFormat(input)
  }

  /** `From<KvnDateTimeParserErr>` (parser.rs:60-76). */
  function FromDateTimeErr(e: KvnDateTimeParserErr): (r: KvnDeserializerErr)
    ensures r.EmptyValue? <==> e.EmptyValue?
    ensures r.EmptyKeyword? <==> e.EmptyKeyword?
    ensures r.InvalidDateTimeFormat? <==> e.InvalidFormat?
    ensures !r.KeywordNotFound? && r.input == e.input
  {
    match e
    case EmptyValue(input) => KvnDeserializerErr.EmptyValue(input)
    case EmptyKeyword(input) => KvnDeserializerErr.EmptyKeyword(input)
    case InvalidFormat(input) => InvalidDateTimeFormat(input)
  }

  /** `From<KvnNumberParserErr>` (parser.rs:78-94): a malformed number is
      reported with the date-time variant. */
  function FromNumberErr(e: KvnNumberParserErr): (r: KvnDeserializerErr)
    ensures r.EmptyValue? <==> e.EmptyValue?
    ensures r.EmptyKeyword? <==> e.EmptyKeyword?
    ensures r.InvalidDateTimeFormat? <==> e.InvalidFormat?
    ensures !r.KeywordNotFound? && r.input == e.input
  {
    match e
    case EmptyValue(input) => KvnDeserializerErr.EmptyValue(input)
    case EmptyKeyword(input) => KvnDeserializerErr.EmptyKeyword(input)
    case InvalidFormat(input) => InvalidDateTimeFormat(input)
  }

  /** `From<KvnKeywordNotFoundErr>` (parser.rs:96-102). */
  function FromKeywordNotFoundErr(e: KvnKeywordNotFoundErr): (r: KvnDeserializerErr)
    ensures r.KeywordNotFound? && r.expected == e.expected
  {
    KeywordNotFound(e.expected)
  }

  /** No information is lost by the string, number or date-time conversion:
      two different errors of one lexer never normalize to the same value. */
  lemma NormalizationInjective()
    ensures forall a: KvnStringParserErr, b: KvnStringParserErr
      :: FromStringErr(a) == FromStringErr(b) ==> a == b
    ensures forall a: KvnNumberParserErr, b: KvnNumberParserErr
      :: FromNumberErr(a) == FromNumberErr(b) ==> a == b
    ensures forall a: KvnDateTimeParserErr, b: KvnDateTimeParserErr
      :: FromDateTimeErr(a) == FromDateTimeErr(b) ==> a == b
  {
  }

  /** Across lexers, the number and date-time conversions coincide: a
      malformed number and a malformed date on the same line become the same
      error, and only a malformed string stays apart. */
  lemma NumberAndDateTimeErrorsCoincide(input: string)
    ensures FromNumberErr(KvnNumberParserErr.InvalidFormat(input))
         == FromDateTimeErr(KvnDateTimeParserErr.InvalidFormat(input))
    ensures FromStringErr(KvnStringParserErr.InvalidFormat(input))
         != FromNumberErr(KvnNumberParserErr.InvalidFormat(input))
  {
  }
}
