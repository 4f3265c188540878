/**
 * RosterConversionService.parseRoster: preprocessing, the OCR call, the parse call and the
 * JSON decode in sequence, each stage an abstract function, each failure mapped as the
 * service maps it.
 */
module ConversionService {
  import opened Wrappers
  import opened Http
  import opened JavaInt
  import opened JsonValue
  import ImagePreprocessor
  import opened OpenAiClient
  import opened Usage

  /**
   * What ObjectMapper.readValue(text, Map) gives: an IOException for text that is not JSON
   * or not an object, null for the literal `null`, otherwise the decoded object.
   */
  datatype Decoded = NotAnObject | NullLiteral | Object(data: JsonObject)

  /** The collaborators: preprocessing, the two OpenAI calls, and the JSON decoder. */
  datatype Stages = Stages(
    preprocess: seq<Byte> -> Result<seq<Byte>, ImagePreprocessor.IoError>,
    ocr: seq<Byte> -> Result<OpenAiResult, StatusError>,
    parse: string -> Result<OpenAiResult, StatusError>,
    decode: string -> Decoded)

  /** RosterParseResult: the decoded roster and the usage records of the two calls. */
  datatype RosterParseResult = RosterParseResult(data: JsonObject, ocrUsage: CallUsage, parseUsage: CallUsage)

  /**
   * What parseRoster throws: a ResponseStatusException, or the NullPointerException of
   * dereferencing a null data map while logging the event count.
   */
  datatype Thrown = Raised(error: StatusError) | NullDereference

  const INVALID_IMAGE: Thrown := Raised(StatusError(BAD_REQUEST, "invalid image content"))
  const INVALID_JSON: Thrown := Raised(StatusError(BAD_GATEWAY, "OpenAI response was not valid JSON"))

  /**
   * parseRoster. Preprocessing errors become 400; the clients' errors pass through untouched;
   * text that does not decode to an object is a 502, the literal `null` a null dereference; on success the decoded object and the
   * two usage records are returned as they came, side by side.
   */
  function ParseRoster(imageBytes: seq<Byte>, stages: Stages): (r: Result<RosterParseResult, Thrown>)
    ensures stages.preprocess(imageBytes).Failure? ==> r == Failure(INVALID_IMAGE)
    ensures r.Success? <==>
              && stages.preprocess(imageBytes).Success?
              && stages.ocr(stages.preprocess(imageBytes).value).Success?
              && stages.parse(stages.ocr(stages.preprocess(imageBytes).value).value.outputText).Success?
              && stages.decode(stages.parse(stages.ocr(stages.preprocess(imageBytes).value).value.outputText)
                               .value.outputText).Object?
    ensures r.Success? ==>
              var ocr := stages.ocr(stages.preprocess(imageBytes).value).value;
              var parsed := stages.parse(ocr.outputText).value;
              r.value == RosterParseResult(stages.decode(parsed.outputText).data, ocr.usage, parsed.usage)
  {
    match stages.preprocess(imageBytes)
    case Failure(_) => Failure(INVALID_IMAGE)
    case Success(png) =>
      match stages.ocr(png)
      case Failure(e) => Failure(Raised(e))
      case Success(ocr) =>
      match stages.parse(ocr.outputText)
      case Failure(e) => Failure(Raised(e))
      case Success(parsed) =>
      match stages.decode(parsed.outputText)
      case NotAnObject => Failure(INVALID_JSON)
      case NullLiteral => Failure(NullDereference)
      case Object(data) => Success(RosterParseResult(data, ocr.usage, parsed.usage))
  }

  /** A preprocessing failure ends the conversion before either OpenAI call or the decoder. */
  lemma PreprocessFailureSkipsCalls(imageBytes: seq<Byte>, s: Stages, t: Stages)
    requires s.preprocess == t.preprocess && s.preprocess(imageBytes).Failure?
    ensures ParseRoster(imageBytes, s) == ParseRoster(imageBytes, t)
  {
  }

  /** A failed OCR call is the result, unchanged; the parse call and the decoder are not reached. */
  lemma OcrFailurePropagates(imageBytes: seq<Byte>, s: Stages, t: Stages)
    requires s.preprocess == t.preprocess && s.ocr == t.ocr
    requires s.preprocess(imageBytes).Success? && s.ocr(s.preprocess(imageBytes).value).Failure?
    ensures ParseRoster(imageBytes, s) == Failure(Raised(s.ocr(s.preprocess(imageBytes).value).error))
    ensures ParseRoster(imageBytes, s) == ParseRoster(imageBytes, t)
  {
  }

  /** A failed parse call is the result, unchanged; the decoder is not reached. */
  lemma ParseFailurePropagates(imageBytes: seq<Byte>, s: Stages)
    requires s.preprocess(imageBytes).Success? && s.ocr(s.preprocess(imageBytes).value).Success?
    requires s.parse(s.ocr(s.preprocess(imageBytes).value).value.outputText).Failure?
    ensures ParseRoster(imageBytes, s) ==
              Failure(Raised(s.parse(s.ocr(s.preprocess(imageBytes).value).value.outputText).error))
  {
  }

  /**
   * The parse call sees exactly the OCR text: two parse stages that agree on that one text
   * give the same conversion.
   */
  lemma ParseSeesOcrText(imageBytes: seq<Byte>, s: Stages, t: Stages)
    requires s.preprocess == t.preprocess && s.ocr == t.ocr && s.decode == t.decode
    requires s.preprocess(imageBytes).Success? && s.ocr(s.preprocess(imageBytes).value).Success?
    requires s.parse(s.ocr(s.preprocess(imageBytes).value).value.outputText)
             == t.parse(s.ocr(s.preprocess(imageBytes).value).value.outputText)
    ensures ParseRoster(imageBytes, s) == ParseRoster(imageBytes, t)
  {
  }

  /** Parse output that is not a JSON object is a 502, whatever the usage so far. */
  lemma NonObjectOutputIsBadGateway(imageBytes: seq<Byte>, s: Stages)
    requires s.preprocess(imageBytes).Success? && s.ocr(s.preprocess(imageBytes).value).Success?
    requires s.parse(s.ocr(s.preprocess(imageBytes).value).value.outputText).Success?
    requires s.decode(s.parse(s.ocr(s.preprocess(imageBytes).value).value.outputText).value.outputText) == NotAnObject
    ensures ParseRoster(imageBytes, s) == Failure(INVALID_JSON)
  {
  }
}
