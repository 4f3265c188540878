/**
 * The response-handling helpers of OpenAiRosterClient: the API-key guard, the cache-key
 * policy, the mapping of SDK failures to HTTP statuses, output-text concatenation, usage
 * extraction and log truncation, and the two calls built from them. The SDK's response is
 * a plain datatype; sending a request is a function parameter.
 */
module OpenAiClient {
  import opened Wrappers
  import opened Http
  import opened JavaInt
  import Text
  import opened Usage

  // ---------------------------------------------------------------- the SDK response

  /** One content part of an output message; only an output-text part carries text. */
  datatype Content = Content(outputText: Option<string>)

  /** An output item: only a message item has content parts. */
  datatype OutputItem = OutputItem(message: Option<seq<Content>>)

  /** The cached-token count inside the input-token details. */
  datatype InputTokensDetails = InputTokensDetails(cachedTokens: Option<int>)

  /**
   * The usage block: each count is present only when the response carried it as a number;
   * the details are present only when they were of the known shape.
   */
  datatype UsageNode = UsageNode(
    inputTokens: Option<int>,
    outputTokens: Option<int>,
    totalTokens: Option<int>,
    inputTokensDetails: Option<InputTokensDetails>)

  datatype Response = Response(output: seq<OutputItem>, usage: Option<UsageNode>)

  /** What the SDK throws: a service error with its HTTP status, or any other request failure. */
  datatype SdkError = ServiceError(statusCode: int, message: string) | RequestFailed

  // ---------------------------------------------------------------- the request

  /**
   * The parameters a call sends: model, the two prompt messages, the image (OCR only) and
   * the prompt cache key when one was set. Temperature and top-p are fixed by both calls.
   */
  datatype Request = Request(
    model: string,
    systemPrompt: string,
    userText: string,
    image: Option<seq<Byte>>,
    temperature: real,
    topP: real,
    promptCacheKey: Option<string>)

  /** The part of ResponseCreateParams.Builder the client touches after creating it. */
  class RequestBuilder {
    var model: string
    var systemPrompt: string
    var userText: string
    var image: Option<seq<Byte>>
    var promptCacheKey: Option<string>

    constructor(model: string, systemPrompt: string, userText: string, image: Option<seq<Byte>>)
      ensures this.model == model && this.systemPrompt == systemPrompt
      ensures this.userText == userText && this.image == image
      ensures promptCacheKey == None
    {
      this.model := model;
      this.systemPrompt := systemPrompt;
      this.userText := userText;
      this.image := image;
      promptCacheKey := None;
    }

    /** build(): the request as the builder holds it, with temperature 0.0 and top-p 1.0. */
    function Build(): (r: Request)
      reads this
      ensures r.model == model && r.systemPrompt == systemPrompt && r.userText == userText
      ensures r.image == image && r.promptCacheKey == promptCacheKey
      ensures r.temperature == 0.0 && r.topP == 1.0
    {
      Request(model, systemPrompt, userText, image, 0.0, 1.0, promptCacheKey)
    }
  }

  /** The client's configuration: API key (None is null), the two model names, the cache switch. */
  datatype Settings = Settings(apiKey: Option<string>, ocrModel: string, parseModel: string, enableCache: bool)

  /** The two system prompts, opaque text. */
  datatype Prompts = Prompts(ocrSystem: string, parseSystem: string)

  /** What both calls return: the output text and the usage record extracted for it. */
  datatype OpenAiResult = OpenAiResult(outputText: string, usage: CallUsage)

  const LOG_TEXT_LIMIT: nat := 2000
  const TRUNCATED_MARK: string := "...(truncated)"
  const OCR_USER_TEXT: string := "Transcribe the roster in this image exactly as text."
  const KEY_MISSING: StatusError := StatusError(INTERNAL_SERVER_ERROR, "OPENAI_API_KEY is not configured")
  const TEXT_MISSING: StatusError := StatusError(BAD_GATEWAY, "OpenAI response missing output text")
  const REQUEST_FAILED: StatusError := StatusError(BAD_GATEWAY, "OpenAI request failed")

  // ---------------------------------------------------------------- the API-key guard

  /** ensureApiKey: a null or blank key is a 500, any other key passes. */
  function EnsureApiKey(apiKey: Option<string>): (r: Option<StatusError>)
    ensures r.None? <==> apiKey.Some? && !Text.IsBlank(apiKey.value)
    ensures r.Some? ==> r.value.status == INTERNAL_SERVER_ERROR && r == Some(KEY_MISSING)
  {
    if apiKey.None? || Text.IsBlank(apiKey.value) then Some(KEY_MISSING) else None
  }

  // ---------------------------------------------------------------- the cache-key policy

  /**
   * applyCacheControl: with caching on, the builder is left alone and "default" names the
   * key; with caching off, a fresh key (the random UUID, a parameter here) is set on the
   * builder and returned.
   */
  method ApplyCacheControl(builder: RequestBuilder, enableCache: bool, freshKey: string) returns (key: string)
    modifies builder
    ensures enableCache ==> key == "default" && builder.promptCacheKey == old(builder.promptCacheKey)
    ensures !enableCache ==> key == freshKey && builder.promptCacheKey == Some(key)
    ensures builder.model == old(builder.model) && builder.systemPrompt == old(builder.systemPrompt)
    ensures builder.userText == old(builder.userText) && builder.image == old(builder.image)
  {
    if !enableCache {
      builder.promptCacheKey := Some(freshKey);
      return freshKey;
    }
    return "default";
  }

  // ---------------------------------------------------------------- executing a request

  /**
   * The status `execute` raises for an SDK failure: a service error keeps its status when
   * HttpStatus knows that code (`knownStatus`) and is otherwise a 502; any other failure is
   * a 502 with a fixed reason.
   */
  function MapSdkFailure(e: SdkError, knownStatus: int -> bool): (r: StatusError)
    ensures e.ServiceError? ==> r.reason == e.message
    ensures e.ServiceError? && knownStatus(e.statusCode) ==> r.status == e.statusCode
    ensures e.ServiceError? && !knownStatus(e.statusCode) ==> r.status == BAD_GATEWAY
    ensures e.RequestFailed? ==> r == REQUEST_FAILED
  {
    match e
    case ServiceError(code, message) => StatusError(if knownStatus(code) then code else BAD_GATEWAY, message)
    case RequestFailed => REQUEST_FAILED
  }

  /** execute: send the request; a failure comes back as the mapped status. */
  function Execute(send: Request -> Result<Response, SdkError>, request: Request, knownStatus: int -> bool)
    : (r: Result<Response, StatusError>)
    ensures send(request).Success? <==> r.Success?
    ensures r.Success? ==> r.value == send(request).value
    ensures r.Failure? ==> r.error == MapSdkFailure(send(request).error, knownStatus)
  {
    match send(request)
    case Success(response) => Success(response)
    case Failure(e) => Failure(MapSdkFailure(e, knownStatus))
  }

  // ---------------------------------------------------------------- output text

  /** The text pieces of some content parts, concatenated in order. */
  function ContentsText(contents: seq<Content>): string
  {
    if contents == [] then ""
    else
      ContentsText(contents[..|contents| - 1]) + PieceText(contents[|contents| - 1])
  }

  /** The text one content part contributes: its output text, or nothing. */
  function PieceText(c: Content): string
  {
    if c.outputText.Some? then c.outputText.value else ""
  }

  function ItemText(item: OutputItem): string
  {
    if item.message.Some? then ContentsText(item.message.value) else ""
  }

  /** The text pieces of every output item, message and content part, concatenated in order. */
  function ItemsText(items: seq<OutputItem>): string
  {
    if items == [] then "" else ItemsText(items[..|items| - 1]) + ItemText(items[|items| - 1])
  }

  /** Whether a content part contributes something to the output text. */
  predicate HasText(c: Content)
  {
    c.outputText.Some? && c.outputText.value != ""
  }

  lemma {:induction false} ContentsTextEmpty(contents: seq<Content>)
    ensures ContentsText(contents) == "" <==> forall j :: 0 <= j < |contents| ==> !HasText(contents[j])
  {
    if contents != [] {
      var init := contents[..|contents| - 1];
      ContentsTextEmpty(init);
      assert forall j :: 0 <= j < |init| ==> init[j] == contents[j];
    }
  }

  /**
   * The concatenated text is empty exactly when no output-text piece of any message of any
   * item has a character in it.
   */
  lemma {:induction false} OutputTextEmpty(items: seq<OutputItem>)
    ensures ItemsText(items) == "" <==>
              forall i, j :: 0 <= i < |items| && items[i].message.Some? && 0 <= j < |items[i].message.value| ==>
                !HasText(items[i].message.value[j])
  {
    if items != [] {
      var init := items[..|items| - 1];
      var last := items[|items| - 1];
      OutputTextEmpty(init);
      if last.message.Some? {
        ContentsTextEmpty(last.message.value);
      }
      assert forall i :: 0 <= i < |init| ==> init[i] == items[i];
    }
  }

  /** The text of a list of items is the text of a prefix followed by the text of the rest. */
  lemma {:induction false} ItemsTextAppend(a: seq<OutputItem>, b: seq<OutputItem>)
    ensures ItemsText(a + b) == ItemsText(a) + ItemsText(b)
  {
    if b == [] {
      assert a + b == a;
    } else {
      var b0 := b[..|b| - 1];
      assert (a + b)[..|a + b| - 1] == a + b0;
      assert (a + b)[|a + b| - 1] == b[|b| - 1];
      ItemsTextAppend(a, b0);
    }
  }

  lemma ContentsStep(contents: seq<Content>, j: nat)
    requires j < |contents|
    ensures ContentsText(contents[..j + 1]) == ContentsText(contents[..j]) + PieceText(contents[j])
  {
    assert contents[..j + 1][..j] == contents[..j];
  }

  lemma ItemsStep(items: seq<OutputItem>, i: nat)
    requires i < |items|
    ensures ItemsText(items[..i + 1]) == ItemsText(items[..i]) + ItemText(items[i])
  {
    assert items[..i + 1][..i] == items[..i];
  }

  /** extractOutputText's inner loop: the text of one message's parts appended to `out`. */
  method AppendContentsText(out: string, contents: seq<Content>) returns (r: string)
    ensures r == out + ContentsText(contents)
  {
    r := out;
    var j := 0;
    while j < |contents|
      invariant 0 <= j <= |contents|
      invariant r == out + ContentsText(contents[..j])
    {
      ContentsStep(contents, j);
      Text.AppendAssoc(out, ContentsText(contents[..j]), PieceText(contents[j]));
      if contents[j].outputText.Some? {
        r := r + contents[j].outputText.value;
      } else {
        assert r + "" == r;
      }
      j := j + 1;
    }
    assert contents[..j] == contents;
  }

  /**
   * extractOutputText: appends the text of every output-text piece, item by item, message by
   * message, part by part; nothing appended is a 502.
   */
  method ExtractOutputText(response: Response) returns (r: Result<string, StatusError>)
    ensures ItemsText(response.output) == "" ==> r == Failure(TEXT_MISSING)
    ensures ItemsText(response.output) != "" ==> r == Success(ItemsText(response.output))
  {
    var items := response.output;
    var out := "";
    var i := 0;
    while i < |items|
      invariant 0 <= i <= |items|
      invariant out == ItemsText(items[..i])
    {
      ItemsStep(items, i);
      if items[i].message.Some? {
        out := AppendContentsText(out, items[i].message.value);
      } else {
        assert out + "" == out;
      }
      i := i + 1;
    }
    assert items[..i] == items;
    if |out| == 0 {
      return Failure(TEXT_MISSING);
    }
    return Success(out);
  }

  // ---------------------------------------------------------------- usage

  /** toInt: Number.intValue of an integral number (32-bit truncation); null reads as 0. */
  function ToInt(number: Option<int>): (r: Int32)
    ensures number.None? ==> r == 0
    ensures number.Some? && INT_MIN <= number.value <= INT_MAX ==> r == number.value
    ensures number.Some? ==> (r - number.value) % 0x1_0000_0000 == 0
  {
    if number.None? then 0 else Wrap32(number.value)
  }

  function OrZero(n: Option<int>): int
  {
    if n.Some? then n.value else 0
  }

  /**
   * The record extractUsage yields for a usage block: absent counts read as 0, the total only
   * when present, the cached input count only when the details are known, and the cached
   * output count never.
   */
  ghost predicate UsageExtracted(u: CallUsage, usage: Option<UsageNode>)
    reads u
  {
    match usage
    case None =>
      u.inputTokens == 0 && u.outputTokens == 0 && u.cachedInputTokens == 0 && u.cachedOutputTokens == 0
      && u.totalTokens == None
    case Some(node) =>
      && u.inputTokens == ToInt(Some(OrZero(node.inputTokens)))
      && u.outputTokens == ToInt(Some(OrZero(node.outputTokens)))
      && u.totalTokens == (if node.totalTokens.Some? then Some(ToInt(node.totalTokens)) else None)
      && u.cachedInputTokens ==
           (if node.inputTokensDetails.Some? then ToInt(Some(OrZero(node.inputTokensDetails.value.cachedTokens))) else 0)
      && u.cachedOutputTokens == 0
  }

  /** extractUsage: a fresh record filled through its setters from the response's usage. */
  method ExtractUsage(response: Response) returns (u: CallUsage)
    ensures fresh(u)
    ensures UsageExtracted(u, response.usage)
  {
    u := new CallUsage();
    if response.usage.None? {
      return u;
    }
    var node := response.usage.value;
    u.SetInputTokens(ToInt(Some(OrZero(node.inputTokens))));
    u.SetOutputTokens(ToInt(Some(OrZero(node.outputTokens))));
    if node.totalTokens.Some? {
      u.SetTotalTokens(Some(ToInt(node.totalTokens)));
    }
    if node.inputTokensDetails.Some? {
      var details := node.inputTokensDetails.value;
      u.SetCachedInputTokens(ToInt(Some(OrZero(details.cachedTokens))));
    }
  }

  /** When the response reports a total that fits an int, the record's effective total is exactly it. */
  lemma ExtractedTotal(u: CallUsage, usage: Option<UsageNode>)
    requires UsageExtracted(u, usage)
    requires usage.Some? && usage.value.totalTokens.Some?
    requires INT_MIN <= usage.value.totalTokens.value <= INT_MAX
    ensures u.EffectiveTotal() == usage.value.totalTokens.value
  {
  }

  // ---------------------------------------------------------------- log truncation

  /**
   * truncateText: null is "", a string of at most 2000 UTF-16 units (String.length) is kept,
   * a longer one is cut to its first 2000 units followed by the "...(truncated)" marker.
   */
  function TruncateText(value: Option<string>): (r: string)
    ensures value.None? ==> r == ""
    ensures value.Some? && Text.Utf16Length(value.value) <= LOG_TEXT_LIMIT ==> r == value.value
    ensures Text.Utf16Length(r) <= LOG_TEXT_LIMIT + |TRUNCATED_MARK|
  {
    if value.None? then ""
    else if Text.Utf16Length(value.value) <= LOG_TEXT_LIMIT then value.value
    else
      var kept := Text.Utf16Prefix(value.value, LOG_TEXT_LIMIT);
      Text.Utf16LengthConcat(kept, TRUNCATED_MARK);
      MarkIsAscii();
      kept + TRUNCATED_MARK
  }

  /**
   * A text over 2000 UTF-16 units keeps its longest prefix of whole characters within 2000
   * units (2000, or 1999 when unit 2000 would split a surrogate pair), then the marker.
   */
  lemma TruncatedText(v: string)
    requires Text.Utf16Length(v) > LOG_TEXT_LIMIT
    ensures var r := TruncateText(Some(v));
      |r| >= |TRUNCATED_MARK| && Text.EndsWith(r, TRUNCATED_MARK)
      && var kept := r[..|r| - |TRUNCATED_MARK|];
      kept == v[..|kept|] && |kept| < |v|
      && LOG_TEXT_LIMIT - 1 <= Text.Utf16Length(kept) <= LOG_TEXT_LIMIT
      && Text.Utf16Length(v[..|kept| + 1]) > LOG_TEXT_LIMIT
  {
    var kept := Text.Utf16Prefix(v, LOG_TEXT_LIMIT);
    var r := kept + TRUNCATED_MARK;
    assert TruncateText(Some(v)) == r;
    assert r[..|r| - |TRUNCATED_MARK|] == kept && r[|r| - |TRUNCATED_MARK|..] == TRUNCATED_MARK;
    assert |kept| == |v| ==> kept == v;
  }

  lemma MarkIsAscii()
    ensures Text.Utf16Length(TRUNCATED_MARK) == |TRUNCATED_MARK|
  {
    Text.Utf16LengthBmp(TRUNCATED_MARK);
  }

  /**
   * For text without supplementary characters, UTF-16 units are characters: more than 2000
   * of them keep exactly the first 2000, followed by the mark.
   */
  lemma TruncateBmpText(value: string)
    requires forall i :: 0 <= i < |value| ==> value[i] as int < 0x1_0000
    requires |value| > LOG_TEXT_LIMIT
    ensures TruncateText(Some(value)) == value[..LOG_TEXT_LIMIT] + TRUNCATED_MARK
  {
    Text.Utf16LengthBmp(value);
    TruncatedText(value);
    var r := TruncateText(Some(value));
    var kept := r[..|r| - |TRUNCATED_MARK|];
    var next := value[..|kept| + 1];
    assert forall i :: 0 <= i < |kept| ==> kept[i] == value[i];
    assert forall i :: 0 <= i < |next| ==> next[i] == value[i];
    Text.Utf16LengthBmp(kept);
    Text.Utf16LengthBmp(next);
    assert |kept| == LOG_TEXT_LIMIT;
    assert r == kept + r[|r| - |TRUNCATED_MARK|..];
  }



  // ---------------------------------------------------------------- the two calls

  /** The request the OCR call sends for a PNG, with the cache key the policy chose. */
  function OcrRequest(settings: Settings, prompts: Prompts, pngBytes: seq<Byte>, cacheKey: Option<string>): Request
  {
    Request(settings.ocrModel, prompts.ocrSystem, OCR_USER_TEXT, Some(pngBytes), 0.0, 1.0, cacheKey)
  }

  /** The request the parse call sends for the OCR text, with the cache key the policy chose. */
  function ParseRequest(settings: Settings, prompts: Prompts, rosterText: string, cacheKey: Option<string>): Request
  {
    Request(settings.parseModel, prompts.parseSystem, rosterText, None, 0.0, 1.0, cacheKey)
  }

  /** The cache key a request carries: none with caching on, the fresh key with it off. */
  function SentCacheKey(enableCache: bool, freshKey: string): Option<string>
  {
    if enableCache then None else Some(freshKey)
  }

  /**
   * What a call returns once its request has been sent: the mapped failure, the missing-text
   * 502, or the text (the fresh usage record is stated beside it).
   */
  ghost predicate CallOutcome(r: Result<OpenAiResult, StatusError>, request: Request,
                              send: Request -> Result<Response, SdkError>, knownStatus: int -> bool)
    reads if r.Success? then {r.value.usage} else {}
  {
    match Execute(send, request, knownStatus)
    case Failure(e) => r == Failure(e)
    case Success(response) =>
      if ItemsText(response.output) == "" then r == Failure(TEXT_MISSING)
      else r.Success? && r.value.outputText == ItemsText(response.output)
           && UsageExtracted(r.value.usage, response.usage)
  }

  /** The shared tail of both calls: execute, extract the text, extract the usage. */
  method Complete(request: Request, send: Request -> Result<Response, SdkError>, knownStatus: int -> bool)
    returns (r: Result<OpenAiResult, StatusError>)
    ensures r.Success? ==> fresh(r.value.usage)
    ensures CallOutcome(r, request, send, knownStatus)
  {
    var response :- Execute(send, request, knownStatus);
    var text :- ExtractOutputText(response);
    var usage := ExtractUsage(response);
    return Success(OpenAiResult(text, usage));
  }

  /**
   * ocrImage: the key guard comes first, so a missing key fails without any request being
   * sent; otherwise the PNG goes out with the OCR prompt and the policy's cache key.
   */
  method OcrImage(settings: Settings, prompts: Prompts, pngBytes: seq<Byte>, freshKey: string,
                  send: Request -> Result<Response, SdkError>, knownStatus: int -> bool)
    returns (r: Result<OpenAiResult, StatusError>)
    ensures EnsureApiKey(settings.apiKey).Some? ==> r == Failure(KEY_MISSING)
    ensures r.Success? ==> fresh(r.value.usage)
    ensures EnsureApiKey(settings.apiKey).None? ==>
              CallOutcome(r, OcrRequest(settings, prompts, pngBytes, SentCacheKey(settings.enableCache, freshKey)),
                          send, knownStatus)
  {
    var missing := EnsureApiKey(settings.apiKey);
    if missing.Some? {
      return Failure(missing.value);
    }
    var builder := new RequestBuilder(settings.ocrModel, prompts.ocrSystem, OCR_USER_TEXT, Some(pngBytes));
    var cacheKey := ApplyCacheControl(builder, settings.enableCache, freshKey);
    var request := builder.Build();
    r := Complete(request, send, knownStatus);
  }

  /** parseRosterText: the same guard, then the roster text goes out with the parse prompt. */
  method ParseRosterText(settings: Settings, prompts: Prompts, rosterText: string, freshKey: string,
                         send: Request -> Result<Response, SdkError>, knownStatus: int -> bool)
    returns (r: Result<OpenAiResult, StatusError>)
    ensures EnsureApiKey(settings.apiKey).Some? ==> r == Failure(KEY_MISSING)
    ensures r.Success? ==> fresh(r.value.usage)
    ensures EnsureApiKey(settings.apiKey).None? ==>
              CallOutcome(r, ParseRequest(settings, prompts, rosterText, SentCacheKey(settings.enableCache, freshKey)),
                          send, knownStatus)
  {
    var missing := EnsureApiKey(settings.apiKey);
    if missing.Some? {
      return Failure(missing.value);
    }
    var builder := new RequestBuilder(settings.parseModel, prompts.parseSystem, rosterText, None);
    var cacheKey := ApplyCacheControl(builder, settings.enableCache, freshKey);
    var request := builder.Build();
    r := Complete(request, send, knownStatus);
  }
}
