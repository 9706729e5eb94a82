/** The `/api/translate` route (pages/api/translate.ts): it validates the request,
    builds the translation prompt, asks the OpenAI SDK for a chat completion, falls
    back to a direct `fetch` of `/chat/completions` when the SDK throws, extracts
    and trims the reply, and maps every failure to a display message. */
module TranslateApi {
  import opened Wrappers
  import opened JsString
  import opened Json
  import opened Upstream
  import opened Assoc

  /** `req.body` of a translate request; an absent field is the empty string. */
  datatype TranslateRequest = TranslateRequest(
    text: string, sourceLang: string, targetLang: string,
    apiKey: string, baseURL: string, model: string)

  const MissingParameters := ErrorResponse(400, "Missing required parameters")
  const NoTranslation := ErrorResponse(500, "Failed to get translation")
  const DefaultModel := "gpt-3.5-turbo"
  const DefaultChatUrl := "https://api.openai.com/v1/chat/completions"

  // ---------------------------------------------------------------------------
  // The chat request

  const PromptHead := "Please translate the following text from "
  const PromptTail := ". Only return the translated text without any additional explanation or formatting:\n\n"

  /** The single user message sent upstream: the instruction naming both
      languages, a blank line, then the text verbatim and nothing else. */
  function Prompt(sourceLang: string, targetLang: string, text: string): (p: string)
    ensures StartsWith(p, PromptHead + sourceLang + " to " + targetLang + PromptTail)
    ensures EndsWith(p, text)
    ensures |p| == |PromptHead + sourceLang + " to " + targetLang + PromptTail| + |text|
  {
    var head := PromptHead + sourceLang + " to " + targetLang + PromptTail;
    var p := head + text;
    assert p[..|head|] == head;
    assert p[|p| - |text|..] == text;
    p
  }

  /** For fixed languages the prompt determines the text to translate. */
  lemma PromptDeterminesText(sourceLang: string, targetLang: string, t1: string, t2: string)
    requires Prompt(sourceLang, targetLang, t1) == Prompt(sourceLang, targetLang, t2)
    ensures t1 == t2
  {
    var head := PromptHead + sourceLang + " to " + targetLang + PromptTail;
    var p := Prompt(sourceLang, targetLang, t1);
    assert |t1| == |t2|;
    assert t1 == p[|head|..] == t2;
  }

  datatype ChatMessage = ChatMessage(role: string, content: string)

  /** A decimal literal: mantissa times ten to the exponent (0.3 is Decimal(3, -1)). */
  datatype Decimal = Decimal(mantissa: int, exponent: int)

  const Temperature := Decimal(3, -1)
  const MaxTokens := 2000

  /** The value a decimal literal denotes, as a fraction numerator / denominator. */
  function DecimalValue(d: Decimal): (r: (int, nat))
    ensures r.1 >= 1
  {
    if d.exponent >= 0 then (d.mantissa * Pow10(d.exponent), 1) else (d.mantissa, Pow10(-d.exponent))
  }

  function Pow10(n: nat): (r: nat)
    ensures r >= 1
  {
    if n == 0 then 1 else 10 * Pow10(n - 1)
  }

  /** The temperature sent is three tenths. */
  lemma TemperatureIsThreeTenths()
    ensures DecimalValue(Temperature) == (3, 10)
  {
    assert Pow10(1) == 10 * Pow10(0);
  }

  /** The chat-completion parameters; the SDK call and the fallback send the same. */
  datatype ChatBody = ChatBody(model: string, messages: seq<ChatMessage>, temperature: Decimal, maxTokens: nat)

  function ChatRequest(req: TranslateRequest): (b: ChatBody)
    ensures b.model != "" && (req.model != "" ==> b.model == req.model)
    ensures req.model == "" ==> b.model == DefaultModel
    ensures |b.messages| == 1 && b.messages[0].role == "user"
    ensures b.messages[0].content == Prompt(req.sourceLang, req.targetLang, req.text)
    ensures EndsWith(b.messages[0].content, req.text)
    ensures b.temperature == Temperature && b.maxTokens == MaxTokens
  {
    ChatBody(OrElse(req.model, DefaultModel),
             [ChatMessage("user", Prompt(req.sourceLang, req.targetLang, req.text))],
             Temperature, MaxTokens)
  }

  /** The upstream calls the route makes. */
  datatype UpstreamCall =
    | SdkCall(baseURL: string, apiKey: string, body: ChatBody)
    | FetchCall(url: string, bearer: string, body: ChatBody)

  /** The direct-fetch URL. */
  function FallbackChatUrl(cleanBaseURL: string): (u: string)
    ensures EndsWith(u, "/chat/completions")
  {
    if cleanBaseURL != "" then
      var u := cleanBaseURL + "/chat/completions";
      assert u[|u| - |"/chat/completions"|..] == "/chat/completions";
      u
    else
      assert DefaultChatUrl == DefaultBaseURL + "/chat/completions";
      DefaultChatUrl
  }

  /** The fallback posts to the same base URL the SDK was configured with. */
  lemma FallbackTargetsSdkBase(cleanBaseURL: string)
    ensures FallbackChatUrl(cleanBaseURL) == BaseOrDefault(cleanBaseURL) + "/chat/completions"
  {
    assert DefaultChatUrl == DefaultBaseURL + "/chat/completions";
  }

  // ---------------------------------------------------------------------------
  // The completion and the translated text

  /** What `openai.chat.completions.create` did: returned a parsed completion or threw. */
  datatype SdkOutcome = SdkReturned(completion: Json) | SdkThrew(error: JsError)

  /** The completion object, or the error thrown while obtaining it. The SDK's own
      error is dropped once the fallback runs. */
  function Completion(sdk: SdkOutcome, fetch: FetchOutcome, parse: string -> Parsed): (r: Result<Json, JsError>)
    ensures sdk.SdkReturned? ==> r == Ok(sdk.completion)
    ensures sdk.SdkThrew? && fetch.Responded? && !IsOk(fetch.status) ==>
      r == Err(PlainError(HttpErrorMessage(fetch.status, fetch.text)))
    ensures sdk.SdkThrew? && r.Ok? ==>
      fetch.Responded? && IsOk(fetch.status) && parse(fetch.text) == Parsed(r.value)
  {
    match sdk
    case SdkReturned(c) => Ok(c)
    case SdkThrew(_) =>
      match fetch
      case FetchFailed(e) => Err(e)
      case Responded(status, text) =>
        if !IsOk(status) then Err(PlainError(HttpErrorMessage(status, text)))
        else match parse(text)
          case SyntaxError(m) => Err(PlainError(m))
          case Parsed(v) => Ok(v)
  }

  const ChoicesOfNull := "Cannot read properties of null (reading 'choices')"
  const IndexOfUndefined := "Cannot read properties of undefined (reading '0')"
  const IndexOfNull := "Cannot read properties of null (reading '0')"
  const TrimNotAFunction := "completion.choices[0]?.message?.content?.trim is not a function"

  /** `v[0]` on a value that is neither null nor undefined. */
  function ElementZero(v: Json): (r: Option<Json>)
    requires !v.JNull?
    ensures v.JArr? ==> r == (if v.items == [] then None else Some(v.items[0]))
  {
    match v
    case JArr(items) => if items == [] then None else Some(items[0])
    case JObj(_) => Get(v, "0")
    case JStr(s) => if s == "" then None else Some(JStr(s[..1]))
    case _ => None
  }

  /** `v?.key` on a possibly undefined value (null also yields undefined). */
  function GetOpt(v: Option<Json>, key: string): (r: Option<Json>)
    ensures r.Some? ==> v.Some? && Get(v.value, key) == r
  {
    match v
    case None => None
    case Some(x) => Get(x, key)
  }

  /** `completion.choices[0]?.message?.content?.trim()`: the trimmed reply, with
      undefined taken as "" (both are falsy to the check that follows), or the
      TypeError the expression throws. For a `choices` array the result is the
      first choice's content, trimmed; an empty array, a missing message and a
      missing or null content all give "". */
  function ExtractContent(completion: Json): (r: Result<string, JsError>)
    ensures r.Ok? ==> IsTrimmed(r.value)
    ensures r.Err? ==> r.error.status.None? && r.error.code.None?
    ensures completion.JNull? ==> r == Err(PlainError(ChoicesOfNull))
    ensures completion.JObj? && Get(completion, "choices").None? ==> r == Err(PlainError(IndexOfUndefined))
    ensures Get(completion, "choices") == Some(JNull) ==> r == Err(PlainError(IndexOfNull))
    ensures Get(completion, "choices") == Some(JArr([])) ==> r == Ok("")
    ensures IsArray(Get(completion, "choices")) && Get(completion, "choices").value.items != [] ==>
      var content := GetOpt(Get(Get(completion, "choices").value.items[0], "message"), "content");
      && (content.Some? && content.value.JStr? ==> r == Ok(Trim(content.value.s)))
      && (content.None? || content.value.JNull? ==> r == Ok(""))
      && (content.Some? && !content.value.JStr? && !content.value.JNull? ==>
            r == Err(PlainError(TrimNotAFunction)))
  {
    if completion.JNull? then Err(PlainError(ChoicesOfNull))
    else match Get(completion, "choices")
      case None => Err(PlainError(IndexOfUndefined))
      case Some(choices) =>
        if choices.JNull? then Err(PlainError(IndexOfNull))
        else match GetOpt(GetOpt(ElementZero(choices), "message"), "content")
          case None => Ok("")
          case Some(content) =>
            if content.JNull? then Ok("")
            else if content.JStr? then Ok(Trim(content.s))
            else Err(PlainError(TrimNotAFunction))
  }

  /** The shape an OpenAI-compatible endpoint returns. */
  function CompletionOf(content: string): Json {
    JObj([("choices", JArr([JObj([("message", JObj([("role", JStr("assistant")), ("content", JStr(content))]))])]))])
  }

  /** The reply of a well-formed completion is its content, trimmed. */
  lemma ExtractContentOfCompletion(content: string)
    ensures ExtractContent(CompletionOf(content)) == Ok(Trim(content))
  {
    var message := JObj([("role", JStr("assistant")), ("content", JStr(content))]);
    var choice := JObj([("message", message)]);
    assert Get(CompletionOf(content), "choices") == Some(JArr([choice]));
    assert Get(choice, "message") == Some(message);
    var ms := message.members;
    assert ms[0].0 == "role" && "role" != "content";
    assert ms[1..] == [("content", JStr(content))];
    assert Lookup(ms[1..], "content") == Some(JStr(content));
    assert Lookup(ms, "content") == Lookup(ms[1..], "content");
    assert Get(message, "content") == Some(JStr(content));
  }

  // ---------------------------------------------------------------------------
  // Error classification

  const InvalidKeyMessage := "Invalid API key. Please check your API key in settings."
  const RateLimitMessage := "Rate limit exceeded. Please try again later."
  const NotFoundMessage := "API endpoint not found. Please check your Base URL configuration."
  const TranslationFailed := "Translation failed"

  const ModelTail := "\" not available. Please check your model selection or try a different model."

  /** The message names the request's model, or the default model when none was given. */
  function ModelUnavailable(model: string): (m: string)
    ensures StartsWith(m, "Model \"")
    ensures StartsWith(m, "Model \"" + OrElse(model, DefaultModel)) && EndsWith(m, ModelTail)
    ensures |m| == |"Model \""| + |OrElse(model, DefaultModel)| + |ModelTail|
  {
    var head := "Model \"" + OrElse(model, DefaultModel);
    var m := head + ModelTail;
    assert m[..|head|] == head && m[..7] == head[..7];
    assert m[|m| - |ModelTail|..] == ModelTail;
    m
  }

  /** The model message determines the model it names. */
  lemma ModelUnavailableNamesModel(a: string, b: string)
    requires ModelUnavailable(a) == ModelUnavailable(b)
    ensures OrElse(a, DefaultModel) == OrElse(b, DefaultModel)
  {
    var m := ModelUnavailable(a);
    assert OrElse(a, DefaultModel) == m[7..7 + |OrElse(a, DefaultModel)|];
    assert OrElse(b, DefaultModel) == m[7..7 + |OrElse(b, DefaultModel)|];
  }

  /** The message with HTML documents stripped and surrounding whitespace trimmed. */
  function CleanMessage(message: string): (r: string)
    ensures IsTrimmed(r) && |r| <= |message|
  {
    Trim(StripHtmlDocuments(message))
  }

  const FixedMessages := {InvalidKeyMessage, BlockedMessage, AccessDeniedMessage, RateLimitMessage,
                          NotFoundMessage, CannotConnectMessage, TranslationFailed}

  /** One of the statuses the catch block tests. */
  predicate TestedStatus(status: Option<int>) {
    status == Some(401) || status == Some(403) || status == Some(429) || status == Some(404)
  }

  /** The first-match chain of the catch block. */
  function ClassifyTranslateError(e: JsError, model: string): (r: string)
    ensures r in FixedMessages || r == ModelUnavailable(model)
         || (r == CleanMessage(e.message) && r != "" && JsLength(r) < 200)
    ensures e.status == Some(401) ==> r == InvalidKeyMessage
    ensures e.status == Some(403) ==>
      r == (if Contains(e.message, "cloudflare") || Contains(e.message, "blocked") then BlockedMessage else AccessDeniedMessage)
    ensures e.status == Some(429) ==> r == RateLimitMessage
    ensures e.status == Some(404) ==> r == NotFoundMessage
    ensures !TestedStatus(e.status) && IsConnectionCode(e.code) ==> r == CannotConnectMessage
    ensures !TestedStatus(e.status) && !IsConnectionCode(e.code) && Contains(e.message, "model") ==>
      r == ModelUnavailable(model)
    ensures !TestedStatus(e.status) && !IsConnectionCode(e.code) && !Contains(e.message, "model") ==>
      var c := CleanMessage(e.message);
      r == if c != "" && JsLength(c) < 200 then c else TranslationFailed
  {
    var m := e.message;
    if e.status == Some(401) then InvalidKeyMessage
    else if e.status == Some(403) then
      if Contains(m, "cloudflare") || Contains(m, "blocked") then BlockedMessage else AccessDeniedMessage
    else if e.status == Some(429) then RateLimitMessage
    else if e.status == Some(404) then NotFoundMessage
    else if IsConnectionCode(e.code) then CannotConnectMessage
    else if Contains(m, "model") then ModelUnavailable(model)
    else if m != "" && CleanMessage(m) != "" && JsLength(CleanMessage(m)) < 200 then CleanMessage(m)
    else TranslationFailed
  }

  /** The cleaned text of a non-OK fallback error keeps its "HTTP " prefix: the
      prefix holds no markup and starts with a non-blank character. */
  lemma CleanHttpErrorKeepsPrefix(status: nat, text: string)
    ensures StartsWith(CleanMessage(HttpErrorMessage(status, text)), "HTTP ")
  {
    StrippedHttpError(status, text);
    TrimKeepsHttpHead(StripHtmlDocuments(HttpErrorMessage(status, text)));
  }

  lemma TrimKeepsHttpHead(s: string)
    requires |s| > 5 && s[..5] == "HTTP " && IsDigit(s[5])
    ensures StartsWith(Trim(s), "HTTP ")
  {
    TrimKeepsNonWs(s, 0);
    TrimKeepsNonWs(s, 5);
    assert Trim(s)[..5] == s[..5];
  }

  lemma StrippedHttpError(status: nat, text: string)
    ensures var stripped := StripHtmlDocuments(HttpErrorMessage(status, text));
      |stripped| > 5 && stripped[..5] == "HTTP " && IsDigit(stripped[5])
  {
    var digits := NatToString(status);
    var prefix := "HTTP " + digits + ": ";
    assert HttpErrorMessage(status, text) == prefix + text;
    HttpPrefixHasNoMarkup(digits);
    StripHtmlKeepsPrefix(prefix, text);
    assert (prefix + StripHtmlDocuments(text))[5] == digits[0];
  }

  lemma HttpPrefixHasNoMarkup(digits: string)
    requires AllDigits(digits)
    ensures var prefix := "HTTP " + digits + ": "; forall i :: 0 <= i < |prefix| ==> prefix[i] != '<'
  {
    var prefix := "HTTP " + digits + ": ";
    assert forall i :: 5 <= i < 5 + |digits| ==> prefix[i] == digits[i - 5];
  }

  /** None of the messages the classifier can choose by itself looks like an
      HTTP error. */
  lemma FixedMessagesAreNotHttpErrors(model: string)
    ensures !StartsWith(InvalidKeyMessage, "HTTP ") && !StartsWith(RateLimitMessage, "HTTP ")
    ensures !StartsWith(NotFoundMessage, "HTTP ") && !StartsWith(TranslationFailed, "HTTP ")
    ensures !StartsWith(ModelUnavailable(model), "HTTP ")
  {
    StatusMessageHeads();
    assert TranslationFailed[0] == 'T';
    assert ModelUnavailable(model)[0] == 'M';
  }

  lemma StatusMessageHeads()
    ensures InvalidKeyMessage[0] == 'I' && RateLimitMessage[0] == 'R' && NotFoundMessage[0] == 'A'
  {
    assert InvalidKeyMessage[..30] == "Invalid API key. Please check ";
    assert RateLimitMessage[..25] == "Rate limit exceeded. Plea";
    assert NotFoundMessage[..40] == "API endpoint not found. Please check you";
    assert InvalidKeyMessage[..30][0] == 'I' && RateLimitMessage[..25][0] == 'R' && NotFoundMessage[..40][0] == 'A';
  }

  /** A fallback response with a non-OK status is never reported by its status:
      the user sees a model message, the generic message, or the cleaned
      "HTTP n: ..." text itself. In particular a 401 is not reported as a bad key. */
  lemma ClassifyHttpErrorIgnoresStatus(status: nat, text: string, model: string)
    ensures var r := ClassifyTranslateError(PlainError(HttpErrorMessage(status, text)), model);
      (r == ModelUnavailable(model) || r == TranslationFailed || StartsWith(r, "HTTP "))
      && r != InvalidKeyMessage && r != RateLimitMessage && r != NotFoundMessage
  {
    var m := HttpErrorMessage(status, text);
    var r := ClassifyTranslateError(PlainError(m), model);
    ClassifyWithoutStatus(PlainError(m), model);
    CleanHttpErrorKeepsPrefix(status, text);
    StatusMessageHeads();
    assert TranslationFailed[0] == 'T';
    assert ModelUnavailable(model)[0] == 'M';
    assert CleanMessage(m)[..5][0] == 'H';
    assert r[0] != 'I' && r[0] != 'R' && r[0] != 'A';
  }

  /** Without a status or a connection code only the message decides: a model
      mention, else the cleaned message when it is non-empty and shorter than 200
      UTF-16 units, else the generic text. */
  lemma ClassifyWithoutStatus(e: JsError, model: string)
    requires e.status.None? && !IsConnectionCode(e.code)
    ensures var r := ClassifyTranslateError(e, model);
      && (Contains(e.message, "model") ==> r == ModelUnavailable(model))
      && (!Contains(e.message, "model") ==>
            var c := CleanMessage(e.message);
            r == if c != "" && JsLength(c) < 200 then c else TranslationFailed)
  {
  }

  /** A 404 from the fallback whose body mentions a model (as "model not found"
      bodies do) is reported as an unavailable model. */
  lemma ClassifyModelMention(status: nat, text: string, model: string)
    requires Contains(text, "model")
    ensures ClassifyTranslateError(PlainError(HttpErrorMessage(status, text)), model) == ModelUnavailable(model)
  {
    assert HttpErrorMessage(status, text) == ("HTTP " + NatToString(status) + ": ") + text;
    ContainsExtend(text, "HTTP " + NatToString(status) + ": ", "model");
  }

  // ---------------------------------------------------------------------------
  // The route

  /** The response for a valid request, given how the completion was obtained. */
  function TranslateResponse(model: string, completion: Result<Json, JsError>): (resp: ApiResponse)
    ensures resp.status == 200 || resp.status == 500
    ensures resp.status == 200 <==>
      completion.Ok? && ExtractContent(completion.value).Ok? && ExtractContent(completion.value).value != ""
    ensures resp.status == 200 ==> resp.body == TranslationBody(ExtractContent(completion.value).value)
    ensures resp.status == 500 ==> resp.body.ErrorBody? && resp.body.error != ""
    ensures completion.Err? ==> resp == ErrorResponse(500, ClassifyTranslateError(completion.error, model))
    ensures completion.Ok? && ExtractContent(completion.value).Err? ==>
      resp == ErrorResponse(500, ClassifyTranslateError(ExtractContent(completion.value).error, model))
    ensures completion.Ok? && ExtractContent(completion.value) == Ok("") ==> resp == NoTranslation
  {
    match completion
    case Err(e) => ErrorResponse(500, ClassifyTranslateError(e, model))
    case Ok(c) =>
      match ExtractContent(c)
      case Err(e) => ErrorResponse(500, ClassifyTranslateError(e, model))
      case Ok(t) => if t == "" then NoTranslation else ApiResponse(200, TranslationBody(t))
  }

  /** Every error the catch block sees after a failed SDK call carries no status,
      provided a rejected fetch carries none (fetch rejections are TypeErrors). */
  lemma FallbackErrorsHaveNoStatus(sdk: SdkOutcome, fetch: FetchOutcome, parse: string -> Parsed)
    requires sdk.SdkThrew?
    requires fetch.FetchFailed? ==> fetch.error.status.None?
    ensures Completion(sdk, fetch, parse).Err? ==> Completion(sdk, fetch, parse).error.status.None?
    ensures Completion(sdk, fetch, parse).Ok? ==> ExtractContent(Completion(sdk, fetch, parse).value).Err? ==>
      ExtractContent(Completion(sdk, fetch, parse).value).error.status.None?
  {
  }

  /** Once the SDK has thrown, its error has no bearing on the response. */
  lemma SdkErrorDiscarded(e1: JsError, e2: JsError, fetch: FetchOutcome, parse: string -> Parsed)
    ensures Completion(SdkThrew(e1), fetch, parse) == Completion(SdkThrew(e2), fetch, parse)
  {
  }

  /** `handler` of pages/api/translate.ts. The SDK call, the fallback fetch and
      `response.json()` are parameters; `calls` are the upstream calls issued. */
  method HandleTranslate(httpMethod: string, req: TranslateRequest,
                         sdk: SdkOutcome, fetch: FetchOutcome, parse: string -> Parsed)
    returns (calls: seq<UpstreamCall>, resp: ApiResponse)
    ensures httpMethod != "POST" ==> calls == [] && resp == MethodNotAllowed
    ensures httpMethod == "POST" && (req.text == "" || req.sourceLang == "" || req.targetLang == "") ==>
      calls == [] && resp == MissingParameters
    ensures httpMethod == "POST" && req.text != "" && req.sourceLang != "" && req.targetLang != "" && req.apiKey == "" ==>
      calls == [] && resp == ApiKeyRequired
    ensures httpMethod == "POST" && req.text != "" && req.sourceLang != "" && req.targetLang != "" && req.apiKey != "" ==>
      && var clean := CleanBaseURL(req.baseURL);
      && var sdkCall := SdkCall(BaseOrDefault(clean), req.apiKey, ChatRequest(req));
      && calls == (if sdk.SdkReturned? then [sdkCall]
                   else [sdkCall, FetchCall(FallbackChatUrl(clean), req.apiKey, ChatRequest(req))])
      && resp == TranslateResponse(req.model, Completion(sdk, fetch, parse))
  {
    if httpMethod != "POST" {
      return [], MethodNotAllowed;
    }
    if req.text == "" || req.sourceLang == "" || req.targetLang == "" {
      return [], MissingParameters;
    }
    if req.apiKey == "" {
      return [], ApiKeyRequired;
    }
    var cleanBaseURL := CleanBaseURL(req.baseURL);
    var body := ChatRequest(req);
    var sdkCall := SdkCall(BaseOrDefault(cleanBaseURL), req.apiKey, body);
    var fetchCall := FetchCall(FallbackChatUrl(cleanBaseURL), req.apiKey, body);
    var completion := Completion(sdk, fetch, parse);
    calls := if sdk.SdkReturned? then [sdkCall] else [sdkCall, fetchCall];
    resp := TranslateResponse(req.model, completion);
  }
}
