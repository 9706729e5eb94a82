/** The `/api/models` route (pages/api/models.ts): it resolves the upstream
    models endpoint from the user's base URL, fetches it, accepts three response
    shapes, sorts the models by id and maps every failure to a display message. */
module ModelsApi {
  import opened Wrappers
  import opened JsString
  import opened Json
  import opened Upstream

  // ---------------------------------------------------------------------------
  // Endpoint resolution

  /** The `/v1/models` resolution of a cleaned (or default) base URL. Its first two
      branches coincide: "/v1/models" contains "/models". */
  function ResolveModelsUrl(base: string): (r: string)
    ensures StartsWith(r, base)
    ensures Contains(r, "/models")
    ensures Contains(base, "/models") ==> r == base
    ensures !Contains(base, "/models") && EndsWith(base, "/v1") ==> r == base + "/models"
    ensures !Contains(base, "/models") && !EndsWith(base, "/v1") ==> r == base + "/v1/models"
  {
    if Contains(base, "/v1/models") then
      ContainsAt("/v1/models", "/models", 3);
      ContainsTransitive(base, "/v1/models", "/models");
      base
    else if Contains(base, "/models") then base
    else if EndsWith(base, "/v1") then
      ContainsSuffix(base, "/models");
      base + "/models"
    else
      ContainsSuffix(base + "/v1", "/models");
      assert base + "/v1" + "/models" == base + "/v1/models";
      base + "/v1/models"
  }

  lemma ContainsTransitive(s: string, m: string, p: string)
    requires Contains(s, m) && Contains(m, p)
    ensures Contains(s, p)
  {
    var i := ContainsWitness(s, m);
    var j := ContainsWitness(m, p);
    forall k | 0 <= k < |p| ensures s[i + j + k] == p[k] {
      assert s[i + j + k] == s[i..i + |m|][j + k] == m[j + k] == m[j..j + |p|][k];
    }
    assert s[i + j..i + j + |p|] == p;
    ContainsAt(s, p, i + j);
  }

  /** Resolving an already resolved URL returns it unchanged. */
  lemma ResolveModelsUrlIdempotent(base: string)
    ensures ResolveModelsUrl(ResolveModelsUrl(base)) == ResolveModelsUrl(base)
  {
  }

  /** The URL the route fetches for a (possibly absent or blank) baseURL. */
  function ModelsEndpoint(baseURL: string): (r: string)
    ensures StartsWith(r, "http") && Contains(r, "/models")
  {
    var base := BaseOrDefault(CleanBaseURL(baseURL));
    var r := ResolveModelsUrl(base);
    assert StartsWith(base, "http");
    assert r[..4] == base[..4];
    r
  }

  /** The official base URL resolves to its models endpoint. */
  lemma ResolveDefault()
    ensures ResolveModelsUrl(DefaultBaseURL) == "https://api.openai.com/v1/models"
  {
    ResolveDefaultAppends();
    DefaultModelsLiteral(ResolveModelsUrl(DefaultBaseURL));
  }

  lemma ResolveDefaultAppends()
    ensures ResolveModelsUrl(DefaultBaseURL) == DefaultBaseURL + "/models"
  {
    DefaultHasNoModelsPath();
    assert EndsWith(DefaultBaseURL, "/v1") by {
      assert DefaultBaseURL[|DefaultBaseURL| - 3..] == "/v1";
    }
  }

  lemma DefaultModelsLiteral(url: string)
    requires url == DefaultBaseURL + "/models"
    ensures url == "https://api.openai.com/v1/models"
  {
  }

  lemma DefaultHasNoModelsPath()
    ensures !Contains(DefaultBaseURL, "/models")
  {
    assert "/models"[3] == 'd' && 'd' !in DefaultBaseURL;
    ContainsHasChar(DefaultBaseURL, "/models", 3);
  }

  /** A blank or absent baseURL resolves to the official endpoint. */
  lemma DefaultModelsEndpoint(baseURL: string)
    requires AllWs(baseURL)
    ensures ModelsEndpoint(baseURL) == "https://api.openai.com/v1/models"
  {
    assert CleanBaseURL(baseURL) == "";
    ResolveDefault();
  }

  /** Every character of a pattern the string contains occurs in the string. */
  lemma ContainsHasChar(s: string, p: string, k: nat)
    requires k < |p|
    ensures Contains(s, p) ==> p[k] in s
  {
    if Contains(s, p) {
      var i := ContainsWitness(s, p);
      assert s[i + k] == p[k];
    }
  }

  /** The request the route sends upstream: a GET with bearer authorisation. */
  datatype ModelsRequest = ModelsRequest(url: string, bearer: string)

  // ---------------------------------------------------------------------------
  // Response shapes

  const NullKeysMessage := "Cannot convert undefined or null to object"
  const ComparatorTypeError := "Cannot read properties of undefined (reading 'localeCompare')"

  function UnexpectedFormatMessage(keys: seq<string>): string {
    "Unexpected response format. Expected models array but got object with keys: " + Join(keys, ", ")
  }

  const InvalidJsonHead := "Invalid JSON response: "

  /** The parse-failure message quotes the body's first 200 UTF-16 units (all
      of a shorter body) and ends in "...". */
  function InvalidJsonMessage(text: string): (m: string)
    ensures StartsWith(m, InvalidJsonHead + JsPrefix(text, 200)) && EndsWith(m, "...")
    ensures |m| == |InvalidJsonHead| + |JsPrefix(text, 200)| + 3
    ensures JsLength(text) <= 200 ==> StartsWith(m, InvalidJsonHead + text)
  {
    var head := InvalidJsonHead + JsPrefix(text, 200);
    var m := head + "...";
    assert m[..|head|] == head;
    assert m[|m| - 3..] == "...";
    m
  }

  /** The models array of a parsed body, from the first shape that fits:
      `data.data`, a bare array, `data.models`. A `null` body fails earlier, in
      the `Object.keys(data)` of the logging line. */
  function SelectModels(data: Json): (r: Result<seq<Json>, JsError>)
    ensures r.Ok? <==> !data.JNull? && (IsArray(Get(data, "data")) || data.JArr? || IsArray(Get(data, "models")))
    ensures IsArray(Get(data, "data")) ==> r == Ok(Get(data, "data").value.items)
    ensures data.JArr? ==> r == Ok(data.items)
    ensures !IsArray(Get(data, "data")) && IsArray(Get(data, "models")) ==> r == Ok(Get(data, "models").value.items)
    ensures data.JNull? ==> r == Err(PlainError(NullKeysMessage))
    ensures r.Err? && !data.JNull? ==> r.error == PlainError(UnexpectedFormatMessage(Keys(data)))
  {
    if data.JNull? then Err(PlainError(NullKeysMessage))
    else if IsArray(Get(data, "data")) then Ok(Get(data, "data").value.items)
    else if data.JArr? then Ok(data.items)
    else if IsArray(Get(data, "models")) then Ok(Get(data, "models").value.items)
    else Err(PlainError(UnexpectedFormatMessage(Keys(data))))
  }

  /** An object whose "id" member is a string. */
  predicate HasStringId(m: Json) {
    Get(m, "id").Some? && Get(m, "id").value.JStr?
  }

  /** The sort key: the id, or "" for an entry without one (never compared). */
  function Key(m: Json): (k: string)
    ensures HasStringId(m) ==> k == Get(m, "id").value.s
  {
    if HasStringId(m) then Get(m, "id").value.s else ""
  }

  /** The array `models.sort` can order without its comparator throwing: a list of
      fewer than two entries is never compared; otherwise every id must be a string. */
  function Comparable(ms: seq<Json>): (r: Result<seq<Json>, JsError>)
    ensures r.Ok? ==> r.value == ms
    ensures r.Ok? <==> |ms| < 2 || forall i :: 0 <= i < |ms| ==> HasStringId(ms[i])
  {
    if |ms| < 2 || forall i :: 0 <= i < |ms| ==> HasStringId(ms[i]) then Ok(ms)
    else Err(PlainError(ComparatorTypeError))
  }

  /** Everything between issuing the fetch and sorting: the models list to sort,
      or the error the route catches. */
  function UpstreamModels(fetch: FetchOutcome, parse: string -> Parsed): (r: Result<seq<Json>, JsError>)
    ensures fetch.FetchFailed? ==> r == Err(fetch.error)
    ensures fetch.Responded? && !IsOk(fetch.status) ==> r == Err(PlainError(HttpErrorMessage(fetch.status, fetch.text)))
    ensures fetch.Responded? && IsOk(fetch.status) && parse(fetch.text).SyntaxError? ==>
      r == Err(PlainError(InvalidJsonMessage(fetch.text)))
    ensures r.Ok? ==> (fetch.Responded? && IsOk(fetch.status) && parse(fetch.text).Parsed?
                       && SelectModels(parse(fetch.text).value) == r)
  {
    match fetch
    case FetchFailed(e) => Err(e)
    case Responded(status, text) =>
      if !IsOk(status) then Err(PlainError(HttpErrorMessage(status, text)))
      else match parse(text)
        case SyntaxError(_) => Err(PlainError(InvalidJsonMessage(text)))
        case Parsed(data) =>
          match SelectModels(data)
          case Err(e) => Err(e)
          case Ok(ms) => Comparable(ms)
  }

  // ---------------------------------------------------------------------------
  // Ordering by id: `a.id.localeCompare(b.id)`, taken as plain lexicographic order

  predicate LexLeq(a: string, b: string)
    decreases |a|
  {
    a == [] || (b != [] && (a[0] < b[0] || (a[0] == b[0] && LexLeq(a[1..], b[1..]))))
  }

  lemma {:induction false} LexLeqTotal(a: string, b: string)
    ensures LexLeq(a, b) || LexLeq(b, a)
    decreases |a|
  {
    if a != [] && b != [] && a[0] == b[0] {
      LexLeqTotal(a[1..], b[1..]);
    }
  }

  lemma {:induction false} LexLeqTrans(a: string, b: string, c: string)
    requires LexLeq(a, b) && LexLeq(b, c)
    ensures LexLeq(a, c)
    decreases |a|
  {
    if a != [] && a[0] == b[0] && b[0] == c[0] {
      LexLeqTrans(a[1..], b[1..], c[1..]);
    }
  }

  lemma {:induction false} LexLeqAntisymmetric(a: string, b: string)
    requires LexLeq(a, b) && LexLeq(b, a)
    ensures a == b
    decreases |a|
  {
    if a != [] {
      LexLeqAntisymmetric(a[1..], b[1..]);
    }
  }

  predicate IdLeq(x: Json, y: Json) {
    LexLeq(Key(x), Key(y))
  }

  ghost predicate SortedById(s: seq<Json>) {
    forall p, q :: 0 <= p < q < |s| ==> IdLeq(s[p], s[q])
  }

  /** `models.sort(...)` in place, as an insertion sort. */
  method SortById(a: array<Json>)
    modifies a
    ensures SortedById(a[..])
    ensures multiset(a[..]) == multiset(old(a[..]))
    ensures SortedById(old(a[..])) ==> a[..] == old(a[..])
  {
    var i := 0;
    while i < a.Length
      invariant 0 <= i <= a.Length
      invariant forall p, q :: 0 <= p < q < i ==> IdLeq(a[p], a[q])
      invariant multiset(a[..]) == multiset(old(a[..]))
      invariant SortedById(old(a[..])) ==> a[..] == old(a[..])
    {
      if i == 0 {
      } else if IdLeq(a[i - 1], a[i]) {
        SortedPrefixExtends(a[..], i);
      } else {
        assert !SortedById(old(a[..])) by {
          assert a[..][i - 1] == a[i - 1] && a[..][i] == a[i];
        }
        InsertById(a, i);
      }
      i := i + 1;
    }
  }

  /** An element in order with the last one of a sorted prefix extends it. */
  lemma SortedPrefixExtends(s: seq<Json>, i: nat)
    requires 0 < i < |s| && IdLeq(s[i - 1], s[i])
    requires forall p, q :: 0 <= p < q < i ==> IdLeq(s[p], s[q])
    ensures forall p, q :: 0 <= p < q <= i ==> IdLeq(s[p], s[q])
  {
    forall p | 0 <= p < i - 1
      ensures IdLeq(s[p], s[i])
    {
      LexLeqTrans(Key(s[p]), Key(s[i - 1]), Key(s[i]));
    }
  }

  /** Moves a[i] down by adjacent swaps into the sorted prefix a[..i]. */
  method InsertById(a: array<Json>, i: nat)
    requires i < a.Length
    requires forall p, q :: 0 <= p < q < i ==> IdLeq(a[p], a[q])
    modifies a
    ensures forall p, q :: 0 <= p < q <= i ==> IdLeq(a[p], a[q])
    ensures multiset(a[..]) == multiset(old(a[..]))
  {
    var j := i;
    while j > 0 && !IdLeq(a[j - 1], a[j])
      invariant 0 <= j <= i
      invariant forall p, q :: 0 <= p < q <= i && p != j && q != j ==> IdLeq(a[p], a[q])
      invariant forall q :: j < q <= i ==> IdLeq(a[j], a[q])
      invariant multiset(a[..]) == multiset(old(a[..]))
    {
      LexLeqTotal(Key(a[j - 1]), Key(a[j]));
      a[j - 1], a[j] := a[j], a[j - 1];
      j := j - 1;
    }
    forall p, q | 0 <= p < q <= i
      ensures IdLeq(a[p], a[q])
    {
      if q == j && p < j - 1 {
        LexLeqTrans(Key(a[p]), Key(a[j - 1]), Key(a[j]));
      }
    }
  }

  // ---------------------------------------------------------------------------
  // Error classification

  const InvalidKeyMessage := "Invalid API key. Please check your API key."
  const NotFoundMessage := "Models endpoint not found. This API may not support model listing."
  const NetworkMessage := "Network error. Please check your internet connection and API endpoint."
  const FormatMessage := "Invalid response format. The endpoint may not be compatible with OpenAI API format."
  const DefaultMessage := "Failed to fetch models"

  const FixedMessages := {InvalidKeyMessage, BlockedMessage, AccessDeniedMessage, NotFoundMessage,
                          CannotConnectMessage, NetworkMessage, FormatMessage, DefaultMessage}

  /** The message with HTML documents stripped, the first "HTTP n: " removed and
      surrounding whitespace trimmed. */
  function CleanMessage(message: string): (r: string)
    ensures IsTrimmed(r) && |r| <= |message|
  {
    Trim(RemoveHttpStatusPrefix(StripHtmlDocuments(message)))
  }

  /** The message mentions none of "401", "403", "404". */
  predicate NoStatusWord(message: string) {
    !Contains(message, "401") && !Contains(message, "403") && !Contains(message, "404")
  }

  /** The first-match chain of the catch block. */
  function ClassifyModelsError(e: JsError): (r: string)
    ensures r in FixedMessages || (r == CleanMessage(e.message) && r != "" && JsLength(r) < 200)
    ensures Contains(e.message, "401") ==> r == InvalidKeyMessage
    ensures !Contains(e.message, "401") && Contains(e.message, "403") ==>
      r == (if Contains(e.message, "cloudflare") || Contains(e.message, "blocked") then BlockedMessage else AccessDeniedMessage)
    ensures !Contains(e.message, "401") && !Contains(e.message, "403") && Contains(e.message, "404") ==>
      r == NotFoundMessage
    ensures NoStatusWord(e.message) && IsConnectionCode(e.code) ==> r == CannotConnectMessage
    ensures NoStatusWord(e.message) && !IsConnectionCode(e.code) && Contains(e.message, "fetch") ==>
      r == NetworkMessage
    ensures (NoStatusWord(e.message) && !IsConnectionCode(e.code) && !Contains(e.message, "fetch")
             && Contains(e.message, "JSON")) ==> r == FormatMessage
  {
    var m := e.message;
    if Contains(m, "401") then InvalidKeyMessage
    else if Contains(m, "403") then
      if Contains(m, "cloudflare") || Contains(m, "blocked") then BlockedMessage else AccessDeniedMessage
    else if Contains(m, "404") then NotFoundMessage
    else if IsConnectionCode(e.code) then CannotConnectMessage
    else if Contains(m, "fetch") then NetworkMessage
    else if Contains(m, "JSON") then FormatMessage
    else if m != "" && CleanMessage(m) != "" && JsLength(CleanMessage(m)) < 200 then CleanMessage(m)
    else DefaultMessage
  }

  /** None of the message tests of the chain fires. */
  predicate NoTrigger(message: string) {
    && !Contains(message, "401") && !Contains(message, "403") && !Contains(message, "404")
    && !Contains(message, "fetch") && !Contains(message, "JSON")
  }

  /** When nothing in the chain fires, the user sees the cleaned message if it is
      non-empty and shorter than 200 UTF-16 units, and the generic message otherwise. */
  lemma ClassifyModelsFallThrough(e: JsError)
    requires NoTrigger(e.message) && !IsConnectionCode(e.code)
    ensures var c := CleanMessage(e.message);
      ClassifyModelsError(e) == if c != "" && JsLength(c) < 200 then c else DefaultMessage
  {
    if e.message == "" {
      assert CleanMessage(e.message) == "";
    }
  }

  /** A non-OK upstream response whose body mentions none of the tested words and
      holds no markup is shown as its body, without the "HTTP n: " prefix. */
  lemma ClassifyModelsHttpBody(status: nat, text: string)
    requires NoTrigger(HttpErrorMessage(status, text))
    requires '<' !in text
    requires Trim(text) != "" && JsLength(Trim(text)) < 200
    ensures ClassifyModelsError(PlainError(HttpErrorMessage(status, text))) == Trim(text)
  {
    var m := HttpErrorMessage(status, text);
    assert m == "HTTP " + NatToString(status) + ": " + text;
    assert '<' !in m by {
      assert forall c :: c in NatToString(status) ==> IsDigit(c);
    }
    NoAngleNoDoctype(m);
    StripHtmlNoDoctype(m);
    RemoveHttpStatusPrefixOfHttpError(status, text);
    ClassifyModelsFallThrough(PlainError(m));
  }

  lemma NoAngleNoDoctype(s: string)
    requires '<' !in s
    ensures forall k :: 0 <= k <= |s| ==> !StartsWithCI(s[k..], DoctypeOpen)
  {
    forall k | 0 <= k <= |s| ensures !StartsWithCI(s[k..], DoctypeOpen) {
      if k < |s| {
        assert s[k] in s;
        assert s[k..][0] == s[k];
      }
    }
  }

  /** The tests look at the whole message, body included: any failure whose
      message mentions "401" anywhere is reported as a bad API key. */
  lemma ClassifyModelsSubstringHeuristic(status: nat, text: string)
    requires Contains(text, "401")
    ensures ClassifyModelsError(PlainError(HttpErrorMessage(status, text))) == InvalidKeyMessage
  {
    var m := HttpErrorMessage(status, text);
    assert m == ("HTTP " + NatToString(status) + ": ") + text;
    ContainsExtend(text, "HTTP " + NatToString(status) + ": ", "401");
  }

  // ---------------------------------------------------------------------------
  // The route

  /** `handler` of pages/api/models.ts. The fetch outcome and JSON.parse are
      parameters; `request` is the upstream call issued, if any. */
  method HandleModels(httpMethod: string, apiKey: string, baseURL: string,
                      fetch: FetchOutcome, parse: string -> Parsed)
    returns (request: Option<ModelsRequest>, resp: ApiResponse)
    ensures httpMethod != "POST" ==> request.None? && resp == MethodNotAllowed
    ensures httpMethod == "POST" && apiKey == "" ==> request.None? && resp == ApiKeyRequired
    ensures httpMethod == "POST" && apiKey != "" ==> request == Some(ModelsRequest(ModelsEndpoint(baseURL), apiKey))
    ensures httpMethod == "POST" && apiKey != "" ==>
      match UpstreamModels(fetch, parse)
      case Ok(ms) => resp.status == 200 && resp.body.ModelsBody?
                     && SortedById(resp.body.models) && multiset(resp.body.models) == multiset(ms)
      case Err(e) => resp == ErrorResponse(500, ClassifyModelsError(e))
  {
    if httpMethod != "POST" {
      return None, MethodNotAllowed;
    }
    if apiKey == "" {
      return None, ApiKeyRequired;
    }
    var cleanBaseURL := CleanBaseURL(baseURL);
    var baseUrl := BaseOrDefault(cleanBaseURL);
    var modelsUrl := ResolveModelsUrl(baseUrl);
    request := Some(ModelsRequest(modelsUrl, apiKey));
    var outcome := UpstreamModels(fetch, parse);
    match outcome {
      case Err(e) =>
        resp := ErrorResponse(500, ClassifyModelsError(e));
      case Ok(ms) =>
        var models := new Json[|ms|](k requires 0 <= k < |ms| => ms[k]);
        assert models[..] == ms;
        SortById(models);
        resp := ApiResponse(200, ModelsBody(models[..]));
    }
  }
}
