/** What the two API routes (pages/api/models.ts and pages/api/translate.ts)
    share: the error value they catch, the outcome of an upstream HTTP call, the
    response they write, base-URL cleaning and the message sanitisers. */
module Upstream {
  import opened Wrappers
  import opened JsString
  import opened Json

  /** A caught JavaScript error: `error.status`, `error.code`, `error.message`
      (an absent message is the empty string; both are falsy). */
  datatype JsError = JsError(status: Option<int>, code: Option<string>, message: string)

  /** `new Error(message)`: no status and no code. */
  function PlainError(message: string): (e: JsError)
    ensures e.status.None? && e.code.None? && e.message == message
  {
    JsError(None, None, message)
  }

  /** The outcome of one `fetch`: a response (status and body text) or a thrown error. */
  datatype FetchOutcome = Responded(status: nat, text: string) | FetchFailed(error: JsError)

  /** The outcome of `JSON.parse` (or `response.json()`) on a body text. */
  datatype Parsed = Parsed(value: Json) | SyntaxError(message: string)

  /** `response.ok` */
  predicate IsOk(status: nat) {
    200 <= status <= 299
  }

  /** What a route writes with `res.status(..).json(..)`. */
  datatype ApiBody =
    | ErrorBody(error: string)
    | ModelsBody(models: seq<Json>)
    | TranslationBody(translatedText: string)

  datatype ApiResponse = ApiResponse(status: nat, body: ApiBody)

  function ErrorResponse(status: nat, message: string): (r: ApiResponse)
    ensures r.status == status && r.body == ErrorBody(message)
  {
    ApiResponse(status, ErrorBody(message))
  }

  const MethodNotAllowed := ErrorResponse(405, "Method not allowed")
  const ApiKeyRequired := ErrorResponse(400, "API key is required")

  const DefaultBaseURL := "https://api.openai.com/v1"

  // Display messages both routes' error classifiers use verbatim.
  const BlockedMessage := "API endpoint blocked by security service. Please check your Base URL or try using the official OpenAI endpoint."
  const AccessDeniedMessage := "Access denied. Please check your API key and endpoint configuration."
  const CannotConnectMessage := "Cannot connect to API endpoint. Please check your Base URL."

  /** `error.code === 'ENOTFOUND' || error.code === 'ECONNREFUSED'` */
  predicate IsConnectionCode(code: Option<string>) {
    code == Some("ENOTFOUND") || code == Some("ECONNREFUSED")
  }

  /** The base-URL cleaning both routes perform (`baseURL?.trim()`, then
      "https://" in front of a non-empty value that does not start with "http");
      an absent baseURL is the empty string. */
  function CleanBaseURL(baseURL: string): (r: string)
    ensures r == "" <==> AllWs(baseURL)
    ensures r != "" ==> StartsWith(r, "http") && IsTrimmed(r)
    ensures StartsWith(Trim(baseURL), "http") ==> r == Trim(baseURL)
    ensures r != "" && !StartsWith(Trim(baseURL), "http") ==> r == "https://" + Trim(baseURL)
  {
    TrimEmptyIffBlank(baseURL);
    var t := Trim(baseURL);
    if t != "" && !StartsWith(t, "http") then
      var r := "https://" + t;
      assert r[..4] == "http";
      r
    else t
  }

  /** Cleaning a cleaned base URL changes nothing. */
  lemma CleanBaseURLIdempotent(baseURL: string)
    ensures CleanBaseURL(CleanBaseURL(baseURL)) == CleanBaseURL(baseURL)
  {
    var r := CleanBaseURL(baseURL);
    TrimOfTrimmed(r);
    if r == "" {
      assert AllWs(r);
    } else {
      assert !AllWs(r) by { assert !IsWs(r[0]); }
    }
  }

  /** `cleanBaseURL || "https://api.openai.com/v1"` */
  function BaseOrDefault(clean: string): (r: string)
    ensures r != "" && (clean != "" ==> r == clean) && (clean == "" ==> r == DefaultBaseURL)
  {
    if clean != "" then clean else DefaultBaseURL
  }

  /** The message of the error both routes throw on a non-OK upstream status. */
  function HttpErrorMessage(status: nat, text: string): (m: string)
    ensures StartsWith(m, "HTTP ") && EndsWith(m, ": " + text)
  {
    var m := "HTTP " + NatToString(status) + ": " + text;
    assert m[|m| - |": " + text|..] == ": " + text;
    m
  }

  // ---------------------------------------------------------------------------
  // The regular-expression replacements used to clean messages for display.

  const DoctypeOpen := "<!doctype html>"
  const HtmlClose := "</html>"

  /** The first position at which p (lower case) matches s ignoring ASCII case. */
  function FindCI(s: string, p: string): (r: Option<nat>)
    ensures r.Some? ==> r.value <= |s| && StartsWithCI(s[r.value..], p)
    ensures r.Some? ==> forall k :: 0 <= k < r.value ==> !StartsWithCI(s[k..], p)
    ensures r.None? ==> forall k :: 0 <= k <= |s| ==> !StartsWithCI(s[k..], p)
    decreases |s|
  {
    if StartsWithCI(s, p) then Some(0)
    else if s == [] then None
    else
      var r := FindCI(s[1..], p);
      assert forall k :: 1 <= k <= |s| ==> s[k..] == s[1..][k - 1..];
      match r
      case Some(j) => Some(j + 1)
      case None => None
  }

  /** `.replace(/<!DOCTYPE html>[\s\S]*?<\/html>/gi, '')`: every document from an
      opening doctype (any ASCII case) to the nearest closing tag after it is
      removed; an opener with no closing tag after it stays. The scan resumes
      after each removed document and does not look at the joined text again. */
  function StripHtmlDocuments(s: string): (r: string)
    ensures |r| <= |s|
    decreases |s|
  {
    if s == [] then []
    else if StartsWithCI(s, DoctypeOpen) && FindCI(s[|DoctypeOpen|..], HtmlClose).Some? then
      var j := FindCI(s[|DoctypeOpen|..], HtmlClose).value;
      StripHtmlDocuments(s[|DoctypeOpen| + j + |HtmlClose|..])
    else [s[0]] + StripHtmlDocuments(s[1..])
  }

  /** A message with no doctype opener anywhere is left as it is. */
  lemma {:induction false} StripHtmlNoDoctype(s: string)
    requires forall k :: 0 <= k <= |s| ==> !StartsWithCI(s[k..], DoctypeOpen)
    ensures StripHtmlDocuments(s) == s
    decreases |s|
  {
    if s != [] {
      assert !StartsWithCI(s[0..], DoctypeOpen);
      assert forall k :: 1 <= k <= |s| ==> s[1..][k - 1..] == s[k..];
      StripHtmlNoDoctype(s[1..]);
    }
  }

  /** An HTML document at the front of a message is removed up to its first
      closing tag, and only the rest of the message remains to be scanned. */
  lemma StripHtmlLeadingDocument(open: string, body: string, close: string, rest: string)
    requires |open| == |DoctypeOpen| && StartsWithCI(open, DoctypeOpen)
    requires |close| == |HtmlClose| && StartsWithCI(close, HtmlClose)
    requires forall k :: 0 <= k < |body| ==> !StartsWithCI((body + close + rest)[k..], HtmlClose)
    ensures StripHtmlDocuments(open + body + close + rest) == StripHtmlDocuments(rest)
  {
    var s := open + body + close + rest;
    assert StartsWithCI(s, DoctypeOpen);
    var tail := s[|DoctypeOpen|..];
    assert tail == body + close + rest;
    assert tail[|body|..] == close + rest;
    var f := FindCI(tail, HtmlClose);
    assert StartsWithCI(tail[|body|..], HtmlClose);
    assert f.Some? && f.value == |body|;
    assert s[|DoctypeOpen| + |body| + |HtmlClose|..] == rest;
  }

  /** Text without a '<' cannot begin a document, so it survives stripping in front
      of whatever follows it. */
  lemma {:induction false} StripHtmlKeepsPrefix(p: string, s: string)
    requires forall i :: 0 <= i < |p| ==> p[i] != '<'
    ensures StripHtmlDocuments(p + s) == p + StripHtmlDocuments(s)
    decreases |p|
  {
    if p != [] {
      var t := p + s;
      assert !StartsWithCI(t, DoctypeOpen) by {
        assert t[0] == p[0] && AsciiLower(t[0]) != DoctypeOpen[0];
      }
      assert StripHtmlDocuments(t) == [t[0]] + StripHtmlDocuments(t[1..]);
      assert t[1..] == p[1..] + s;
      StripHtmlKeepsPrefix(p[1..], s);
      assert [t[0]] + (p[1..] + StripHtmlDocuments(s)) == p + StripHtmlDocuments(s);
    } else {
      assert p + s == s;
    }
  }

  /** The length of the run of ASCII digits that starts s. */
  function DigitRun(s: string): (n: nat)
    ensures n <= |s| && AllDigits(s[..n])
    ensures n < |s| ==> !IsDigit(s[n])
  {
    if s != [] && IsDigit(s[0]) then
      var n := 1 + DigitRun(s[1..]);
      assert forall i :: 1 <= i < n ==> s[..n][i] == s[1..][..n - 1][i - 1];
      n
    else 0
  }

  /** The length of a match of /HTTP \d+: / at the start of s, if there is one. */
  function HttpPrefixLength(s: string): (r: Option<nat>)
    ensures r.Some? ==> r.value <= |s| && StartsWith(s, "HTTP ")
  {
    if StartsWith(s, "HTTP ") then
      var d := DigitRun(s[5..]);
      if d >= 1 && StartsWith(s[5 + d..], ": ") then Some(5 + d + 2) else None
    else None
  }

  /** `.replace(/HTTP \d+: /, '')`: the first match, and only the first, is removed. */
  function RemoveHttpStatusPrefix(s: string): (r: string)
    ensures |r| <= |s|
    decreases |s|
  {
    if s == [] then []
    else match HttpPrefixLength(s)
      case Some(n) => s[n..]
      case None => [s[0]] + RemoveHttpStatusPrefix(s[1..])
  }

  lemma DigitRunOfDigits(digits: string, rest: string)
    requires AllDigits(digits) && (rest == [] || !IsDigit(rest[0]))
    ensures DigitRun(digits + rest) == |digits|
    decreases |digits|
  {
    if digits != [] {
      assert (digits + rest)[1..] == digits[1..] + rest;
      DigitRunOfDigits(digits[1..], rest);
    }
  }

  /** Removing the status prefix undoes HttpErrorMessage: the body is what is left. */
  lemma RemoveHttpStatusPrefixOfHttpError(status: nat, text: string)
    ensures RemoveHttpStatusPrefix(HttpErrorMessage(status, text)) == text
  {
    var digits := NatToString(status);
    var m := HttpErrorMessage(status, text);
    assert m == "HTTP " + (digits + (": " + text));
    assert m[5..] == digits + (": " + text);
    DigitRunOfDigits(digits, ": " + text);
    assert m[5 + |digits|..] == ": " + text;
    assert HttpPrefixLength(m) == Some(5 + |digits| + 2);
    assert m[5 + |digits| + 2..] == text;
  }

  /** A message with no "HTTP " anywhere in it is left as it is. */
  lemma {:induction false} RemoveHttpStatusPrefixNoMatch(s: string)
    requires !Contains(s, "HTTP ")
    ensures RemoveHttpStatusPrefix(s) == s
    decreases |s|
  {
    if s != [] {
      RemoveHttpStatusPrefixNoMatch(s[1..]);
    }
  }
}
