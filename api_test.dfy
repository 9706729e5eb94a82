/** The connection test card (components/api-test.tsx): one probe translation
    through `/api/translate`, and the status it leaves behind. */
module ApiTest {
  import opened Wrappers
  import opened JsString
  import opened UseTranslate

  /** The four statuses the card can draw; `testConnection` never sets Warning. */
  datatype Status = Idle | Success | Error | Warning

  datatype Toast = ApiKeyRequired | TestSuccessful | TestFailed(description: string) | ConnectionError

  const SuccessHead := "Connection successful! Translation result: \""
  const TestFailedMessage := "Test failed"
  const ApiTestFailed := "API test failed"
  const ConnectionFailed := "Connection failed"

  /** The template literal of the success message; an absent `translatedText`
      is printed as "undefined". */
  function SuccessMessage(translatedText: Option<string>): (m: string)
    ensures StartsWith(m, SuccessHead) && EndsWith(m, "\"")
    ensures translatedText.Some? ==> m == SuccessHead + translatedText.value + "\""
  {
    SuccessHead + translatedText.GetOr("undefined") + "\""
  }

  /** The success message gives the probe's translation back: two different
      translations never produce the same message. */
  lemma SuccessMessageInjective(a: string, b: string)
    requires SuccessMessage(Some(a)) == SuccessMessage(Some(b))
    ensures a == b
  {
    var m := SuccessMessage(Some(a));
    assert a == m[|SuccessHead|..|m| - 1];
    assert b == m[|SuccessHead|..|m| - 1];
  }

  /** An absent translation and the literal text "undefined" cannot be told
      apart in the message. */
  lemma SuccessMessageOfAbsentText()
    ensures SuccessMessage(None) == SuccessMessage(Some("undefined"))
  {
  }

  /** The status, message and toast one probe reply leads to. */
  function ProbeResult(reply: TranslateReply): (r: (Status, string, Toast))
    ensures r.0 == Success <==> reply.Reply? && reply.ok
    ensures r.0 != Success ==> r.0 == Error
    ensures r.1 != ""
    ensures reply.Reply? && reply.ok ==> r == (Success, SuccessMessage(reply.translatedText), TestSuccessful)
    ensures reply.Reply? && !reply.ok ==>
              r == (Error, OrElse(reply.error, TestFailedMessage), TestFailed(OrElse(reply.error, ApiTestFailed)))
    ensures reply.Threw? ==> r == (Error, OrElse(reply.message, ConnectionFailed), ConnectionError)
  {
    match reply
    case Reply(ok, text, error) =>
      if ok then (Success, SuccessMessage(text), TestSuccessful)
      else (Error, OrElse(error, TestFailedMessage), TestFailed(OrElse(error, ApiTestFailed)))
    case Threw(message) => (Error, OrElse(message, ConnectionFailed), ConnectionError)
  }

  /** The body of the probe: "Hello" from English to Chinese with the current
      settings, and no base URL when it is empty. */
  function ProbeOptions(apiKey: string, baseURL: string, model: string): (o: TranslateOptions)
    ensures o.text == "Hello" && o.sourceLang == "en" && o.targetLang == "zh"
    ensures o.apiKey == apiKey && o.model == Some(model)
    ensures o.baseURL.None? <==> baseURL == ""
    ensures o.baseURL.Some? ==> o.baseURL.value == baseURL
  {
    TranslateOptions("Hello", "en", "zh", apiKey, if baseURL == "" then None else Some(baseURL), Some(model))
  }

  class Tester {
    // The props.
    var apiKey: string
    var baseURL: string
    var model: string
    // The card's state.
    var testing: bool
    var status: Status
    var message: string

    /** Between runs the card is not testing and never shows Warning; a status
        other than Idle always comes with a message. */
    ghost predicate Valid()
      reads this
    {
      !testing && status != Warning && (status != Idle ==> message != "")
    }

    constructor (apiKey: string, baseURL: string, model: string)
      ensures Valid() && status == Idle && message == ""
      ensures this.apiKey == apiKey && this.baseURL == baseURL && this.model == model
    {
      this.apiKey, this.baseURL, this.model := apiKey, baseURL, model;
      testing, status, message := false, Idle, "";
    }

    /** The updates of `testConnection` before the request. */
    method Begin()
      modifies this
      ensures testing && status == Idle && message == ""
      ensures apiKey == old(apiKey) && baseURL == old(baseURL) && model == old(model)
    {
      testing := true;
      status, message := Idle, "";
    }

    /** The updates after the reply, `finally` included. */
    method Complete(reply: TranslateReply) returns (toast: Toast)
      modifies this
      ensures Valid()
      ensures (status, message, toast) == ProbeResult(reply)
      ensures apiKey == old(apiKey) && baseURL == old(baseURL) && model == old(model)
    {
      match reply {
        case Reply(ok, text, error) =>
          if ok {
            status, message := Success, SuccessMessage(text);
            toast := TestSuccessful;
          } else {
            status, message := Error, OrElse(error, TestFailedMessage);
            toast := TestFailed(OrElse(error, ApiTestFailed));
          }
        case Threw(m) =>
          status, message := Error, OrElse(m, ConnectionFailed);
          toast := ConnectionError;
      }
      testing := false;
    }

    /** `testConnection`, with the reply of `/api/translate` as a parameter: a
        blank key only raises a toast; otherwise the probe is posted and its
        reply decides the status. */
    method TestConnection(reply: TranslateReply) returns (request: Option<TranslateOptions>, toast: Toast)
      requires Valid()
      modifies this
      ensures Valid()
      ensures AllWs(apiKey) ==>
                request.None? && toast == ApiKeyRequired && status == old(status) && message == old(message)
      ensures !AllWs(apiKey) ==>
                request == Some(ProbeOptions(apiKey, baseURL, model))
                && (status, message, toast) == ProbeResult(reply)
      ensures apiKey == old(apiKey) && baseURL == old(baseURL) && model == old(model)
    {
      TrimEmptyIffBlank(apiKey);
      if Trim(apiKey) == "" {
        return None, ApiKeyRequired;
      }
      Begin();
      request := Some(ProbeOptions(apiKey, baseURL, model));
      toast := Complete(reply);
    }
  }
}
