/** The `useTranslate` hook (hooks/use-translate.ts): one result record,
    overwritten when a translation starts, succeeds, fails or is reset. */
module UseTranslate {
  import opened Wrappers
  import opened JsString

  /** The options posted to `/api/translate` (the callbacks are not sent). */
  datatype TranslateOptions = TranslateOptions(
    text: string, sourceLang: string, targetLang: string,
    apiKey: string, baseURL: Option<string>, model: Option<string>)

  /** What `fetch("/api/translate")` and `response.json()` produced: the status
      flag with the body's `translatedText` and `error` (absent is ""), or the
      message of the error thrown on the way. */
  datatype TranslateReply =
    | Reply(ok: bool, translatedText: Option<string>, error: string)
    | Threw(message: string)

  /** The callback the hook invokes (if the caller passed one). */
  datatype TranslateNotice = OnSuccess | OnError(message: string)

  const TranslationFailed := "Translation failed"

  /** What one request leads to: the translated text (undefined is None), or the
      message to show. */
  function ReplyOutcome(reply: TranslateReply): (r: Result<Option<string>, string>)
    ensures r.Err? ==> r.error != ""
    ensures r.Ok? <==> reply.Reply? && reply.ok
    ensures r.Ok? ==> r.value == reply.translatedText
    ensures reply.Reply? && !reply.ok ==> r == Err(OrElse(reply.error, TranslationFailed))
    ensures reply.Threw? ==> r == Err(OrElse(reply.message, TranslationFailed))
  {
    match reply
    case Reply(ok, text, error) =>
      if ok then Ok(text) else Err(OrElse(OrElse(error, TranslationFailed), TranslationFailed))
    case Threw(message) => Err(OrElse(message, TranslationFailed))
  }

  class Translator {
    var translatedText: Option<string>
    var isLoading: bool
    var error: Option<string>

    /** A result and an error are never shown together. */
    ghost predicate Valid()
      reads this
    {
      !(translatedText.Some? && error.Some?)
    }

    predicate IsInitial()
      reads this
    {
      translatedText.None? && !isLoading && error.None?
    }

    constructor ()
      ensures Valid() && IsInitial()
    {
      translatedText := None;
      isLoading := false;
      error := None;
    }

    /** The first `setResult` of `translate`. */
    method Start()
      modifies this
      ensures Valid()
      ensures translatedText.None? && isLoading && error.None?
    {
      translatedText := None;
      isLoading := true;
      error := None;
    }

    /** The `setResult` after the reply, success or failure. */
    method Finish(reply: TranslateReply) returns (notice: TranslateNotice)
      modifies this
      ensures Valid() && !isLoading
      ensures match ReplyOutcome(reply)
        case Ok(t) => translatedText == t && error.None? && notice == OnSuccess
        case Err(m) => translatedText.None? && error == Some(m) && notice == OnError(m)
    {
      match reply {
        case Reply(ok, text, e) =>
          if ok {
            translatedText, isLoading, error := text, false, None;
            notice := OnSuccess;
          } else {
            var message := OrElse(OrElse(e, TranslationFailed), TranslationFailed);
            translatedText, isLoading, error := None, false, Some(message);
            notice := OnError(message);
          }
        case Threw(m) =>
          var message := OrElse(m, TranslationFailed);
          translatedText, isLoading, error := None, false, Some(message);
          notice := OnError(message);
      }
    }

    /** `translate(options)`, with the reply of `/api/translate` as a parameter;
        `request` is the body posted. */
    method Translate(options: TranslateOptions, reply: TranslateReply)
      returns (request: TranslateOptions, notice: TranslateNotice)
      modifies this
      ensures request == options
      ensures Valid() && !isLoading
      ensures match ReplyOutcome(reply)
        case Ok(t) => translatedText == t && error.None? && notice == OnSuccess
        case Err(m) => translatedText.None? && error == Some(m) && notice == OnError(m)
    {
      Start();
      request := options;
      notice := Finish(reply);
    }

    /** `reset()` */
    method Reset()
      modifies this
      ensures Valid() && IsInitial()
    {
      translatedText, isLoading, error := None, false, None;
    }
  }
}
