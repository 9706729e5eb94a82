/** The `useModels` hook (hooks/use-models.ts): the model list shown in the
    settings dialog, fetched through `/api/models` and replaced by a fixed
    fallback list whenever fetching fails. */
module UseModels {
  import opened Wrappers
  import opened JsString
  import opened Json

  /** `{ id, object: "model", owned_by: "openai" }` */
  function FallbackModel(id: string): (m: Json)
    ensures m.JObj? && Get(m, "id") == Some(JStr(id))
  {
    JObj([("id", JStr(id)), ("object", JStr("model")), ("owned_by", JStr("openai"))])
  }

  const FallbackIds: seq<string> := ["gpt-3.5-turbo", "gpt-4", "gpt-4-turbo-preview", "gpt-4o"]

  /** `fallbackModels`, in this order. */
  const FallbackModels: seq<Json> :=
    [FallbackModel(FallbackIds[0]), FallbackModel(FallbackIds[1]), FallbackModel(FallbackIds[2]), FallbackModel(FallbackIds[3])]

  const ApiKeyRequiredNotice := "API Key Required"
  const FetchFailed := "Failed to fetch models"

  /** What `fetch("/api/models")` and `response.json()` produced: the status
      flag with the body's `models` (absent is None) and `error` (absent is ""),
      or the message of the error thrown on the way. */
  datatype ModelsReply =
    | Reply(ok: bool, models: Option<seq<Json>>, error: string)
    | ReplyThrew(message: string)

  /** The body posted to `/api/models`; an absent baseURL is None. */
  datatype ModelsFetch = ModelsFetch(apiKey: string, baseURL: Option<string>)

  /** The callback the hook invokes (if the caller passed one). */
  datatype ModelsNotice =
    | NoNotice
    | OnSuccess(count: nat)
    | OnError(message: string, usesFallback: bool)

  /** The body of the request for the given settings: the trimmed key, and the
      trimmed base URL unless it is blank. */
  function FetchBody(apiKey: string, baseURL: string): (b: ModelsFetch)
    ensures b.apiKey == Trim(apiKey) && IsTrimmed(b.apiKey)
    ensures b.baseURL.None? <==> AllWs(baseURL)
    ensures b.baseURL.Some? ==> b.baseURL.value == Trim(baseURL) && b.baseURL.value != ""
  {
    TrimEmptyIffBlank(baseURL);
    ModelsFetch(Trim(apiKey), if Trim(baseURL) == "" then None else Some(Trim(baseURL)))
  }

  /** What one request leads to: the new list, or the message to show. */
  function ReplyOutcome(reply: ModelsReply): (r: Result<seq<Json>, string>)
    ensures r.Err? ==> r.error != ""
    ensures r.Ok? <==> reply.Reply? && reply.ok && reply.models.Some?
    ensures r.Ok? ==> r.value == reply.models.value
    ensures reply.Reply? && !r.Ok? ==> r == Err(OrElse(reply.error, FetchFailed))
    ensures reply.ReplyThrew? ==> r == Err(OrElse(reply.message, FetchFailed))
  {
    match reply
    case Reply(ok, models, error) =>
      if ok && models.Some? then Ok(models.value) else Err(OrElse(OrElse(error, FetchFailed), FetchFailed))
    case ReplyThrew(message) => Err(OrElse(message, FetchFailed))
  }

  class ModelsHook {
    var models: seq<Json>
    var isLoading: bool
    var error: Option<string>

    /** An error is only ever shown next to the fallback list. */
    ghost predicate Valid()
      reads this
    {
      error.Some? ==> error.value != "" && models == FallbackModels
    }

    /** The initial state: the fallback list, not loading, no error. */
    constructor ()
      ensures Valid()
      ensures models == FallbackModels && !isLoading && error.None?
    {
      models := FallbackModels;
      isLoading := false;
      error := None;
    }

    /** The part of `fetchModels` before the request resolves. */
    method BeginFetch()
      modifies this
      ensures isLoading && error.None? && models == old(models)
    {
      isLoading := true;
      error := None;
    }

    /** The part of `fetchModels` after the request resolves, `finally` included. */
    method CompleteFetch(reply: ModelsReply) returns (notice: ModelsNotice)
      requires isLoading && error.None?
      modifies this
      ensures Valid() && !isLoading
      ensures match ReplyOutcome(reply)
        case Ok(ms) => models == ms && error.None? && notice == OnSuccess(|ms|)
        case Err(m) => models == FallbackModels && error == Some(m) && notice == OnError(m, true)
    {
      match reply {
        case Reply(ok, ms, e) =>
          if ok && ms.Some? {
            models := ms.value;
            notice := OnSuccess(|ms.value|);
          } else {
            var message := OrElse(OrElse(e, FetchFailed), FetchFailed);
            error := Some(message);
            models := FallbackModels;
            notice := OnError(message, true);
          }
        case ReplyThrew(m) =>
          var message := OrElse(m, FetchFailed);
          error := Some(message);
          models := FallbackModels;
          notice := OnError(message, true);
      }
      isLoading := false;
    }

    /** `fetchModels(apiKey, baseURL, onSuccess, onError)`, with the reply of
        `/api/models` as a parameter; `request` is the body posted, if any. */
    method FetchModels(apiKey: string, baseURL: string, reply: ModelsReply)
      returns (request: Option<ModelsFetch>, notice: ModelsNotice)
      requires Valid()
      modifies this
      ensures Valid()
      ensures AllWs(apiKey) ==>
                request.None? && notice == OnError(ApiKeyRequiredNotice, false)
                && models == old(models) && isLoading == old(isLoading) && error == old(error)
      ensures !AllWs(apiKey) ==>
                request == Some(FetchBody(apiKey, baseURL)) && !isLoading
                && match ReplyOutcome(reply)
                   case Ok(ms) => models == ms && error.None? && notice == OnSuccess(|ms|)
                   case Err(m) => models == FallbackModels && error == Some(m) && notice == OnError(m, true)
    {
      TrimEmptyIffBlank(apiKey);
      if Trim(apiKey) == "" {
        return None, OnError(ApiKeyRequiredNotice, false);
      }
      BeginFetch();
      request := Some(FetchBody(apiKey, baseURL));
      notice := CompleteFetch(reply);
    }

    /** `clearModels()`: back to the fallback list without an error. */
    method ClearModels()
      modifies this
      ensures Valid()
      ensures models == FallbackModels && error.None? && isLoading == old(isLoading)
    {
      models := FallbackModels;
      error := None;
    }
  }
}
