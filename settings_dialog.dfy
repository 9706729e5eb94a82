/** The API settings dialog (components/settings-dialog.tsx): temporary copies
    of the three settings, validated in a fixed order before they are handed to
    the page, and the model list of its own `useModels` hook. */
module SettingsDialog {
  import opened Wrappers
  import opened JsString
  import opened Upstream
  import opened UseModels

  /** `validateURL(url)`; `parses` stands for `new URL(..)` not throwing. */
  function ValidateURL(url: string, parses: string -> bool): (ok: bool)
    ensures AllWs(url) ==> ok
    ensures !AllWs(url) && StartsWith(url, "http") ==> (ok <==> parses(url))
    ensures !AllWs(url) && !StartsWith(url, "http") ==> (ok <==> parses("https://" + url))
  {
    TrimEmptyIffBlank(url);
    if Trim(url) == "" then true
    else parses(if StartsWith(url, "http") then url else "https://" + url)
  }

  /** The three values handed to `onSave`. */
  datatype Settings = Settings(apiKey: string, baseURL: string, model: string)

  /** The toasts of the dialog. */
  datatype Toast = ApiKeyRequired | InvalidUrl | ModelRequired | SettingsSaved

  /** The checks of `handleSave`, in their order: a blank key, then an invalid
      base URL, then an empty model; only when all pass are the trimmed key, the
      trimmed base URL and the model, as selected, saved. */
  function SaveCheck(tempApiKey: string, tempBaseURL: string, tempModel: string, parses: string -> bool)
    : (r: Result<Settings, Toast>)
    ensures r.Ok? <==> !AllWs(tempApiKey) && ValidateURL(tempBaseURL, parses) && tempModel != ""
    ensures AllWs(tempApiKey) ==> r == Err(ApiKeyRequired)
    ensures !AllWs(tempApiKey) && !ValidateURL(tempBaseURL, parses) ==> r == Err(InvalidUrl)
    ensures !AllWs(tempApiKey) && ValidateURL(tempBaseURL, parses) && tempModel == "" ==> r == Err(ModelRequired)
    ensures r.Ok? ==> r.value == Settings(Trim(tempApiKey), Trim(tempBaseURL), tempModel)
  {
    TrimEmptyIffBlank(tempApiKey);
    if Trim(tempApiKey) == "" then Err(ApiKeyRequired)
    else if !ValidateURL(tempBaseURL, parses) then Err(InvalidUrl)
    else if tempModel == "" then Err(ModelRequired)
    else Ok(Settings(Trim(tempApiKey), Trim(tempBaseURL), tempModel))
  }

  /** Saved settings are what the rest of the application accepts without
      further cleaning: a non-empty trimmed key, and a base URL that both routes
      clean to the same value the untrimmed text would have given. */
  lemma SavedSettingsAreClean(tempApiKey: string, tempBaseURL: string, tempModel: string, parses: string -> bool)
    requires SaveCheck(tempApiKey, tempBaseURL, tempModel, parses).Ok?
    ensures var s := SaveCheck(tempApiKey, tempBaseURL, tempModel, parses).value;
      && s.apiKey != "" && Trim(s.apiKey) == s.apiKey && s.model != ""
      && CleanBaseURL(s.baseURL) == CleanBaseURL(tempBaseURL)
  {
    TrimEmptyIffBlank(tempApiKey);
    TrimIdempotent(tempApiKey);
    TrimIdempotent(tempBaseURL);
    TrimEmptyIffBlank(tempBaseURL);
    TrimEmptyIffBlank(Trim(tempBaseURL));
  }

  // The badges of `commonEndpoints`: OpenAI Official, Azure OpenAI, Local Ollama.
  const AzureEndpoint := "https://your-resource.openai.azure.com"
  const OllamaEndpoint := "http://localhost:11434/v1"
  const CommonEndpointUrls: seq<string> := [DefaultBaseURL, AzureEndpoint, OllamaEndpoint]

  /** A URL that already starts with "http" and has no surrounding whitespace. */
  lemma CleanUrlKept(url: string)
    requires StartsWith(url, "http") && !IsWs(url[|url| - 1])
    ensures !AllWs(url) && CleanBaseURL(url) == url
    ensures forall parses: string -> bool :: ValidateURL(url, parses) == parses(url)
  {
    assert url[..4][0] == 'h';
    assert !IsWs(url[0]);
    TrimOfTrimmed(url);
  }

  lemma OpenAiEndpointStartsWithHttp()
    ensures StartsWith(DefaultBaseURL, "http") && !IsWs(DefaultBaseURL[|DefaultBaseURL| - 1])
  {
    assert DefaultBaseURL[..4] == "http";
    assert DefaultBaseURL[|DefaultBaseURL| - 2..] == "v1";
    assert DefaultBaseURL[|DefaultBaseURL| - 2..][1] == DefaultBaseURL[|DefaultBaseURL| - 1];
  }

  lemma AzureEndpointStartsWithHttp()
    ensures StartsWith(AzureEndpoint, "http") && !IsWs(AzureEndpoint[|AzureEndpoint| - 1])
  {
    assert AzureEndpoint[..8] == "https://";
    assert AzureEndpoint[..8][..4] == "http";
    assert AzureEndpoint[|AzureEndpoint| - 3..] == "com";
    assert AzureEndpoint[|AzureEndpoint| - 3..][2] == AzureEndpoint[|AzureEndpoint| - 1];
  }

  lemma OllamaEndpointStartsWithHttp()
    ensures StartsWith(OllamaEndpoint, "http") && !IsWs(OllamaEndpoint[|OllamaEndpoint| - 1])
  {
    assert OllamaEndpoint[..4] == "http";
    assert OllamaEndpoint[|OllamaEndpoint| - 2..] == "v1";
    assert OllamaEndpoint[|OllamaEndpoint| - 2..][1] == OllamaEndpoint[|OllamaEndpoint| - 1];
  }

  /** Every common endpoint starts with "http", so `validateURL` hands it to the
      parser unchanged and both routes use it as it is. */
  lemma CommonEndpointsAreClean(i: nat)
    requires i < |CommonEndpointUrls|
    ensures var url := CommonEndpointUrls[i];
      && StartsWith(url, "http") && (forall parses: string -> bool :: ValidateURL(url, parses) == parses(url))
      && CleanBaseURL(url) == url
  {
    if i == 0 {
      OpenAiEndpointStartsWithHttp();
      CleanUrlKept(DefaultBaseURL);
    } else if i == 1 {
      AzureEndpointStartsWithHttp();
      CleanUrlKept(AzureEndpoint);
    } else {
      OllamaEndpointStartsWithHttp();
      CleanUrlKept(OllamaEndpoint);
    }
  }

  class Dialog {
    // The props the page passes in.
    var apiKey: string
    var baseURL: string
    var model: string
    // The dialog's own state.
    var open: bool
    var tempApiKey: string
    var tempBaseURL: string
    var tempModel: string
    const models: ModelsHook

    ghost predicate Valid()
      reads this, models
    {
      models.Valid()
    }

    /** The first render: closed, with the temporary values taken from the props. */
    constructor (apiKey: string, baseURL: string, model: string)
      ensures Valid() && fresh(models) && !open
      ensures this.apiKey == apiKey && this.baseURL == baseURL && this.model == model
      ensures tempApiKey == apiKey && tempBaseURL == baseURL && tempModel == model
      ensures models.models == FallbackModels && !models.isLoading && models.error.None?
    {
      this.apiKey, this.baseURL, this.model := apiKey, baseURL, model;
      open := false;
      tempApiKey, tempBaseURL, tempModel := apiKey, baseURL, model;
      models := new ModelsHook();
    }

    /** The prop-resync effect: new props overwrite the temporary values. */
    method ReceiveProps(newApiKey: string, newBaseURL: string, newModel: string)
      modifies this
      ensures apiKey == newApiKey && baseURL == newBaseURL && model == newModel
      ensures tempApiKey == newApiKey && tempBaseURL == newBaseURL && tempModel == newModel
      ensures open == old(open)
    {
      apiKey, baseURL, model := newApiKey, newBaseURL, newModel;
      tempApiKey, tempBaseURL, tempModel := newApiKey, newBaseURL, newModel;
    }

    /** One run of the auto-fetch effect: while the dialog is open and the key is
        not blank, the models are fetched for the temporary settings. */
    method AutoFetch(reply: ModelsReply) returns (request: Option<ModelsFetch>)
      requires Valid()
      modifies models
      ensures Valid()
      ensures !(open && !AllWs(tempApiKey)) ==> request.None? && unchanged(models)
      ensures open && !AllWs(tempApiKey) ==>
                request == Some(FetchBody(tempApiKey, tempBaseURL)) && !models.isLoading
                && match UseModels.ReplyOutcome(reply)
                   case Ok(ms) => models.models == ms && models.error.None?
                   case Err(m) => models.models == FallbackModels && models.error == Some(m)
    {
      TrimEmptyIffBlank(tempApiKey);
      request := None;
      if open && Trim(tempApiKey) != "" {
        var notice;
        request, notice := models.FetchModels(tempApiKey, tempBaseURL, reply);
      }
    }

    /** `handleSave`: a failed check only raises its toast; otherwise the
        settings are handed to `onSave` and the dialog closes. */
    method Save(parses: string -> bool) returns (toast: Toast, saved: Option<Settings>)
      modifies this
      ensures match SaveCheck(old(tempApiKey), old(tempBaseURL), old(tempModel), parses)
        case Ok(s) => saved == Some(s) && toast == SettingsSaved && !open
        case Err(t) => saved.None? && toast == t && open == old(open)
      ensures tempApiKey == old(tempApiKey) && tempBaseURL == old(tempBaseURL) && tempModel == old(tempModel)
      ensures apiKey == old(apiKey) && baseURL == old(baseURL) && model == old(model)
    {
      TrimEmptyIffBlank(tempApiKey);
      if Trim(tempApiKey) == "" {
        return ApiKeyRequired, None;
      }
      if !ValidateURL(tempBaseURL, parses) {
        return InvalidUrl, None;
      }
      if tempModel == "" {
        return ModelRequired, None;
      }
      saved := Some(Settings(Trim(tempApiKey), Trim(tempBaseURL), tempModel));
      open := false;
      toast := SettingsSaved;
    }

    /** `handleCancel`: the temporary values go back to the props, the model list
        is cleared and the dialog closes. */
    method Cancel()
      requires Valid()
      modifies this, models
      ensures Valid() && !open
      ensures tempApiKey == apiKey && tempBaseURL == baseURL && tempModel == model
      ensures apiKey == old(apiKey) && baseURL == old(baseURL) && model == old(model)
      ensures models.models == FallbackModels && models.error.None?
      ensures models.isLoading == old(models.isLoading)
    {
      tempApiKey, tempBaseURL, tempModel := apiKey, baseURL, model;
      models.ClearModels();
      open := false;
    }

    /** `handleRefreshModels`: fetches only for a key that is not blank, and
        otherwise raises the key toast. */
    method RefreshModels(reply: ModelsReply) returns (toast: Option<Toast>, request: Option<ModelsFetch>)
      requires Valid()
      modifies models
      ensures Valid()
      ensures AllWs(tempApiKey) ==> toast == Some(ApiKeyRequired) && request.None? && unchanged(models)
      ensures !AllWs(tempApiKey) ==>
                toast.None? && request == Some(FetchBody(tempApiKey, tempBaseURL)) && !models.isLoading
                && match UseModels.ReplyOutcome(reply)
                   case Ok(ms) => models.models == ms && models.error.None?
                   case Err(m) => models.models == FallbackModels && models.error == Some(m)
    {
      TrimEmptyIffBlank(tempApiKey);
      if Trim(tempApiKey) != "" {
        var notice;
        request, notice := models.FetchModels(tempApiKey, tempBaseURL, reply);
        toast := None;
      } else {
        toast, request := Some(ApiKeyRequired), None;
      }
    }

    /** A common-endpoint badge: the base URL becomes that endpoint. */
    method SelectEndpoint(i: nat)
      requires i < |CommonEndpointUrls|
      modifies this
      ensures tempBaseURL == CommonEndpointUrls[i] && tempBaseURL in CommonEndpointUrls
      ensures tempApiKey == old(tempApiKey) && tempModel == old(tempModel) && open == old(open)
      ensures apiKey == old(apiKey) && baseURL == old(baseURL) && model == old(model)
    {
      tempBaseURL := CommonEndpointUrls[i];
    }

    /** The dialog's `open` state (`setOpen`, also driven by the trigger). */
    method SetOpen(value: bool)
      modifies this
      ensures open == value
      ensures tempApiKey == old(tempApiKey) && tempBaseURL == old(tempBaseURL) && tempModel == old(tempModel)
      ensures apiKey == old(apiKey) && baseURL == old(baseURL) && model == old(model)
    {
      open := value;
    }

    /** The form's inputs (`setTempApiKey`, `setTempBaseURL`, `setTempModel`). */
    method EditSettings(key: string, url: string, selected: string)
      modifies this
      ensures tempApiKey == key && tempBaseURL == url && tempModel == selected && open == old(open)
      ensures apiKey == old(apiKey) && baseURL == old(baseURL) && model == old(model)
    {
      tempApiKey, tempBaseURL, tempModel := key, url, selected;
    }
  }
}
