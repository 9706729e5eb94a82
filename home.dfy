/** The translator page (pages/index.tsx): the language pair, the input text and
    the saved API settings, with the handlers that translate, swap, clear and
    save. The browser's localStorage is the `storage` field. */
module Home {
  import opened Wrappers
  import opened JsString
  import opened UseTranslate

  /** An entry of the language list (lib/languages is not part of this model). */
  datatype Language = Language(code: string, name: string)

  /** `languages.filter(lang => lang.code !== "auto")`, in list order. */
  function TargetLanguages(languages: seq<Language>): (r: seq<Language>)
    ensures |r| <= |languages|
    ensures forall i :: 0 <= i < |r| ==> r[i].code != "auto"
    ensures forall l :: l in r <==> l in languages && l.code != "auto"
    ensures |languages| == 1 ==> r == if languages[0].code == "auto" then [] else languages
  {
    if languages == [] then []
    else
      var rest := TargetLanguages(languages[1..]);
      assert forall l :: l in languages <==> l == languages[0] || l in languages[1..];
      if languages[0].code == "auto" then rest else [languages[0]] + rest
  }

  /** The filter distributes over concatenation: order and repetitions are kept,
      since each entry is kept or dropped on its own. */
  lemma {:induction false} TargetLanguagesAppend(a: seq<Language>, b: seq<Language>)
    ensures TargetLanguages(a + b) == TargetLanguages(a) + TargetLanguages(b)
  {
    if a == [] {
      assert a + b == b;
    } else {
      assert (a + b)[0] == a[0] && (a + b)[1..] == a[1..] + b;
      TargetLanguagesAppend(a[1..], b);
    }
  }

  /** A list without "auto" is kept as it is. */
  lemma {:induction false} TargetLanguagesKeepsOthers(languages: seq<Language>)
    requires forall i :: 0 <= i < |languages| ==> languages[i].code != "auto"
    ensures TargetLanguages(languages) == languages
  {
    if languages != [] {
      TargetLanguagesKeepsOthers(languages[1..]);
    }
  }

  const ApiKeyStorageKey := "translate-api-key"
  const BaseURLStorageKey := "translate-base-url"
  const ModelStorageKey := "translate-model"

  /** `localStorage.getItem(key)`, with null as "". */
  function Stored(storage: map<string, string>, key: string): (v: string)
    ensures key in storage ==> v == storage[key]
    ensures key !in storage ==> v == ""
  {
    if key in storage then storage[key] else ""
  }

  /** `handleSwapLanguages` on the pair (source, target): nothing happens while
      the source is "auto", and otherwise the two are exchanged. */
  function SwapLanguages(source: string, target: string): (r: (string, string))
    ensures source == "auto" ==> r == (source, target)
    ensures source != "auto" ==> r == (target, source)
  {
    if source == "auto" then (source, target) else (target, source)
  }

  /** With a target other than "auto", as the page always has, swapping twice
      gives back the original pair. */
  lemma SwapTwiceRestores(source: string, target: string)
    requires target != "auto"
    ensures var p := SwapLanguages(source, target); SwapLanguages(p.0, p.1) == (source, target)
  {
  }

  datatype Toast = InputRequired | ApiKeyRequired

  class Page {
    var inputText: string
    var sourceLang: string
    var targetLang: string
    var apiKey: string
    var baseURL: string
    var model: string
    var storage: map<string, string>
    const translator: Translator

    /** The target is never "auto", and the translation result is consistent. */
    ghost predicate Valid()
      reads this, translator
    {
      targetLang != "auto" && translator.Valid()
    }

    /** The initial state, over the browser's current localStorage. */
    constructor (storage: map<string, string>)
      ensures Valid() && fresh(translator)
      ensures inputText == "" && sourceLang == "auto" && targetLang == "en"
      ensures apiKey == "" && baseURL == "" && model == "gpt-3.5-turbo"
      ensures this.storage == storage && translator.IsInitial()
    {
      inputText, sourceLang, targetLang := "", "auto", "en";
      apiKey, baseURL, model := "", "", "gpt-3.5-turbo";
      this.storage := storage;
      translator := new Translator();
    }

    /** The settings-load effect: a stored value replaces a field only when it is
        non-empty. */
    method LoadSettings()
      modifies this
      ensures apiKey == OrElse(Stored(storage, ApiKeyStorageKey), old(apiKey))
      ensures baseURL == OrElse(Stored(storage, BaseURLStorageKey), old(baseURL))
      ensures model == OrElse(Stored(storage, ModelStorageKey), old(model))
      ensures inputText == old(inputText) && sourceLang == old(sourceLang) && targetLang == old(targetLang)
      ensures storage == old(storage)
    {
      var savedApiKey := Stored(storage, ApiKeyStorageKey);
      var savedBaseURL := Stored(storage, BaseURLStorageKey);
      var savedModel := Stored(storage, ModelStorageKey);
      if savedApiKey != "" { apiKey := savedApiKey; }
      if savedBaseURL != "" { baseURL := savedBaseURL; }
      if savedModel != "" { model := savedModel; }
    }

    /** `handleSaveSettings`: the three fields and the three storage keys get the
        same values, so loading afterwards changes nothing. */
    method SaveSettings(newApiKey: string, newBaseURL: string, newModel: string)
      modifies this
      ensures apiKey == newApiKey && baseURL == newBaseURL && model == newModel
      ensures storage == old(storage)[ApiKeyStorageKey := newApiKey][BaseURLStorageKey := newBaseURL][ModelStorageKey := newModel]
      ensures Stored(storage, ApiKeyStorageKey) == apiKey && Stored(storage, BaseURLStorageKey) == baseURL
      ensures Stored(storage, ModelStorageKey) == model
      ensures inputText == old(inputText) && sourceLang == old(sourceLang) && targetLang == old(targetLang)
    {
      apiKey, baseURL, model := newApiKey, newBaseURL, newModel;
      storage := storage[ApiKeyStorageKey := newApiKey];
      storage := storage[BaseURLStorageKey := newBaseURL];
      storage := storage[ModelStorageKey := newModel];
    }

    /** `handleTranslate`, with the reply of `/api/translate` as a parameter:
        blank input is refused first, then a missing key; otherwise the untrimmed
        input is sent, with an empty base URL left out. */
    method HandleTranslate(reply: TranslateReply) returns (toast: Option<Toast>, request: Option<TranslateOptions>)
      requires Valid()
      modifies translator
      ensures Valid()
      ensures AllWs(inputText) ==> toast == Some(InputRequired) && request.None? && unchanged(translator)
      ensures !AllWs(inputText) && apiKey == "" ==> toast == Some(ApiKeyRequired) && request.None? && unchanged(translator)
      ensures !AllWs(inputText) && apiKey != "" ==>
                toast.None?
                && request == Some(TranslateOptions(inputText, sourceLang, targetLang, apiKey,
                                                    if baseURL == "" then None else Some(baseURL), Some(model)))
                && !translator.isLoading
                && match UseTranslate.ReplyOutcome(reply)
                   case Ok(t) => translator.translatedText == t && translator.error.None?
                   case Err(m) => translator.translatedText.None? && translator.error == Some(m)
    {
      TrimEmptyIffBlank(inputText);
      if Trim(inputText) == "" {
        return Some(InputRequired), None;
      }
      if apiKey == "" {
        return Some(ApiKeyRequired), None;
      }
      var options := TranslateOptions(inputText, sourceLang, targetLang, apiKey,
                                      if baseURL == "" then None else Some(baseURL), Some(model));
      var sent, _ := translator.Translate(options, reply);
      return None, Some(sent);
    }

    /** `handleSwapLanguages`: the pair follows SwapLanguages, and a non-empty
        translation becomes the new input and is cleared. */
    method SwapLanguagesOnPage()
      requires Valid()
      modifies this, translator
      ensures Valid()
      ensures (sourceLang, targetLang) == SwapLanguages(old(sourceLang), old(targetLang))
      ensures old(sourceLang) == "auto" ==> inputText == old(inputText) && unchanged(translator)
      ensures old(sourceLang) != "auto" && old(translator.translatedText).Some? && old(translator.translatedText).value != "" ==>
                inputText == old(translator.translatedText).value && translator.IsInitial()
      ensures old(sourceLang) != "auto" && !(old(translator.translatedText).Some? && old(translator.translatedText).value != "") ==>
                inputText == old(inputText) && unchanged(translator)
      ensures apiKey == old(apiKey) && baseURL == old(baseURL) && model == old(model) && storage == old(storage)
    {
      if sourceLang == "auto" {
        return;
      }
      sourceLang, targetLang := targetLang, sourceLang;
      var text := translator.translatedText;
      if text.Some? && text.value != "" {
        inputText := text.value;
        translator.Reset();
      }
    }

    /** `handleClear`: the input is emptied and the result reset. */
    method Clear()
      requires Valid()
      modifies this, translator
      ensures Valid()
      ensures inputText == "" && translator.IsInitial()
      ensures sourceLang == old(sourceLang) && targetLang == old(targetLang)
      ensures apiKey == old(apiKey) && baseURL == old(baseURL) && model == old(model) && storage == old(storage)
    {
      inputText := "";
      translator.Reset();
    }

    /** The settings and the stored values are as they were. */
    twostate predicate SettingsUnchanged()
      reads this
    {
      apiKey == old(apiKey) && baseURL == old(baseURL) && model == old(model) && storage == old(storage)
    }

    /** The source text area (`setInputText`). */
    method SetInputText(text: string)
      requires Valid()
      modifies this
      ensures Valid() && SettingsUnchanged()
      ensures inputText == text && sourceLang == old(sourceLang) && targetLang == old(targetLang)
    {
      inputText := text;
    }

    /** The source select (`setSourceLang`) offers every language. */
    method SelectSource(code: string)
      requires Valid()
      modifies this
      ensures Valid() && SettingsUnchanged()
      ensures sourceLang == code && targetLang == old(targetLang) && inputText == old(inputText)
    {
      sourceLang := code;
    }

    /** The target select (`setTargetLang`) offers TargetLanguages only. */
    method SelectTarget(code: string)
      requires Valid() && code != "auto"
      modifies this
      ensures Valid() && SettingsUnchanged()
      ensures targetLang == code && sourceLang == old(sourceLang) && inputText == old(inputText)
    {
      targetLang := code;
    }
  }
}
