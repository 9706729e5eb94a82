# usmoon translator — a Dafny model

usmoon is a Next.js translation web application. The user types text or uploads
an image, chooses a source and a target language, and supplies an OpenAI-compatible
API key and, optionally, a base URL and a model. The browser posts the request to
two server routes:

- `/api/translate` builds a chat-completion prompt, calls the OpenAI SDK and, if
  that throws, retries once with a raw `fetch`;
- `/api/models` lists the models the endpoint offers.

Each route turns an upstream failure into a short message a person can read. Around
them sit:

- a small i18n library (dotted-key lookup and `{{name}}` interpolation);
- a Next.js middleware that picks the locale from a cookie or `Accept-Language`
  and redirects locale-less paths;
- two React hooks (`useModels`, `useTranslate`);
- the home page;
- the settings dialog, the OCR upload card and the API connection test.

The project models each of these in its own module, in the form the source takes:

- The pure parts are functions with proved contracts: URL cleaning and resolution,
  response-shape selection, error classification, prompt building, i18n, locale
  choice and URL validation.
- The state-changing parts are classes whose methods state the whole new state:
  the hooks, the page and the components, and the cookies of the middleware's
  redirect response.
- The models route sorts its list in place in an `array`, proved sorted, a
  permutation of its input, and the identity on a list that is already sorted.

| module | models |
|---|---|
| `Wrappers` | `Option`, `Result` |
| `Assoc` | property reads on member lists (JSON objects, translation groups, the flag table) |
| `JsString` | `trim`, `startsWith`, `endsWith`, `includes`, `String(n)`, UTF-16 `length` and `substring`, `join`, `||` on strings |
| `Json` | parsed JSON values, property access, `Object.keys` |
| `Upstream` | what both routes share: caught errors, fetch outcomes, responses, base-URL cleaning, the HTML and `HTTP n:` scrubbers |
| `ModelsApi` | `src/pages/api/models.ts` |
| `TranslateApi` | `src/pages/api/translate.ts` |
| `I18n` | `src/lib/i18n.ts` |
| `Middleware` | `src/middleware.ts` |
| `UseModels` | `src/hooks/use-models.ts` |
| `UseTranslate` | `src/hooks/use-translate.ts` |
| `Home` | `src/pages/index.tsx` |
| `SettingsDialog` | `src/components/settings-dialog.tsx` |
| `OcrUpload` | `src/components/ocr-upload.tsx` |
| `ApiTest` | `src/components/api-test.tsx` |

### Behaviour worth knowing

- **HTTP statuses after the fallback.** In `translate.ts:126-131`, a non-OK fallback
  throws `new Error("HTTP n: …")`, which has no `status`, and the SDK's own error
  is dropped. So when both paths fail with HTTP 401, the result is not "Invalid API
  key": the 401/403/429/404 branches cannot fire, and the user gets the
  "HTTP 401: …" text itself, the model-unavailable message, or "Translation failed".
  This is stated by `TranslateApi.ClassifyHttpErrorIgnoresStatus`,
  `TranslateApi.FallbackErrorsHaveNoStatus` and `TranslateApi.SdkErrorDiscarded`.
- **The two classifiers differ.** The models route tests substrings of the whole
  message ('401', '403', '404', 'fetch', 'JSON'), so a body that merely mentions
  "401" counts as an invalid key (`ModelsApi.ClassifyModelsSubstringHeuristic`).
  It also removes the first "HTTP n: ". The translate route tests `error.status`
  and 'model', and keeps the "HTTP n: " prefix (`TranslateApi.CleanHttpErrorKeepsPrefix`).
- **Long messages are replaced, not truncated.** Neither route cuts the cleaned
  message to 200 characters. A cleaned message is used only when it is non-empty
  and shorter than 200 UTF-16 units; otherwise the generic message is used.
- **Status order.** The translate classifier tests 429 before 404.
- **No JSON or network categories in translate.** The translate classifier has no
  branch for JSON or network errors.
- **Blank key when listing models.** With a blank key, `useModels.fetchModels`
  reports "API Key Required" and leaves `models` as they are; it does not reset
  them to the built-in list.
- **Non-JSON body.** The models route answers 500 to a body that does not parse.
  The built-in list comes back only because the hook falls back on any failure
  (`UseModels.ModelsHook.CompleteFetch`).
- **A failed image read hangs.** The `FileReader` promise in `processOCR` has no
  `onerror`, so a read that fails never settles: no OCR request is sent and the
  card stays "processing" (`OcrUpload.Card.ProcessOCR`).

## Model

| member | source | states |
|---|---|---|
| JsString.Trim | src/pages/api/models.ts:35 | `trim` yields a slice of its input with neither end whitespace, and everything it cuts off on either side is whitespace |
| JsString.TrimEmptyIffBlank | src/pages/index.tsx:60 | trimming gives "" exactly when the string is all whitespace, which is what `!x.trim()` tests |
| JsString.TrimIdempotent | src/components/settings-dialog.tsx:94 | trimming twice is the same as trimming once |
| JsString.NatToStringRoundTrip | src/pages/api/models.ts:86 | reading back the decimal status in "HTTP n:" gives the status, so distinct statuses give distinct messages |
| JsString.JsLength | src/pages/api/models.ts:160 | `.length` counts UTF-16 units: between one and two per character |
| JsString.JsPrefix | src/pages/api/models.ts:95 | `substring(0, n)` is the longest prefix of at most n UTF-16 units, and the whole string when it already fits |
| JsString.ContainsExtend | src/pages/api/models.ts:138 | `includes` stays true when text is added on either side |
| Assoc.Lookup | src/lib/i18n.ts:185 | a property read finds a value exactly when some member has that name, and the value found is that of a member of that name |
| Assoc.LookupOfDistinct | src/components/ocr-upload.tsx:187-214 | in a table with no repeated name, reading any member's name finds that member's value |
| Json.Get | src/pages/api/models.ts:103 | a property read finds a value exactly when the value is an object with a member of that name |
| Json.Keys | src/pages/api/models.ts:124 | `Object.keys` of an object lists its member names in order |
| Upstream.CleanBaseURL | src/pages/api/models.ts:35-38 | the cleaned base URL is the trimmed input, with "https://" in front when it does not start with "http"; it is "" exactly for a blank input, and otherwise starts with "http" and is trimmed |
| Upstream.CleanBaseURLIdempotent | src/pages/api/models.ts:35-38 | cleaning a cleaned base URL changes nothing |
| Upstream.HttpErrorMessage | src/pages/api/models.ts:86 | the non-OK error message starts "HTTP " and ends with ": " and the body text |
| Upstream.FindCI | src/pages/api/models.ts:157 | the case-insensitive search returns the first position where the pattern matches, and none when it occurs nowhere |
| Upstream.StripHtmlNoDoctype | src/pages/api/models.ts:157 | a message with no doctype opener is unchanged by the HTML-document replacement |
| Upstream.StripHtmlLeadingDocument | src/pages/api/models.ts:157 | a leading document is removed up to its first closing tag (the lazy match), and only the rest is scanned |
| Upstream.StripHtmlKeepsPrefix | src/pages/api/models.ts:157 | text without '<' before the first document survives the replacement |
| Upstream.RemoveHttpStatusPrefixOfHttpError | src/pages/api/models.ts:158 | removing /HTTP \d+: / from "HTTP n: body" leaves the body, for every status |
| Upstream.RemoveHttpStatusPrefixNoMatch | src/pages/api/models.ts:158 | a message with no "HTTP " is unchanged |
| ModelsApi.ResolveModelsUrl | src/pages/api/models.ts:44-56 | first match wins: a base containing "/models" is kept, a base ending "/v1" gets "/models", any other gets "/v1/models"; the result extends the base and contains "/models" |
| ModelsApi.ResolveModelsUrlIdempotent | src/pages/api/models.ts:44-56 | resolving an already resolved URL returns it unchanged |
| ModelsApi.ModelsEndpoint | src/pages/api/models.ts:35-56 | the endpoint built from any baseURL starts with "http" and contains "/models" |
| ModelsApi.ResolveDefault | src/pages/api/models.ts:41-56 | the default base resolves to "https://api.openai.com/v1/models" |
| ModelsApi.DefaultModelsEndpoint | src/pages/api/models.ts:35-56 | a blank or absent baseURL leads to "https://api.openai.com/v1/models" |
| ModelsApi.InvalidJsonMessage | src/pages/api/models.ts:95 | the parse-failure message is "Invalid JSON response: ", the first 200 UTF-16 units of the body and "..."; a body that fits appears whole |
| ModelsApi.SelectModels | src/pages/api/models.ts:99-125 | an array `data.data` wins, then a bare array, then an array `data.models`; a `null` body gives the TypeError that `Object.keys(data)` in the logging line throws; every other shape gives the "Unexpected response format" error naming the keys |
| ModelsApi.Comparable | src/pages/api/models.ts:130 | the comparator runs without throwing exactly when the list has fewer than two entries or every entry has a string id |
| ModelsApi.UpstreamModels | src/pages/api/models.ts:62-125 | a thrown fetch keeps its error; a non-OK status gives "HTTP n: body"; an unparsable body gives the Invalid JSON error; success means an OK, parsed, recognised shape |
| ModelsApi.LexLeqTotal | src/pages/api/models.ts:130 | any two ids are comparable by the order standing for `localeCompare` |
| ModelsApi.LexLeqTrans | src/pages/api/models.ts:130 | that order is transitive |
| ModelsApi.LexLeqAntisymmetric | src/pages/api/models.ts:130 | that order is antisymmetric |
| ModelsApi.SortById | src/pages/api/models.ts:130 | `models.sort` leaves the array ordered by id and a permutation of what it was, and leaves an already ordered array as it was |
| ModelsApi.SortedPrefixExtends | src/pages/api/models.ts:130 | an entry in order with the last one of an ordered prefix extends that prefix |
| ModelsApi.InsertById | src/pages/api/models.ts:130 | one insertion step extends the ordered prefix by one entry and keeps the array a permutation |
| ModelsApi.CleanMessage | src/pages/api/models.ts:156-159 | the scrubbed message is trimmed and no longer than the original |
| ModelsApi.ClassifyModelsError | src/pages/api/models.ts:136-163 | first match over the message, each with its own fixed text: '401', '403' (with the cloudflare/blocked sub-case), '404', then the connection codes, 'fetch', 'JSON'; otherwise the scrubbed message if non-empty and under 200 units, else "Failed to fetch models" |
| ModelsApi.ClassifyModelsFallThrough | src/pages/api/models.ts:154-163 | a message that triggers no branch is shown scrubbed when short and non-empty, else as the generic message |
| ModelsApi.ClassifyModelsHttpBody | src/pages/api/models.ts:154-163 | for an "HTTP n: body" error with a short plain-text body, the user sees exactly the trimmed body |
| ModelsApi.ClassifyModelsSubstringHeuristic | src/pages/api/models.ts:138-139 | any upstream body containing "401" is reported as an invalid key, whatever the status |
| ModelsApi.HandleModels | src/pages/api/models.ts:20-169 | non-POST gives 405 and a missing key gives 400, both before any request; otherwise one request to the resolved endpoint with the bearer key, then 200 with the sorted permutation of the selected list, or 500 with the classified message |
| TranslateApi.Prompt | src/pages/api/translate.ts:63-65 | the prompt is exactly the fixed instruction naming both languages followed by the text verbatim |
| TranslateApi.PromptDeterminesText | src/pages/api/translate.ts:63-65 | the text can be recovered from the prompt: equal prompts for the same languages mean equal texts |
| TranslateApi.ChatRequest | src/pages/api/translate.ts:72-82 | the body names the model asked for, or "gpt-3.5-turbo" when none is given; its one user message is the prompt; temperature 0.3 and max_tokens 2000 |
| TranslateApi.TemperatureIsThreeTenths | src/pages/api/translate.ts:80 | the temperature literal denotes 3/10 |
| TranslateApi.FallbackChatUrl | src/pages/api/translate.ts:103 | the fallback URL ends in "/chat/completions" |
| TranslateApi.FallbackTargetsSdkBase | src/pages/api/translate.ts:48-103 | the fallback URL is the SDK's base URL plus "/chat/completions", with no "/v1" inserted |
| TranslateApi.Completion | src/pages/api/translate.ts:67-132 | the SDK result is used when it returns; only when it throws is the fetch consulted, once, and a non-OK status gives a plain "HTTP n: body" error |
| TranslateApi.ElementZero | src/pages/api/translate.ts:134 | `[0]` on an array is its first item, or undefined when it is empty |
| TranslateApi.GetOpt | src/pages/api/translate.ts:134 | optional chaining yields a value only where the receiver is present |
| TranslateApi.ExtractContent | src/pages/api/translate.ts:134 | a string content of the first choice comes back trimmed; a missing or null content, or an empty `choices` array, gives ""; a null completion, missing or null `choices` and a non-string content give their TypeErrors, which carry no status or code |
| TranslateApi.ExtractContentOfCompletion | src/pages/api/translate.ts:134 | a well-formed completion yields its first choice's content, trimmed |
| TranslateApi.ModelUnavailable | src/pages/api/translate.ts:162 | the model message is 'Model "', the model asked for (or "gpt-3.5-turbo"), and the fixed advice |
| TranslateApi.ModelUnavailableNamesModel | src/pages/api/translate.ts:162 | two equal model messages name the same model |
| TranslateApi.CleanMessage | src/pages/api/translate.ts:165 | the HTML-stripped message is trimmed and no longer than the original |
| TranslateApi.ClassifyTranslateError | src/pages/api/translate.ts:145-169 | first match: status 401, 403 (sub-case), 429, 404, each with its fixed text; for any other status, the connection codes, then "model"; otherwise the cleaned message if non-empty and under 200 units, else "Translation failed" |
| TranslateApi.CleanHttpErrorKeepsPrefix | src/pages/api/translate.ts:165 | unlike the models route, the translate scrubber keeps the "HTTP n: " head |
| TranslateApi.FixedMessagesAreNotHttpErrors | src/pages/api/translate.ts:147-162 | no fixed message starts "HTTP " |
| TranslateApi.ClassifyHttpErrorIgnoresStatus | src/pages/api/translate.ts:126-169 | an "HTTP n: body" error from the fallback is never classified by its status: it comes out as its "HTTP …" text, the model message or "Translation failed" |
| TranslateApi.ClassifyWithoutStatus | src/pages/api/translate.ts:159-169 | with no status and no connection code, a message naming "model" gives the model message, and any other gives the cleaned text or "Translation failed" |
| TranslateApi.ClassifyModelMention | src/pages/api/translate.ts:161-162 | an upstream body mentioning "model" is reported as an unavailable model |
| TranslateApi.TranslateResponse | src/pages/api/translate.ts:134-140 | an error completion gives 500 with its classified message, a failed extraction 500 with the classified TypeError, empty content 500 "Failed to get translation"; otherwise 200 with the trimmed content |
| TranslateApi.FallbackErrorsHaveNoStatus | src/pages/api/translate.ts:126-131 | after the SDK throws, every error the handler can catch has no status |
| TranslateApi.SdkErrorDiscarded | src/pages/api/translate.ts:84-132 | once the SDK throws, its error does not affect the outcome |
| TranslateApi.HandleTranslate | src/pages/api/translate.ts:18-175 | non-POST gives 405; missing text, source or target gives 400 before the key check; a missing key gives 400; otherwise the SDK call, at most one fallback call with the same body, and the response or the classified error |
| I18n.SplitOnDot | src/lib/i18n.ts:185 | splitting on '.' yields at least one segment and no segment holds a dot |
| I18n.JoinSplitOnDot | src/lib/i18n.ts:185 | joining the segments with '.' gives back the path |
| I18n.SplitJoinOnDot | src/lib/i18n.ts:185 | splitting a dot-joined list of dot-free keys gives back the keys |
| I18n.Walk | src/lib/i18n.ts:185 | walking no keys returns the start; once a key meets a missing value or a text leaf, optional chaining gives undefined |
| I18n.WalkAppend | src/lib/i18n.ts:185 | the reduction folds left: walking a + b is walking b from where a ended |
| I18n.WalkDottedPath | src/lib/i18n.ts:185 | a dotted path walks its first segment, then the rest of the path from there |
| I18n.WalkPastLeaf | src/lib/i18n.ts:185 | a walk that has met a missing value or a text leaf stays undefined whatever keys follow |
| I18n.GetNestedValue | src/lib/i18n.ts:184-186 | a text result other than the path is non-empty; a group is returned exactly when the walk ends at a group, and it is the group the walk reached |
| I18n.GetNestedValueFinds | src/lib/i18n.ts:184-186 | a present, non-empty leaf is returned for its dotted path |
| I18n.GetNestedValueMissing | src/lib/i18n.ts:185 | a missing path, or an empty leaf, returns the path itself |
| I18n.NonBraceRun | src/lib/i18n.ts:192 | the scanned key run holds no '}' and stops at one |
| I18n.PlaceholderAt | src/lib/i18n.ts:192 | a match of `{{key}}` has a non-empty key and lies within the text |
| I18n.Interpolate | src/lib/i18n.ts:189-195 | with no variables the template comes back unchanged |
| I18n.SubstituteNoPlaceholder | src/lib/i18n.ts:192 | a template without "{{" is unchanged for any variables |
| I18n.SubstituteAllFalsy | src/lib/i18n.ts:192-194 | when every variable is falsy, all placeholders stay verbatim |
| I18n.SubstitutePlaceholder | src/lib/i18n.ts:192-194 | a placeholder whose trimmed key names a truthy value becomes `String(value)`, and the scan continues after it without rescanning |
| I18n.SubstituteKeepsPlaceholder | src/lib/i18n.ts:192-194 | a placeholder whose trimmed key names no variable, or a falsy one, stays verbatim, and the scan continues after it |
| I18n.SubstitutePlainPrefix | src/lib/i18n.ts:192 | text with no '{' is copied through unchanged ahead of the rest |
| I18n.GetTranslations | src/lib/i18n.ts:226-228 | "zh" gets the Chinese table and every other locale the English one |
| I18n.T | src/lib/i18n.ts:210-217 | `t` is lookup followed by interpolation; interpolating a group is the TypeError |
| I18n.TFallsBackToEnglish | src/lib/i18n.ts:227 | any locale other than "zh" translates as "en" does |
| I18n.TMissingKey | src/lib/i18n.ts:185-216 | a missing key translates to the interpolated key itself |
| Middleware.MapLanguage | src/middleware.ts:32 | zh-CN, zh-SG, zh-TW, zh-HK and zh-MO map to "zh"; every other tag is unchanged |
| Middleware.MapLanguages | src/middleware.ts:32 | the mapping is applied element by element |
| Middleware.GetLocale | src/middleware.ts:17-42 | the locale is always "en" or "zh"; a supported cookie wins; with no cookie and no header, or when the matcher throws, it is "en" |
| Middleware.CookieTakesPrecedence | src/middleware.ts:19-22 | with a supported cookie, Accept-Language has no effect |
| Middleware.RedirectPath | src/middleware.ts:58 | the target starts with "/locale/" and ends with the original path |
| Middleware.RedirectKeepsPath | src/middleware.ts:58 | a path starting with '/' gets just "/locale" in front |
| Middleware.NoRedirectLoop | src/middleware.ts:48-58 | a redirect target never lacks a locale, so it is not redirected again |
| Middleware.RedirectResponse.constructor | src/middleware.ts:57 | a fresh redirect response has the target and no cookies |
| Middleware.RedirectResponse.SetCookie | src/middleware.ts:62-67 | setting a cookie adds or overwrites only that name |
| Middleware.HandleRequest | src/middleware.ts:44-76 | a response is made exactly for a path that the exported matcher accepts and that is missing its locale; it redirects to the chosen locale and sets NEXT_LOCALE with a one-year max age |
| Middleware.ExcludedPathsPassThrough | src/middleware.ts:73-76 | paths under "/api", "/_next/static", "/_next/image" and "/favicon.ico" are outside the matcher, so they are never redirected |
| UseModels.FallbackModel | src/hooks/use-models.ts:19-24 | a fallback entry is an object whose id is the given name |
| UseModels.FetchBody | src/hooks/use-models.ts:46-49 | the request sends the trimmed key, and the trimmed base URL or nothing when it is blank |
| UseModels.ReplyOutcome | src/hooks/use-models.ts:52-61 | a reply is a success exactly when it is OK and carries `models`; otherwise the message is the server's error, or the thrown error's message, or "Failed to fetch models" when that is empty |
| UseModels.ModelsHook.constructor | src/hooks/use-models.ts:27-29 | the initial state is the four fallback models, not loading, no error |
| UseModels.ModelsHook.BeginFetch | src/hooks/use-models.ts:37-38 | loading starts and the error is cleared |
| UseModels.ModelsHook.CompleteFetch | src/hooks/use-models.ts:52-70 | success replaces the models and reports their count; failure records the message, restores the fallback list and reports an error; loading ends either way |
| UseModels.ModelsHook.FetchModels | src/hooks/use-models.ts:31-71 | a blank key reports "API Key Required" with no request and no state change; otherwise one request with the cleaned body and the outcome above |
| UseModels.ModelsHook.ClearModels | src/hooks/use-models.ts:73-76 | the fallback list is restored and the error cleared; nothing else changes |
| UseTranslate.ReplyOutcome | src/hooks/use-translate.ts:43-57 | success exactly for an OK reply, with its text; a non-OK reply's error is the server's, a thrown error's is its message, each "Translation failed" when empty |
| UseTranslate.Translator.constructor | src/hooks/use-translate.ts:21-25 | initially no text, not loading, no error |
| UseTranslate.Translator.Start | src/hooks/use-translate.ts:28-32 | starting clears the text and the error and sets loading |
| UseTranslate.Translator.Finish | src/hooks/use-translate.ts:43-64 | success stores the text with no error, failure stores the message with no text; loading ends |
| UseTranslate.Translator.Translate | src/hooks/use-translate.ts:27-66 | one request with the given options; afterwards loading is off, and the text and the error are never both set |
| UseTranslate.Translator.Reset | src/hooks/use-translate.ts:68-74 | the initial state is restored |
| Home.TargetLanguages | src/pages/index.tsx:116 | the target list holds exactly the languages other than "auto", in no greater number; a one-entry list is kept unless it is "auto"; the OCR card builds its target list with the same filter (`src/components/ocr-upload.tsx:184`) |
| Home.TargetLanguagesAppend | src/pages/index.tsx:116 | the filter of a concatenation is the concatenation of the filters; with the one-entry case this pins the list's order and repetitions |
| Home.TargetLanguagesKeepsOthers | src/pages/index.tsx:116 | a list without "auto" is its own target list |
| Home.Stored | src/pages/index.tsx:42-44 | a stored value is read back, and a missing key reads as "" |
| Home.SwapLanguages | src/pages/index.tsx:88-92 | with "auto" as source nothing is swapped; otherwise source and target trade places |
| Home.SwapTwiceRestores | src/pages/index.tsx:88-98 | swapping twice restores the pair |
| Home.Page.constructor | src/pages/index.tsx:30-37 | the page starts empty, from "auto" to "en", with model "gpt-3.5-turbo" and a fresh translator |
| Home.Page.LoadSettings | src/pages/index.tsx:41-48 | each saved setting that is non-empty replaces the current one; nothing else changes |
| Home.Page.SaveSettings | src/pages/index.tsx:50-57 | the three settings are set and written under their storage keys, and reading them back gives the new values |
| Home.Page.HandleTranslate | src/pages/index.tsx:59-86 | blank input, then a missing key, each give their toast and no request; otherwise one request with the page's fields (base URL omitted when empty) |
| Home.Page.SwapLanguagesOnPage | src/pages/index.tsx:88-98 | the languages swap unless the source is "auto"; a non-empty translation moves into the input and the translator resets |
| Home.Page.Clear | src/pages/index.tsx:110-113 | the input is emptied and the translator reset; languages and settings are kept |
| Home.Page.SetInputText | src/pages/index.tsx:223 | the input text changes; the languages, the settings and the stored values are kept |
| Home.Page.SelectSource | src/pages/index.tsx:155 | the source language changes; the target, the input, the settings and the stored values are kept |
| Home.Page.SelectTarget | src/pages/index.tsx:190 | the target language changes to a language other than "auto"; the source, the input, the settings and the stored values are kept |
| SettingsDialog.ValidateURL | src/components/settings-dialog.tsx:53-62 | a blank URL is valid; otherwise it is valid when it parses, with "https://" added when it does not start with "http" |
| SettingsDialog.SaveCheck | src/components/settings-dialog.tsx:66-94 | a blank key, then an invalid URL, then an empty model are refused in that order; otherwise the trimmed key and URL and the model are saved |
| SettingsDialog.SavedSettingsAreClean | src/components/settings-dialog.tsx:94 | saved settings have a trimmed non-empty key and a URL the routes clean exactly as they would have cleaned the typed one |
| SettingsDialog.CommonEndpointsAreClean | src/components/settings-dialog.tsx:122-126 | every offered endpoint is valid for any URL parser that accepts it, and is left unchanged by base-URL cleaning |
| SettingsDialog.Dialog.constructor | src/components/settings-dialog.tsx:33-38 | the dialog starts closed, with the draft fields copied from the props |
| SettingsDialog.Dialog.ReceiveProps | src/components/settings-dialog.tsx:40-44 | new props replace the settings and the drafts |
| SettingsDialog.Dialog.AutoFetch | src/components/settings-dialog.tsx:47-51 | models are fetched only while the dialog is open and the draft key is not blank |
| SettingsDialog.Dialog.Save | src/components/settings-dialog.tsx:66-100 | saving follows SaveCheck on the drafts; success closes the dialog and hands over the cleaned settings |
| SettingsDialog.Dialog.Cancel | src/components/settings-dialog.tsx:102-108 | cancelling restores the drafts, clears the model list and closes; the props and the loading flag are kept |
| SettingsDialog.Dialog.RefreshModels | src/components/settings-dialog.tsx:110-120 | a blank draft key gives its toast and no request; otherwise the models are fetched |
| SettingsDialog.Dialog.SelectEndpoint | src/components/settings-dialog.tsx:235 | choosing an offered endpoint sets only the draft URL; the props are kept |
| SettingsDialog.Dialog.SetOpen | src/components/settings-dialog.tsx:129 | opening or closing keeps the drafts and the props |
| SettingsDialog.Dialog.EditSettings | src/components/settings-dialog.tsx:149-197 | typing in the form sets the drafts; the props and the open state are kept |
| OcrUpload.GetLanguageFlag | src/components/ocr-upload.tsx:187-214 | a listed code gives its flag from the table; any other gives the globe |
| OcrUpload.GetLanguageFlagOfListed | src/components/ocr-upload.tsx:187-214 | each table entry is what lookup returns for its code |
| OcrUpload.FlagTableHasFlags | src/components/ocr-upload.tsx:188-212 | the table has 23 entries and each is a pair of regional indicators |
| OcrUpload.FlagCodesDistinct | src/components/ocr-upload.tsx:188-212 | no code appears twice in the table |
| OcrUpload.SelectCheck | src/components/ocr-upload.tsx:56-74 | a non-image is refused first, then a file over 10 MiB; a file of exactly 10 MiB is accepted |
| OcrUpload.OcrOutcome | src/components/ocr-upload.tsx:133-159 | text is taken exactly from an OK reply with non-empty text; empty text, a failure and a thrown error each give their toast |
| OcrUpload.Card.constructor | src/components/ocr-upload.tsx:40-47 | no file, not busy, OCR language "eng", target "en", no text |
| OcrUpload.Card.HandleFileSelect | src/components/ocr-upload.tsx:52-81 | an accepted file becomes the selection with its preview; a refused one leaves the selection and gives the toast; the languages, the text and the busy flags are kept |
| OcrUpload.Card.HandleDrop | src/components/ocr-upload.tsx:87-95 | a dropped image becomes the selection; anything else is ignored; the languages, the text and the busy flags are kept |
| OcrUpload.Card.ClearFile | src/components/ocr-upload.tsx:97-106 | the selection and preview are cleared and any preview URL is revoked; the languages, the text and the busy flags are kept |
| OcrUpload.Card.ProcessOCR | src/components/ocr-upload.tsx:108-163 | nothing happens without a selection; a failed read sends nothing and leaves the card processing; otherwise one request in the chosen OCR language, the outcome above, and processing off; the selection, the preview and both languages are kept |
| OcrUpload.Card.HandleTranslate | src/components/ocr-upload.tsx:165-182 | empty text or no callback does nothing; otherwise the text and the target language are handed over, a failing callback gives its toast, and translating is off afterwards; the selection, the preview, the text, both languages and the processing flag are kept |
| OcrUpload.Card.SelectOcrLanguage | src/components/ocr-upload.tsx:247 | the OCR language changes; everything else is kept |
| OcrUpload.Card.SelectTargetLanguage | src/components/ocr-upload.tsx:280 | the target changes to a language other than "auto"; everything else is kept |
| ApiTest.SuccessMessage | src/components/api-test.tsx:56 | the success message quotes the translated text after the fixed head |
| ApiTest.SuccessMessageInjective | src/components/api-test.tsx:56 | different translations give different success messages |
| ApiTest.SuccessMessageOfAbsentText | src/components/api-test.tsx:56 | a missing translation renders as "undefined", the same message as the text "undefined" |
| ApiTest.ProbeResult | src/components/api-test.tsx:53-77 | success exactly for an OK reply; any other reply gives an error status with a non-empty message; never a warning |
| ApiTest.ProbeOptions | src/components/api-test.tsx:41-48 | the probe translates "Hello" from en to zh with the given key and model, and the base URL only when it is non-empty |
| ApiTest.Tester.constructor | src/components/api-test.tsx:14-19 | the tester starts idle with no message |
| ApiTest.Tester.Begin | src/components/api-test.tsx:32-33 | testing starts and the previous result is cleared |
| ApiTest.Tester.Complete | src/components/api-test.tsx:53-85 | the status, message and toast are those of the reply, and testing is off |
| ApiTest.Tester.TestConnection | src/components/api-test.tsx:22-86 | a blank key gives its toast and no request; otherwise one probe request; `testing` is off after every path and the status is never a warning |

## Left out

- Network and SDK calls are not made. Each upstream result (response, status and body, or thrown error with its code) is a parameter, and so is the HTTP exchange the hooks perform.
- The spoofed browser headers (`models.ts:64-76`, `translate.ts:49-58`, `translate.ts:109-122`) are constant literals. A modelled request carries only its URL, the bearer key and its body.
- Logging (`console.log`/`console.error`) is not modelled as output. One argument of it matters: `Object.keys(data)` in the log call at `models.ts:99` throws "Cannot convert undefined or null to object" on a `null` body, and that TypeError becomes the route's 500 message; `ModelsApi.SelectModels` models it.
- `src/pages/api/ocr.ts` is not part of this model. It wraps Tesseract, and its confidence is rounded floating point; the OCR card sees only its reply.
- ModelsApi.SortById: `localeCompare` is locale-sensitive collation. Here it is the code-point lexicographic order. The sort used is an insertion sort: the order reached and the permutation are proved, but not the stability or the algorithm of the JavaScript engine.
- TranslateApi.ChatRequest: the temperature 0.3 is a float, kept as the exact decimal 3·10⁻¹. JSON numbers are integers.
- Json.Keys: `Object.keys` does not move integer-like member names to the front as JavaScript does, and does not model prototype members (`toString`, `constructor`). The same holds for property reads on translation tables, on the flag table and on the i18n `variables` object, so a `{{constructor}}` placeholder stays verbatim here.
- Json.Get: a parsed object is taken to have no repeated member name. With one, the read finds the first member, where `JSON.parse` keeps the last.
- I18n.GetNestedValue: indexing into a string leaf gives undefined, where JavaScript gives a one-character string. Variables are strings or integers. A duplicated key takes its first entry.
- TranslateApi.ExtractContent: content that is not a string gives one fixed TypeError message. `[0]` on a string takes its first character rather than its first UTF-16 unit.
- ModelsApi.Comparable: a list of two or more fails whenever some entry lacks a string id. In JavaScript `localeCompare` converts its argument to a string, so such an entry throws only when it is the left operand `a`, or when the entry itself is null; which entries the engine's sort passes as `a` is not modelled.
- ModelsApi.Comparable: the failure carries one fixed text, "Cannot read properties of undefined (reading 'localeCompare')". The engine's text depends on the entry ("a.id.localeCompare is not a function" for a numeric id, "Cannot read properties of null (reading 'id')" for a null entry), and it reaches the user through the fall-through of `ModelsApi.ClassifyModelsError`.
- SettingsDialog.ValidateURL: the `URL` constructor is a parameter (`parses`).
- Middleware.HandleRequest: `new URL(path, request.url)` is not resolved; the redirect location is the path. Negotiator and `matchLocale` are parameters.
- OcrUpload.Card.ProcessOCR: the FileReader's base64 data URL is a parameter, None for a read that fails. `createObjectURL`/`revokeObjectURL` URLs are given and returned as strings.
- Toast texts produced by `t()`, JSX rendering, theme, layout and the language switcher are not modelled. A toast is a variant naming its case.
- Async scheduling is not modelled: each handler runs to completion as one step. The settings dialog's auto-fetch effect is one `AutoFetch` call per time it runs.
- `handleCopyResult` is not modelled: it writes the system clipboard. `handleDragOver` is not modelled either: it only cancels the browser default.
- ModelsApi.InvalidJsonMessage: `substring(0, 200)` can split a surrogate pair, and the model's prefix stops before one instead.
