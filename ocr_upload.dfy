/** The image-to-text card (components/ocr-upload.tsx): which files it accepts,
    the guards and the `finally` resets of its two asynchronous handlers, and
    the flag shown next to each target language. */
module OcrUpload {
  import opened Wrappers
  import opened JsString
  import opened Home
  import opened Assoc

  // ---------------------------------------------------------------------------
  // getLanguageFlag

  predicate IsUpperAscii(c: char) {
    'A' <= c <= 'Z'
  }

  /** The regional indicator symbol for an ASCII capital letter. */
  function RegionalIndicator(c: char): (r: char)
    requires IsUpperAscii(c)
    ensures 0x1F1E6 <= r as int <= 0x1F1FF
  {
    (0x1F1E6 + (c as int - 'A' as int)) as char
  }

  /** A flag emoji: the two regional indicators of an ISO 3166 region code. */
  function Flag(region: string): (r: string)
    requires |region| == 2 && IsUpperAscii(region[0]) && IsUpperAscii(region[1])
    ensures |r| == 2
  {
    [RegionalIndicator(region[0]), RegionalIndicator(region[1])]
  }

  /** Two regional indicator symbols. */
  predicate IsFlag(s: string) {
    |s| == 2 && 0x1F1E6 <= s[0] as int <= 0x1F1FF && 0x1F1E6 <= s[1] as int <= 0x1F1FF
  }

  /** The globe with meridians, for a code without a flag. */
  const Globe := "\U{1F310}"

  /** `flagMap`, in its order. */
  const FlagTable: seq<(string, string)> := [
    ("en", Flag("US")), ("zh", Flag("CN")), ("zh-cn", Flag("CN")), ("zh-tw", Flag("TW")),
    ("ja", Flag("JP")), ("ko", Flag("KR")), ("es", Flag("ES")), ("fr", Flag("FR")),
    ("de", Flag("DE")), ("it", Flag("IT")), ("pt", Flag("PT")), ("ru", Flag("RU")),
    ("ar", Flag("SA")), ("hi", Flag("IN")), ("th", Flag("TH")), ("vi", Flag("VN")),
    ("nl", Flag("NL")), ("sv", Flag("SE")), ("no", Flag("NO")), ("da", Flag("DK")),
    ("fi", Flag("FI")), ("pl", Flag("PL")), ("tr", Flag("TR"))]

  /** `getLanguageFlag(code)`: `flagMap[code] || "🌐"`. */
  function GetLanguageFlag(code: string): (r: string)
    ensures (exists i :: 0 <= i < |FlagTable| && FlagTable[i].0 == code) ==> IsFlag(r) && (code, r) in FlagTable
    ensures (forall i :: 0 <= i < |FlagTable| ==> FlagTable[i].0 != code) ==> r == Globe
  {
    FlagTableHasFlags();
    match Lookup(FlagTable, code)
    case Some(f) => OrElse(f, Globe)
    case None => Globe
  }

  /** Every entry of the table is a flag, so `|| "🌐"` never replaces one. */
  lemma FlagTableHasFlags()
    ensures |FlagTable| == 23
    ensures forall i :: 0 <= i < |FlagTable| ==> IsFlag(FlagTable[i].1)
  {
  }

  /** The codes of the table are pairwise distinct. */
  lemma FlagCodesDistinct()
    ensures forall i, j :: 0 <= i < j < |FlagTable| ==> FlagTable[i].0 != FlagTable[j].0
  {
  }

  /** Each listed code gets its own flag. */
  lemma GetLanguageFlagOfListed(i: nat)
    requires i < |FlagTable|
    ensures GetLanguageFlag(FlagTable[i].0) == FlagTable[i].1
  {
    FlagCodesDistinct();
    FlagTableHasFlags();
    LookupOfDistinct(FlagTable, i);
  }

  // ---------------------------------------------------------------------------
  // The card's state and handlers

  /** The part of a `File` the card looks at. */
  datatype ImageFile = ImageFile(name: string, mimeType: string, size: nat)

  /** `10 * 1024 * 1024` bytes. */
  const MaxFileSize: nat := 10 * 1024 * 1024

  predicate IsImage(f: ImageFile) {
    StartsWith(f.mimeType, "image/")
  }

  datatype Toast =
    | InvalidFileType
    | FileTooLarge
    | TextExtracted(confidence: int)
    | NoTextFound
    | OcrFailed(description: string)
    | TranslationFailed(description: string)

  /** What `/api/ocr` answered: the status flag with the body's `text` and
      `error` (absent is "") and `confidence`, or the message of an error thrown
      by `fetch` or `response.json()`. */
  datatype OcrReply = Reply(ok: bool, text: string, error: string, confidence: int) | Threw(message: string)

  /** The body posted to `/api/ocr`. */
  datatype OcrRequest = OcrRequest(imageData: string, language: string)

  const OcrProcessingFailed := "OCR processing failed"

  /** The file-select checks: the type first, then the size limit (a file of
      exactly 10 MiB passes). */
  function SelectCheck(file: ImageFile): (r: Option<Toast>)
    ensures r.None? <==> IsImage(file) && file.size <= MaxFileSize
    ensures !IsImage(file) ==> r == Some(InvalidFileType)
    ensures IsImage(file) && file.size > MaxFileSize ==> r == Some(FileTooLarge)
  {
    if !IsImage(file) then Some(InvalidFileType)
    else if file.size > MaxFileSize then Some(FileTooLarge)
    else None
  }

  /** The result of one OCR request: the toast, and the text if one was found. */
  function OcrOutcome(reply: OcrReply): (r: (Toast, Option<string>))
    ensures r.1.Some? <==> reply.Reply? && reply.ok && reply.text != ""
    ensures r.1.Some? ==> r.1.value == reply.text && r.0 == TextExtracted(reply.confidence)
    ensures reply.Reply? && !reply.ok ==> r == (OcrFailed(OrElse(reply.error, OcrProcessingFailed)), None)
    ensures reply.Reply? && reply.ok && reply.text == "" ==> r == (NoTextFound, None)
    ensures reply.Threw? ==> r == (OcrFailed(reply.message), None)
  {
    match reply
    case Reply(ok, text, error, confidence) =>
      if !ok then (OcrFailed(OrElse(error, OcrProcessingFailed)), None)
      else if text != "" then (TextExtracted(confidence), Some(text))
      else (NoTextFound, None)
    case Threw(message) => (OcrFailed(message), None)
  }

  class Card {
    var selectedFile: Option<ImageFile>
    var previewUrl: string
    var isProcessing: bool
    var isTranslating: bool
    var ocrLanguage: string
    var targetLanguage: string
    var extractedText: string

    /** A selected file is an image and has a preview, and the target is
        never "auto". The busy flags are not part of it: a read that never
        completes leaves the card processing for good. */
    ghost predicate Valid()
      reads this
    {
      && (selectedFile.Some? ==> IsImage(selectedFile.value))
      && (selectedFile.Some? <==> previewUrl != "")
      && targetLanguage != "auto"
    }

    constructor ()
      ensures Valid()
      ensures selectedFile.None? && previewUrl == "" && !isProcessing && !isTranslating
      ensures ocrLanguage == "eng" && targetLanguage == "en" && extractedText == ""
    {
      selectedFile, previewUrl := None, "";
      isProcessing, isTranslating := false, false;
      ocrLanguage, targetLanguage, extractedText := "eng", "en", "";
    }

    /** Everything but the selection and its preview is as it was. */
    twostate predicate OnlySelectionChanged()
      reads this
    {
      && isProcessing == old(isProcessing) && isTranslating == old(isTranslating)
      && ocrLanguage == old(ocrLanguage) && targetLanguage == old(targetLanguage)
      && extractedText == old(extractedText)
    }

    /** `handleFileSelect`: no file changes nothing, a rejected file only raises
        its toast, and an accepted one becomes the selection with its preview
        (`objectUrl` is what `URL.createObjectURL` returns). */
    method HandleFileSelect(file: Option<ImageFile>, objectUrl: string) returns (toast: Option<Toast>)
      requires Valid() && objectUrl != ""
      modifies this
      ensures Valid() && OnlySelectionChanged()
      ensures file.None? ==> toast.None? && selectedFile == old(selectedFile) && previewUrl == old(previewUrl)
      ensures file.Some? ==> toast == SelectCheck(file.value)
      ensures file.Some? && toast.Some? ==> selectedFile == old(selectedFile) && previewUrl == old(previewUrl)
      ensures file.Some? && toast.None? ==> selectedFile == file && previewUrl == objectUrl
    {
      if file.None? {
        return None;
      }
      toast := SelectCheck(file.value);
      if toast.None? {
        selectedFile := file;
        previewUrl := objectUrl;
      }
    }

    /** `handleDrop`: an image of any size is taken, anything else ignored. */
    method HandleDrop(file: Option<ImageFile>, objectUrl: string)
      requires Valid() && objectUrl != ""
      modifies this
      ensures Valid() && OnlySelectionChanged()
      ensures file.Some? && IsImage(file.value) ==> selectedFile == file && previewUrl == objectUrl
      ensures !(file.Some? && IsImage(file.value)) ==> selectedFile == old(selectedFile) && previewUrl == old(previewUrl)
    {
      if file.Some? && IsImage(file.value) {
        selectedFile := file;
        previewUrl := objectUrl;
      }
    }

    /** `clearFile`: no selection and no preview; the old preview URL, if any,
        is the one revoked. */
    method ClearFile() returns (revoked: Option<string>)
      requires Valid()
      modifies this
      ensures Valid() && OnlySelectionChanged()
      ensures selectedFile.None? && previewUrl == ""
      ensures old(previewUrl) != "" ==> revoked == Some(old(previewUrl))
      ensures old(previewUrl) == "" ==> revoked.None?
    {
      selectedFile := None;
      revoked := None;
      if previewUrl != "" {
        revoked := Some(previewUrl);
        previewUrl := "";
      }
    }

    /** `processOCR`, with the data URL the `FileReader` produces (None when
        the read fails: the promise has no `onerror`, so it never settles) and
        the reply of `/api/ocr` as parameters; `extracted` is what
        `onTextExtracted` receives. Its button is disabled while processing.
        Without a selection nothing happens; a failed read sends nothing and
        leaves the card processing; otherwise the card ends not processing. */
    method ProcessOCR(dataUrl: Option<string>, reply: OcrReply)
      returns (request: Option<OcrRequest>, toast: Option<Toast>, extracted: Option<string>)
      requires Valid() && !isProcessing
      modifies this
      ensures Valid()
      ensures old(selectedFile).None? ==>
                request.None? && toast.None? && extracted.None? && !isProcessing
      ensures old(selectedFile).Some? && dataUrl.None? ==>
                request.None? && toast.None? && extracted.None? && isProcessing
      ensures old(selectedFile).Some? && dataUrl.Some? ==>
                request == Some(OcrRequest(dataUrl.value, ocrLanguage))
                && toast == Some(OcrOutcome(reply).0) && extracted == OcrOutcome(reply).1
                && !isProcessing
      ensures extractedText == (if extracted.Some? then extracted.value else old(extractedText))
      ensures selectedFile == old(selectedFile) && previewUrl == old(previewUrl)
      ensures ocrLanguage == old(ocrLanguage) && targetLanguage == old(targetLanguage)
      ensures isTranslating == old(isTranslating)
    {
      if selectedFile.None? {
        return None, None, None;
      }
      isProcessing := true;
      if dataUrl.None? {
        return None, None, None;
      }
      request := Some(OcrRequest(dataUrl.value, ocrLanguage));
      var outcome := OcrOutcome(reply);
      extracted := outcome.1;
      if extracted.Some? {
        extractedText := extracted.value;
      }
      toast := Some(outcome.0);
      isProcessing := false;
    }

    /** `handleTranslate`, with `failure` the message of an error the page's
        callback throws; its button is disabled while translating. Nothing
        happens without text or without a callback; otherwise the text and the
        target are handed over, and the card is never left translating. */
    method HandleTranslate(hasCallback: bool, failure: Option<string>)
      returns (request: Option<(string, string)>, toast: Option<Toast>)
      requires Valid() && !isTranslating
      modifies this
      ensures Valid() && !isTranslating
      ensures extractedText == "" || !hasCallback ==>
                request.None? && toast.None?
      ensures extractedText != "" && hasCallback ==>
                request == Some((extractedText, targetLanguage))
                && toast == (if failure.Some? then Some(TranslationFailed(failure.value)) else None)
      ensures extractedText == old(extractedText) && selectedFile == old(selectedFile)
      ensures previewUrl == old(previewUrl) && isProcessing == old(isProcessing)
      ensures ocrLanguage == old(ocrLanguage) && targetLanguage == old(targetLanguage)
    {
      if extractedText == "" || !hasCallback {
        return None, None;
      }
      isTranslating := true;
      request := Some((extractedText, targetLanguage));
      toast := if failure.Some? then Some(TranslationFailed(failure.value)) else None;
      isTranslating := false;
    }

    /** The OCR language select (`setOcrLanguage`). */
    method SelectOcrLanguage(code: string)
      requires Valid()
      modifies this
      ensures Valid() && ocrLanguage == code
      ensures selectedFile == old(selectedFile) && previewUrl == old(previewUrl)
      ensures isProcessing == old(isProcessing) && isTranslating == old(isTranslating)
      ensures targetLanguage == old(targetLanguage) && extractedText == old(extractedText)
    {
      ocrLanguage := code;
    }

    /** The target select (`setTargetLanguage`) offers TargetLanguages only. */
    method SelectTargetLanguage(code: string)
      requires Valid() && code != "auto"
      modifies this
      ensures Valid() && targetLanguage == code
      ensures selectedFile == old(selectedFile) && previewUrl == old(previewUrl)
      ensures isProcessing == old(isProcessing) && isTranslating == old(isTranslating)
      ensures ocrLanguage == old(ocrLanguage) && extractedText == old(extractedText)
    {
      targetLanguage := code;
    }
  }
}
