/**
 * The popup's translator: `loadI18n` picks the interface language, and the
 * translator it returns looks a key up in the bundled `messages.json`
 * (with the nested `alerts` namespace), or in an English fallback table when
 * the bundle cannot be loaded.
 */
module I18n {
  import opened Js
  import opened JsStrings

  const AlertsPrefix := "alerts."

  /** `messages[key]?.message || key` */
  function Message(messages: map<string, Json>, key: string): Json {
    Or(Get(Get(Some(JObj(messages)), key), "message"), JStr(key))
  }

  /** `key.split('.')[1]` for a key that starts with `alerts.` */
  function AlertSegment(key: string): string
    requires StartsWith(key, AlertsPrefix)
  {
    assert key == "alerts" + ['.'] + key[7..];
    SplitAfterPrefix("alerts", key[7..], '.');
    Split(key, '.')[1]
  }

  /** The translator built from a loaded bundle. */
  function T(messages: map<string, Json>, key: string): Json {
    if StartsWith(key, AlertsPrefix) then
      Or(Get(Get(Get(Some(JObj(messages)), "alerts"), AlertSegment(key)), "message"), JStr(key))
    else
      Message(messages, key)
  }

  /**
   * An `alerts.` key looks up its second dot-segment, the text after the prefix
   * up to the next dot, inside `messages.alerts`; a key without that prefix is
   * looked up at the top level.
   */
  lemma TLookups(messages: map<string, Json>, key: string)
    ensures StartsWith(key, AlertsPrefix) ==>
      var rest := key[|AlertsPrefix|..];
      var seg := if '.' in rest then rest[..IndexOf(rest, '.')] else rest;
      T(messages, key) == Or(Get(Get(Get(Some(JObj(messages)), "alerts"), seg), "message"), JStr(key))
    ensures !StartsWith(key, AlertsPrefix) ==>
      T(messages, key) == Or(Get(Get(Some(JObj(messages)), key), "message"), JStr(key))
  {
    if StartsWith(key, AlertsPrefix) {
      var rest := key[7..];
      assert key == "alerts" + ['.'] + rest;
      SplitAfterPrefix("alerts", rest, '.');
      SplitHead(rest, '.');
    }
  }

  /** A translation is the message found, when truthy, and the key itself in every other case. */
  lemma TResolvesOrEchoes(messages: map<string, Json>, key: string)
    ensures T(messages, key) == JStr(key) || Truthy(T(messages, key))
    ensures key != "" ==> Truthy(T(messages, key))
    ensures !StartsWith(key, AlertsPrefix) && key !in messages ==> T(messages, key) == JStr(key)
    ensures StartsWith(key, AlertsPrefix) && "alerts" !in messages ==> T(messages, key) == JStr(key)
  {
  }

  /** An `alerts.` key is never looked up at the top level, even when the full key is there. */
  lemma AlertsNotAtTopLevel(text: string)
    requires text != ""
    ensures var m := map["alerts.noEmailOpen" := JObj(map["message" := JStr(text)])];
      T(m, "alerts.noEmailOpen") == JStr("alerts.noEmailOpen")
  {
  }

  /** `getFallbackTranslations` */
  const FallbackMessages: map<string, string> := map[
    "alerts.noEmailOpen" := "Please open or display an email first.",
    "alerts.noMessageSelected" := "No message selected.",
    "alerts.apiSettingsMissing" := "Please save API URL, API Key, and Model in settings first.",
    "alerts.sttSettingsMissing" := "Please enter STT API in settings first!",
    "noMessageContextMsg" := "No message or reply draft open. Please open an email or reply first.",
    "generalError" := "Error: ",
    "speechRecognitionError" := "Speech recognition error: ",
    "noInstructionsProvided" := "Please provide instructions for the AI.",
    "popupTitle" := "AI Mail Assistant",
    "settingsBtn" := "⚙️ Settings",
    "voiceInputBtn" := "\U{1F3A4} Voice Input",
    "stopRecordingBtn" := "⏹️ Stop Recording",
    "submitBtn" := "\U{1F4E4} Submit",
    "cancelBtn" := "❌ Cancel",
    "promptInputPlaceholder" := "Enter your instructions for the AI here...",
    "recordingInProgress" := "\U{1F3A4} Recording...",
    "transcribing" := "Transcribing...",
    "generating" := "\U{1F4E4} Generating..."
  ]

  /** `fallbackMessages[key] || key`, over a table of strings. */
  function TableLookup(table: map<string, string>, key: string): (r: string)
    ensures key in table && table[key] != "" ==> r == table[key]
    ensures key !in table || table[key] == "" ==> r == key
  {
    if key in table && table[key] != "" then table[key] else key
  }

  function FallbackT(key: string): string {
    TableLookup(FallbackMessages, key)
  }

  /** The fallback table is keyed by the full key, `alerts.` prefix included. */
  lemma FallbackFullKeys()
    ensures FallbackT("alerts.noEmailOpen") == "Please open or display an email first."
    ensures FallbackT("noEmailOpen") == "noEmailOpen"
    ensures FallbackT("generalError") == "Error: "
  {
  }

  /** Which translator `loadI18n` returns. */
  datatype Translator = Loaded(messages: map<string, Json>) | Fallback

  /** The translator's answer, as the text the page shows. */
  function Translate(tr: Translator, key: string): Json {
    match tr
    case Loaded(m) => T(m, key)
    case Fallback => JStr(FallbackT(key))
  }

  /** `langSetting.uiLanguage || 'en'` */
  function Language(uiLanguage: Option<Json>): (lang: Json)
    ensures !TruthyOpt(uiLanguage) ==> lang == JStr("en")
    ensures TruthyOpt(uiLanguage) ==> lang == uiLanguage.value
  {
    Or(uiLanguage, JStr("en"))
  }

  /**
   * `loadI18n`. `fetchBundle(lang)` is the fetch of `locales/<lang>/messages.json`:
   * the parsed bundle, or `None` when the response is not ok or the fetch fails.
   */
  function LoadI18n(uiLanguage: Option<Json>, fetchBundle: Json -> Option<map<string, Json>>): (r: Translator)
    ensures fetchBundle(Language(uiLanguage)).None? <==> r.Fallback?
    ensures r.Loaded? ==> r.messages == fetchBundle(Language(uiLanguage)).value
  {
    match fetchBundle(Language(uiLanguage))
    case Some(m) => Loaded(m)
    case None => Fallback
  }

  /** Without a stored language the English bundle is requested. */
  lemma DefaultLanguageIsEnglish(fetchBundle: Json -> Option<map<string, Json>>)
    ensures LoadI18n(None, fetchBundle) == LoadI18n(Some(JStr("en")), fetchBundle)
    ensures LoadI18n(Some(JStr("")), fetchBundle) == LoadI18n(Some(JStr("en")), fetchBundle)
  {
  }
}
