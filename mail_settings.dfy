/**
 * The settings page of the AI Mail Assistant variant: its import (which needs
 * both `chat` and `stt` and keeps `contextSize`/`includeSender` inside `chat`),
 * the defaults `loadSettings` shows in the form, the API test's refusal to send
 * with empty fields, and the page's translators.
 */
module MailSettings {
  import opened Js
  import opened JsStrings
  import I18n
  import Storage

  datatype Chat = Chat(
    apiUrl: Json, apiKey: Json, model: Json, temperature: Json, maxTokens: Json, systemPrompt: Json,
    contextSize: Json, includeSender: Json)
  datatype Stt = Stt(apiUrl: Json, apiKey: Json, model: Json, language: Json)
  datatype Settings = Settings(uiLanguage: Json, chat: Chat, stt: Stt)

  /** A `null` document throws on `.chat`; any other document without both namespaces is refused. */
  datatype ImportError = NullDocument | InvalidFormat(message: string)

  const FormatErrorFallback := "Invalid file format"
  const ImportedKeys: set<string> := {"uiLanguage", "chat", "stt"}

  function ChatObject(c: Chat): Json {
    JObj(map["apiUrl" := c.apiUrl, "apiKey" := c.apiKey, "model" := c.model, "temperature" := c.temperature,
             "maxTokens" := c.maxTokens, "systemPrompt" := c.systemPrompt, "contextSize" := c.contextSize,
             "includeSender" := c.includeSender])
  }

  function SttObject(s: Stt): Json {
    JObj(map["apiUrl" := s.apiUrl, "apiKey" := s.apiKey, "model" := s.model, "language" := s.language])
  }

  /** The object handed to `storage.local.set`: there is no `extension` key in this variant. */
  function ToStorage(s: Settings): (m: map<string, Json>)
    ensures m.Keys == ImportedKeys && "extension" !in m
  {
    map["uiLanguage" := s.uiLanguage, "chat" := ChatObject(s.chat), "stt" := SttObject(s.stt)]
  }

  function NormaliseChat(chat: Option<Json>): Chat {
    Chat(Or(Get(chat, "apiUrl"), JStr("")), Or(Get(chat, "apiKey"), JStr("")),
         Or(Get(chat, "model"), JStr("gpt-4o-mini")), Or(Get(chat, "temperature"), JNum(1.0)),
         Or(Get(chat, "maxTokens"), JNum(2000.0)), Or(Get(chat, "systemPrompt"), JStr("")),
         Or(Get(chat, "contextSize"), JNum(5.0)), Or(Get(chat, "includeSender"), JBool(false)))
  }

  function NormaliseStt(stt: Option<Json>): Stt {
    Stt(Or(Get(stt, "apiUrl"), JStr("")), Or(Get(stt, "apiKey"), JStr("")),
        Or(Get(stt, "model"), JStr("whisper-1")), Or(Get(stt, "language"), JStr("")))
  }

  /** `settingsToImport` */
  function Normalise(data: Json): Settings {
    Settings(Or(Get(Some(data), "uiLanguage"), JStr("en")),
             NormaliseChat(Get(Some(data), "chat")), NormaliseStt(Get(Some(data), "stt")))
  }

  /** The import decision; `errorText` is `t("importErrorMsg")`. */
  function Import(data: Json, errorText: string): (r: Result<Settings, ImportError>)
    ensures r.Failure? <==> !TruthyOpt(Get(Some(data), "chat")) || !TruthyOpt(Get(Some(data), "stt"))
    ensures r.Failure? && data.JNull? ==> r.error == NullDocument
    ensures r.Failure? && !data.JNull? ==>
      r.error == InvalidFormat(if errorText != "" then errorText else FormatErrorFallback)
  {
    if data.JNull? then Failure(NullDocument)
    else if !TruthyOpt(Get(Some(data), "chat")) || !TruthyOpt(Get(Some(data), "stt")) then
      Failure(InvalidFormat(if errorText != "" then errorText else FormatErrorFallback))
    else Success(Normalise(data))
  }

  /** `importSettings` after parsing: merge the three keys on success, write nothing on failure. */
  method ImportSettings(store: Storage.LocalStorage, data: Json, errorText: string)
    returns (r: Result<Settings, ImportError>)
    modifies store
    ensures r == Import(data, errorText)
    ensures r.Failure? ==> store.items == old(store.items)
    ensures r.Success? ==> store.items == old(store.items) + ToStorage(r.value)
  {
    r := Import(data, errorText);
    if r.Success? {
      store.Set(ToStorage(r.value));
    }
  }

  /** Truthy fields pass through unchanged; falsy or missing ones take their default. */
  lemma NormaliseFields(data: Json)
    ensures var s, chat, stt := Normalise(data), Get(Some(data), "chat"), Get(Some(data), "stt");
      && DefaultsTo(s.uiLanguage, Get(Some(data), "uiLanguage"), JStr("en"))
      && DefaultsTo(s.chat.apiUrl, Get(chat, "apiUrl"), JStr(""))
      && DefaultsTo(s.chat.apiKey, Get(chat, "apiKey"), JStr(""))
      && DefaultsTo(s.chat.model, Get(chat, "model"), JStr("gpt-4o-mini"))
      && DefaultsTo(s.chat.temperature, Get(chat, "temperature"), JNum(1.0))
      && DefaultsTo(s.chat.maxTokens, Get(chat, "maxTokens"), JNum(2000.0))
      && DefaultsTo(s.chat.systemPrompt, Get(chat, "systemPrompt"), JStr(""))
      && DefaultsTo(s.chat.contextSize, Get(chat, "contextSize"), JNum(5.0))
      && DefaultsTo(s.chat.includeSender, Get(chat, "includeSender"), JBool(false))
      && DefaultsTo(s.stt.apiUrl, Get(stt, "apiUrl"), JStr(""))
      && DefaultsTo(s.stt.apiKey, Get(stt, "apiKey"), JStr(""))
      && DefaultsTo(s.stt.model, Get(stt, "model"), JStr("whisper-1"))
      && DefaultsTo(s.stt.language, Get(stt, "language"), JStr(""))
  {
  }

  predicate NormalChat(c: Chat) {
    Settled(c.apiUrl, JStr("")) && Settled(c.apiKey, JStr("")) && Settled(c.model, JStr("gpt-4o-mini"))
    && Settled(c.temperature, JNum(1.0)) && Settled(c.maxTokens, JNum(2000.0)) && Settled(c.systemPrompt, JStr(""))
    && Settled(c.contextSize, JNum(5.0)) && Settled(c.includeSender, JBool(false))
  }

  predicate NormalStt(t: Stt) {
    Settled(t.apiUrl, JStr("")) && Settled(t.apiKey, JStr("")) && Settled(t.model, JStr("whisper-1"))
    && Settled(t.language, JStr(""))
  }

  predicate Normal(s: Settings) {
    Settled(s.uiLanguage, JStr("en")) && NormalChat(s.chat) && NormalStt(s.stt)
  }

  lemma NormaliseIsNormal(data: Json)
    ensures Normal(Normalise(data))
  {
  }

  lemma NormaliseChatOfNormal(c: Chat)
    requires NormalChat(c)
    ensures NormaliseChat(Some(ChatObject(c))) == c
  {
    OrSettled(c.apiUrl, JStr(""));
    OrSettled(c.apiKey, JStr(""));
    OrSettled(c.model, JStr("gpt-4o-mini"));
    OrSettled(c.temperature, JNum(1.0));
    OrSettled(c.maxTokens, JNum(2000.0));
    OrSettled(c.systemPrompt, JStr(""));
    OrSettled(c.contextSize, JNum(5.0));
    OrSettled(c.includeSender, JBool(false));
  }

  lemma NormaliseSttOfNormal(t: Stt)
    requires NormalStt(t)
    ensures NormaliseStt(Some(SttObject(t))) == t
  {
    OrSettled(t.apiUrl, JStr(""));
    OrSettled(t.apiKey, JStr(""));
    OrSettled(t.model, JStr("whisper-1"));
    OrSettled(t.language, JStr(""));
  }

  /** A document with truthy `chat` and `stt` is accepted and normalised. */
  lemma ImportAccepts(data: Json, errorText: string)
    requires TruthyOpt(Get(Some(data), "chat")) && TruthyOpt(Get(Some(data), "stt"))
    ensures Import(data, errorText) == Success(Normalise(data))
  {
  }

  /** Normalising an object that holds the stored form of each part of a normal record gives the record back. */
  lemma NormaliseOfParts(m: map<string, Json>, s: Settings)
    requires Normal(s)
    requires "uiLanguage" in m && m["uiLanguage"] == s.uiLanguage
    requires "chat" in m && m["chat"] == ChatObject(s.chat)
    requires "stt" in m && m["stt"] == SttObject(s.stt)
    ensures Normalise(JObj(m)) == s
  {
    NormaliseChatOfNormal(s.chat);
    NormaliseSttOfNormal(s.stt);
    OrSettled(s.uiLanguage, JStr("en"));
  }

  /** Importing the stored form of a normal record succeeds and gives the record back. */
  lemma ImportOfNormal(s: Settings, errorText: string)
    requires Normal(s)
    ensures Import(JObj(ToStorage(s)), errorText) == Success(s)
  {
    var m := ToStorage(s);
    assert m["chat"] == ChatObject(s.chat) && m["stt"] == SttObject(s.stt);
    ImportAccepts(JObj(m), errorText);
    NormaliseOfParts(m, s);
  }

  /** Normalisation is idempotent: re-importing what an import wrote gives the same record. */
  lemma ImportIdempotent(data: Json, errorText: string)
    requires Import(data, errorText).Success?
    ensures Import(JObj(ToStorage(Normalise(data))), errorText) == Success(Normalise(data))
  {
    NormaliseIsNormal(data);
    ImportOfNormal(Normalise(data), errorText);
  }

  // ---------------------------------------------------------------------------
  // loadSettings
  // ---------------------------------------------------------------------------

  /** The values `loadSettings` puts into the form's fields, before the DOM turns them into text. */
  datatype Form = Form(
    chatApiUrl: Json, chatApiKey: Json, chatModel: Json, chatTemperature: Json, chatMaxTokens: Json,
    chatSystemPrompt: Json, chatContextSize: Json, chatIncludeSender: bool,
    sttApiUrl: Json, sttApiKey: Json, sttModel: Json, sttLanguage: Json,
    uiLanguage: Json)

  /**
   * `loadSettings`: every field from the store with its default; the language
   * selector only on the first load of the page (`initialLanguageSet` false),
   * with a default of "de". Returns the new form and the new flag. A falsy
   * `stt` is replaced by `{}`, which reads like a store without `stt`.
   */
  function LoadSettings(stored: map<string, Json>, form: Form, initialLanguageSet: bool): (r: (Form, bool))
    ensures var chat := Get(Some(JObj(stored)), "chat");
      && DefaultsTo(r.0.chatApiUrl, Get(chat, "apiUrl"), JStr(""))
      && DefaultsTo(r.0.chatApiKey, Get(chat, "apiKey"), JStr(""))
      && DefaultsTo(r.0.chatModel, Get(chat, "model"), JStr("gpt-4o-mini"))
      && DefaultsTo(r.0.chatTemperature, Get(chat, "temperature"), JNum(1.0))
      && DefaultsTo(r.0.chatMaxTokens, Get(chat, "maxTokens"), JNum(2000.0))
      && DefaultsTo(r.0.chatSystemPrompt, Get(chat, "systemPrompt"), JStr(""))
      && DefaultsTo(r.0.chatContextSize, Get(chat, "contextSize"), JNum(5.0))
      && r.0.chatIncludeSender == TruthyOpt(Get(chat, "includeSender"))
    ensures var stt := Get(Some(JObj(stored)), "stt");
      && DefaultsTo(r.0.sttApiUrl, Get(stt, "apiUrl"), JStr(""))
      && DefaultsTo(r.0.sttApiKey, Get(stt, "apiKey"), JStr(""))
      && DefaultsTo(r.0.sttModel, Get(stt, "model"), JStr("whisper-1"))
      && DefaultsTo(r.0.sttLanguage, Get(stt, "language"), JStr(""))
    ensures initialLanguageSet ==> r.0.uiLanguage == form.uiLanguage
    ensures !initialLanguageSet ==> DefaultsTo(r.0.uiLanguage, Get(Some(JObj(stored)), "uiLanguage"), JStr("de"))
    ensures r.1
  {
    var d := Some(JObj(stored));
    var chat := Get(d, "chat");
    var stt := Some(Or(Get(d, "stt"), JObj(map[])));
    var f := Form(
      Or(Get(chat, "apiUrl"), JStr("")), Or(Get(chat, "apiKey"), JStr("")),
      Or(Get(chat, "model"), JStr("gpt-4o-mini")), Or(Get(chat, "temperature"), JNum(1.0)),
      Or(Get(chat, "maxTokens"), JNum(2000.0)), Or(Get(chat, "systemPrompt"), JStr("")),
      Or(Get(chat, "contextSize"), JNum(5.0)), Truthy(Or(Get(chat, "includeSender"), JBool(false))),
      Or(Get(stt, "apiUrl"), JStr("")), Or(Get(stt, "apiKey"), JStr("")),
      Or(Get(stt, "model"), JStr("whisper-1")), Or(Get(stt, "language"), JStr("")),
      if initialLanguageSet then form.uiLanguage else Or(Get(d, "uiLanguage"), JStr("de")));
    (f, true)
  }

  /** The language default differs: "en" when importing, "de" when the empty form is first shown. */
  lemma LanguageDefaults(data: Json, errorText: string, form: Form)
    requires Import(data, errorText).Success? && Get(Some(data), "uiLanguage") == None
    ensures Import(data, errorText).value.uiLanguage == JStr("en")
    ensures LoadSettings(map[], form, false).0.uiLanguage == JStr("de")
  {
  }

  /**
   * A store without `chat` shows the chat defaults, and a stored temperature of
   * 0 is shown as 1, since `||` treats 0 as unset.
   */
  lemma LoadShowsDefaults(stored: map<string, Json>, form: Form)
    requires "chat" !in stored
    ensures var f := LoadSettings(stored, form, true).0;
      f.chatModel == JStr("gpt-4o-mini") && f.chatTemperature == JNum(1.0) && f.chatMaxTokens == JNum(2000.0)
      && f.chatContextSize == JNum(5.0) && !f.chatIncludeSender
    ensures LoadSettings(stored["chat" := JObj(map["temperature" := JNum(0.0)])], form, true).0.chatTemperature
         == JNum(1.0)
  {
  }

  /** Loading from a store whose `chat` and `stt` are normal records shows exactly their values. */
  lemma LoadOfParts(m: map<string, Json>, c: Chat, t: Stt, form: Form)
    requires NormalChat(c) && NormalStt(t)
    requires "chat" in m && m["chat"] == ChatObject(c)
    requires "stt" in m && m["stt"] == SttObject(t)
    ensures LoadSettings(m, form, true).0
         == Form(c.apiUrl, c.apiKey, c.model, c.temperature, c.maxTokens, c.systemPrompt, c.contextSize,
                 Truthy(c.includeSender), t.apiUrl, t.apiKey, t.model, t.language, form.uiLanguage)
  {
    NormaliseChatOfNormal(c);
    NormaliseSttOfNormal(t);
  }

  /**
   * After a successful import the page reloads the form from the store, and the
   * form shows exactly the imported chat and stt values; the language selector,
   * already set, keeps its value.
   */
  lemma ImportThenLoad(others: map<string, Json>, data: Json, errorText: string, form: Form)
    requires Import(data, errorText).Success?
    ensures var s := Normalise(data);
      var f := LoadSettings(others + ToStorage(s), form, true).0;
      && f.chatApiUrl == s.chat.apiUrl && f.chatApiKey == s.chat.apiKey && f.chatModel == s.chat.model
      && f.chatTemperature == s.chat.temperature && f.chatMaxTokens == s.chat.maxTokens
      && f.chatSystemPrompt == s.chat.systemPrompt && f.chatContextSize == s.chat.contextSize
      && f.chatIncludeSender == Truthy(s.chat.includeSender)
      && f.sttApiUrl == s.stt.apiUrl && f.sttApiKey == s.stt.apiKey && f.sttModel == s.stt.model
      && f.sttLanguage == s.stt.language
      && f.uiLanguage == form.uiLanguage
  {
    var s := Normalise(data);
    NormaliseIsNormal(data);
    var m := others + ToStorage(s);
    assert m["chat"] == ChatObject(s.chat) && m["stt"] == SttObject(s.stt);
    LoadOfParts(m, s.chat, s.stt, form);
  }

  // ---------------------------------------------------------------------------
  // testApi
  // ---------------------------------------------------------------------------

  datatype ChatMessage = ChatMessage(role: string, content: string)

  /** The probe request `testApi` sends. */
  datatype TestRequest = TestRequest(
    url: string, authorization: string, model: string, messages: seq<ChatMessage>,
    maxTokens: int, temperature: real)

  /**
   * `testApi` up to the fetch: the three form fields are trimmed, and the test is
   * refused (status `t("testApiMissingSettings")`, no request) when any of them
   * is then empty.
   */
  function TestApiRequest(apiUrl: string, apiKey: string, model: string): (r: Result<TestRequest, string>)
    ensures r.Failure? <==> IsBlank(apiUrl) || IsBlank(apiKey) || IsBlank(model)
    ensures r.Failure? ==> r.error == "testApiMissingSettings"
    ensures r.Success? ==>
      && r.value.url == Trim(apiUrl) && r.value.model == Trim(model)
      && r.value.authorization == "Bearer " + Trim(apiKey)
      && r.value.maxTokens == 50 && r.value.temperature == 0.1
  {
    var url, key, m := Trim(apiUrl), Trim(apiKey), Trim(model);
    if url == "" || key == "" || m == "" then Failure("testApiMissingSettings")
    else Success(TestRequest(url, "Bearer " + key, m,
      [ChatMessage("system", "You are a test assistant."),
       ChatMessage("user", "Hello, this is a test. Please respond with 'Test successful'.")],
      50, 0.1))
  }

  /** A request is sent only with fields that are non-empty and carry no surrounding whitespace. */
  lemma TestApiFieldsClean(apiUrl: string, apiKey: string, model: string)
    requires TestApiRequest(apiUrl, apiKey, model).Success?
    ensures var q := TestApiRequest(apiUrl, apiKey, model).value;
      q.url != "" && Trimmed(q.url) && q.model != "" && Trimmed(q.model)
  {
    TrimIdempotent(apiUrl);
    TrimIdempotent(model);
  }

  /** A field holding only whitespace counts as empty. */
  lemma WhitespaceFieldRefused(apiUrl: string, model: string)
    ensures TestApiRequest(apiUrl, " \t", model).Failure?
  {
    assert TrimStart(" \t") == "";
  }

  // ---------------------------------------------------------------------------
  // Translators of the settings page
  // ---------------------------------------------------------------------------

  /**
   * `t`, built from a loaded bundle, is the top-level `messages[key]?.message || key`:
   * the message when that is truthy, the key otherwise.
   */
  lemma TLookup(messages: map<string, Json>, key: string)
    ensures key in messages && TruthyOpt(Get(Some(messages[key]), "message")) ==>
      I18n.Message(messages, key) == Get(Some(messages[key]), "message").value
    ensures !(key in messages && TruthyOpt(Get(Some(messages[key]), "message"))) ==>
      I18n.Message(messages, key) == JStr(key)
  {
  }

  const FallbackMessages: map<string, string> := map[
    "extensionName" := "AI Mail Assistant",
    "settingsTitle" := "AI Mail Assistant Settings",
    "saveBtn" := "Save Settings",
    "languageLabel" := "Interface Language:",
    "languageDesc" := "Choose the user interface language",
    "savedMsg" := "Settings saved successfully!",
    "chatSettings" := "Chat API Settings",
    "apiUrlLabel" := "API URL:",
    "apiUrlPlaceholder" := "https://api.openai.com/v1/chat/completions",
    "apiUrlDesc" := "Endpoint for your model (e.g. OpenAI or local ULAMA server)",
    "apiKeyLabel" := "API Key:",
    "apiKeyPlaceholder" := "sk-xxxxxxxxxxxx",
    "apiKeyDesc" := "Your API key from the provider (e.g. OpenAI, Ollama etc.)",
    "modelLabel" := "Model:",
    "modelDesc" := "Model name (e.g. gpt-4o, llama3, mistral)",
    "temperatureLabel" := "Temperature:",
    "temperatureDesc" := "Controls creativity (0 = factual, 1 = creative)",
    "maxTokensLabel" := "Max Tokens:",
    "maxTokensDesc" := "Maximum length of the response",
    "systemPromptLabel" := "System Prompt:",
    "systemPromptPlaceholder" := "You are a polite email assistant.",
    "systemPromptDesc" := "Default text for the assistant (e.g. tone or style)",
    "contextSizeLabel" := "Context Size:",
    "contextSizeDesc" := "Number of previous messages to include as context",
    "includeSenderLabel" := "Include Sender:",
    "includeSenderDesc" := "Includes the sender address in the prompt context",
    "sttSettings" := "Speech-to-Text Settings",
    "sttApiUrlLabel" := "STT API URL:",
    "sttApiUrlPlaceholder" := "https://api.openai.com/v1/audio/transcriptions",
    "sttApiUrlDesc" := "URL for speech transcription (e.g. Whisper)",
    "sttApiKeyLabel" := "STT API Key:",
    "sttApiKeyPlaceholder" := "sk-xxxxxxxxxxxx",
    "sttApiKeyDesc" := "API key for the STT provider",
    "sttModelLabel" := "Model:",
    "sttModelDesc" := "Speech model (e.g. whisper-1 or local tiny)",
    "sttLanguageLabel" := "Language:",
    "sttLanguageDesc" := "Recognition language (empty = automatic)",
    "exportBtn" := "Export Settings",
    "importBtn" := "Import Settings",
    "exportSuccessMsg" := "Settings exported successfully!",
    "importSuccessMsg" := "Settings imported successfully!",
    "importErrorMsg" := "Import error: ",
    "testApiBtn" := "\U{1F9EA} Test API",
    "testApiTesting" := "\U{1F9EA} Testing API connection...",
    "testApiSuccess" := "✅ API connection tested successfully!",
    "testApiError" := "❌ API Error: ",
    "testApiMissingSettings" := "❌ Please fill out all API settings first"
  ]

  /** `fallbackT`: the table entry, or the key when there is none. */
  function FallbackT(key: string): string {
    I18n.TableLookup(FallbackMessages, key)
  }

  /** The fallback texts of the page's import and API-test status messages. */
  lemma FallbackTexts()
    ensures FallbackT("testApiMissingSettings") == "❌ Please fill out all API settings first"
    ensures FallbackT("importErrorMsg") == "Import error: "
    ensures FallbackT("importSuccessMsg") == "Settings imported successfully!"
  {
  }
}
