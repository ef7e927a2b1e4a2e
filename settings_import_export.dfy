/**
 * Settings export and import of the Aria variant: the export wraps the whole
 * store in an `exportInfo` envelope; the import checks for a `chat` member and
 * rebuilds a fixed settings record from the untrusted document with `||`
 * defaults, migrating the legacy `chat.contextSize` / `chat.includeSender`.
 */
module SettingsImportExport {
  import opened Js
  import Storage

  datatype Chat = Chat(apiUrl: Json, apiKey: Json, model: Json, temperature: Json, maxTokens: Json, systemPrompt: Json)
  datatype Extension = Extension(contextSize: Json, includeSender: Json, clearEmailAfterSubmit: Json)
  datatype Stt = Stt(apiUrl: Json, apiKey: Json, model: Json, language: Json)

  /** `settingsToImport` */
  datatype Settings = Settings(
    uiLanguage: Json, chat: Chat, extension: Extension, stt: Stt,
    generatedEmails: Json, tone: Json, length: Json)

  /**
   * Why an import is refused: a `null` document makes `importedData.chat` throw;
   * any other document without a truthy `chat` raises the format error.
   */
  datatype ImportError = NullDocument | ChatMissing(message: string)

  const NoteFallback := "This file contains sensitive API keys. Please keep it safe!"
  const FormatErrorFallback := "Invalid file format: Chat settings missing"

  /** The keys an import writes. */
  const ImportedKeys: set<string> := {"uiLanguage", "chat", "extension", "stt", "generatedEmails", "tone", "length"}

  function ChatObject(c: Chat): Json {
    JObj(map["apiUrl" := c.apiUrl, "apiKey" := c.apiKey, "model" := c.model,
             "temperature" := c.temperature, "maxTokens" := c.maxTokens, "systemPrompt" := c.systemPrompt])
  }

  function ExtensionObject(e: Extension): Json {
    JObj(map["contextSize" := e.contextSize, "includeSender" := e.includeSender,
             "clearEmailAfterSubmit" := e.clearEmailAfterSubmit])
  }

  function SttObject(s: Stt): Json {
    JObj(map["apiUrl" := s.apiUrl, "apiKey" := s.apiKey, "model" := s.model, "language" := s.language])
  }

  /** The object handed to `storage.local.set`. */
  function ToStorage(s: Settings): (m: map<string, Json>)
    ensures m.Keys == ImportedKeys
  {
    map["uiLanguage" := s.uiLanguage, "chat" := ChatObject(s.chat), "extension" := ExtensionObject(s.extension),
        "stt" := SttObject(s.stt), "generatedEmails" := s.generatedEmails, "tone" := s.tone, "length" := s.length]
  }

  /** `chat: {...}` of `settingsToImport`. */
  function NormaliseChat(chat: Option<Json>): Chat {
    Chat(Or(Get(chat, "apiUrl"), JStr("")), Or(Get(chat, "apiKey"), JStr("")),
         Or(Get(chat, "model"), JStr("gpt-4o-mini")), Or(Get(chat, "temperature"), JNum(1.0)),
         Or(Get(chat, "maxTokens"), JNum(2000.0)), Or(Get(chat, "systemPrompt"), JStr("")))
  }

  /** `extension: {...}`, falling back to the legacy fields of `chat`. */
  function NormaliseExtension(ext: Option<Json>, chat: Option<Json>): Extension {
    Extension(Or(Get(ext, "contextSize"), Or(Get(chat, "contextSize"), JNum(5.0))),
              Or(Get(ext, "includeSender"), Or(Get(chat, "includeSender"), JBool(false))),
              Or(Get(ext, "clearEmailAfterSubmit"), JBool(false)))
  }

  /** `stt: {...}` */
  function NormaliseStt(stt: Option<Json>): Stt {
    Stt(Or(Get(stt, "apiUrl"), JStr("")), Or(Get(stt, "apiKey"), JStr("")),
        Or(Get(stt, "model"), JStr("whisper-1")), Or(Get(stt, "language"), JStr("")))
  }

  /** The record built from a document, with every default applied. */
  function Normalise(data: Json): Settings {
    var d := Some(data);
    Settings(
      Or(Get(d, "uiLanguage"), JStr("en")),
      NormaliseChat(Get(d, "chat")),
      NormaliseExtension(Get(d, "extension"), Get(d, "chat")),
      NormaliseStt(Get(d, "stt")),
      Or(Get(d, "generatedEmails"), JNum(0.0)),
      Or(Get(d, "tone"), JStr("none")),
      Or(Get(d, "length"), JStr("none")))
  }

  /**
   * The import decision. `errorText` is `t('importErrorMsg')`. It is refused
   * exactly when the document has no truthy `chat`; `stt` and `extension` may
   * be missing.
   */
  function Import(data: Json, errorText: string): (r: Result<Settings, ImportError>)
    ensures r.Failure? <==> !TruthyOpt(Get(Some(data), "chat"))
    ensures r.Failure? && data.JNull? ==> r.error == NullDocument
    ensures r.Failure? && !data.JNull? ==>
      r.error == ChatMissing(if errorText != "" then errorText else FormatErrorFallback)
  {
    if data.JNull? then Failure(NullDocument)
    else if !TruthyOpt(Get(Some(data), "chat")) then
      Failure(ChatMissing(if errorText != "" then errorText else FormatErrorFallback))
    else Success(Normalise(data))
  }

  /**
   * `importSettings` after the file is parsed: on success the normalised keys
   * are merged into the store; on failure nothing is written.
   */
  method ImportSettings(store: Storage.LocalStorage, data: Json, errorText: string)
    returns (r: Result<Settings, ImportError>)
    modifies store
    ensures r == Import(data, errorText)
    ensures r.Failure? ==> store.items == old(store.items)
    ensures r.Success? ==> store.items == old(store.items) + ToStorage(r.value)
  {
    r := Import(data, errorText);
    if r.Success? {
      store.Set(ToStorage(r.value));
    }
  }

  /** The `exportInfo` envelope. `note` is `t('exportNote')`, `date` the ISO timestamp. */
  function ExportInfo(date: string, note: Json): Json {
    JObj(map["version" := JStr("1.0"), "exportDate" := JStr(date), "extension" := JStr("AI Mail Assistant"),
             "note" := Or(Some(note), JStr(NoteFallback))])
  }

  /** `exportData`: the whole store plus the envelope, which replaces any stored `exportInfo`. */
  function Export(stored: map<string, Json>, date: string, note: Json): (r: map<string, Json>)
    ensures r.Keys == stored.Keys + {"exportInfo"}
    ensures forall k :: k in stored && k != "exportInfo" ==> r[k] == stored[k]
    ensures r["exportInfo"].JObj? && "version" in r["exportInfo"].fields && "note" in r["exportInfo"].fields
    ensures r["exportInfo"].fields["version"] == JStr("1.0") && Truthy(r["exportInfo"].fields["note"])
  {
    stored["exportInfo" := ExportInfo(date, note)]
  }

  // ---------------------------------------------------------------------------
  // Properties of the normalisation
  // ---------------------------------------------------------------------------

  /**
   * Every field of the result is the document's value when that is truthy and
   * the field's default otherwise; the two legacy fields try `extension` first,
   * then `chat`, and only then their default.
   */
  lemma NormaliseFields(data: Json)
    ensures var s, d := Normalise(data), Some(data);
      var chat, ext, stt := Get(d, "chat"), Get(d, "extension"), Get(d, "stt");
      && DefaultsTo(s.uiLanguage, Get(d, "uiLanguage"), JStr("en"))
      && DefaultsTo(s.chat.apiUrl, Get(chat, "apiUrl"), JStr(""))
      && DefaultsTo(s.chat.apiKey, Get(chat, "apiKey"), JStr(""))
      && DefaultsTo(s.chat.model, Get(chat, "model"), JStr("gpt-4o-mini"))
      && DefaultsTo(s.chat.temperature, Get(chat, "temperature"), JNum(1.0))
      && DefaultsTo(s.chat.maxTokens, Get(chat, "maxTokens"), JNum(2000.0))
      && DefaultsTo(s.chat.systemPrompt, Get(chat, "systemPrompt"), JStr(""))
      && (TruthyOpt(Get(ext, "contextSize")) ==> s.extension.contextSize == Get(ext, "contextSize").value)
      && (!TruthyOpt(Get(ext, "contextSize")) ==> DefaultsTo(s.extension.contextSize, Get(chat, "contextSize"), JNum(5.0)))
      && (TruthyOpt(Get(ext, "includeSender")) ==> s.extension.includeSender == Get(ext, "includeSender").value)
      && (!TruthyOpt(Get(ext, "includeSender")) ==> DefaultsTo(s.extension.includeSender, Get(chat, "includeSender"), JBool(false)))
      && DefaultsTo(s.extension.clearEmailAfterSubmit, Get(ext, "clearEmailAfterSubmit"), JBool(false))
      && DefaultsTo(s.stt.apiUrl, Get(stt, "apiUrl"), JStr(""))
      && DefaultsTo(s.stt.apiKey, Get(stt, "apiKey"), JStr(""))
      && DefaultsTo(s.stt.model, Get(stt, "model"), JStr("whisper-1"))
      && DefaultsTo(s.stt.language, Get(stt, "language"), JStr(""))
      && DefaultsTo(s.generatedEmails, Get(d, "generatedEmails"), JNum(0.0))
      && DefaultsTo(s.tone, Get(d, "tone"), JStr("none"))
      && DefaultsTo(s.length, Get(d, "length"), JStr("none"))
  {
  }

  /** A zero temperature is falsy and is replaced by 1.0. */
  lemma ZeroTemperatureBecomesOne(data: Json)
    requires Get(Get(Some(data), "chat"), "temperature") == Some(JNum(0.0))
    ensures Normalise(data).chat.temperature == JNum(1.0)
  {
  }

  /** The fields whose default is truthy are always truthy after an import. */
  lemma NormaliseTruthyFields(data: Json)
    ensures var s := Normalise(data);
      Truthy(s.uiLanguage) && Truthy(s.chat.model) && Truthy(s.chat.temperature) && Truthy(s.chat.maxTokens)
      && Truthy(s.extension.contextSize) && Truthy(s.stt.model) && Truthy(s.tone) && Truthy(s.length)
  {
  }

  /** The records normalisation produces: every field settled by its default. */
  predicate NormalChat(c: Chat) {
    Settled(c.apiUrl, JStr("")) && Settled(c.apiKey, JStr("")) && Settled(c.model, JStr("gpt-4o-mini"))
    && Settled(c.temperature, JNum(1.0)) && Settled(c.maxTokens, JNum(2000.0)) && Settled(c.systemPrompt, JStr(""))
  }

  predicate NormalExtension(e: Extension) {
    Settled(e.contextSize, JNum(5.0)) && Settled(e.includeSender, JBool(false))
    && Settled(e.clearEmailAfterSubmit, JBool(false))
  }

  predicate NormalStt(t: Stt) {
    Settled(t.apiUrl, JStr("")) && Settled(t.apiKey, JStr("")) && Settled(t.model, JStr("whisper-1"))
    && Settled(t.language, JStr(""))
  }

  predicate Normal(s: Settings) {
    Settled(s.uiLanguage, JStr("en")) && NormalChat(s.chat) && NormalExtension(s.extension) && NormalStt(s.stt)
    && Settled(s.generatedEmails, JNum(0.0)) && Settled(s.tone, JStr("none")) && Settled(s.length, JStr("none"))
  }

  /** Normalisation always produces a normal record. */
  lemma NormaliseIsNormal(data: Json)
    ensures Normal(Normalise(data))
  {
  }

  lemma NormaliseChatOfNormal(c: Chat)
    requires NormalChat(c)
    ensures NormaliseChat(Some(ChatObject(c))) == c
  {
    OrSettled(c.apiUrl, JStr(""));
    OrSettled(c.apiKey, JStr(""));
    OrSettled(c.model, JStr("gpt-4o-mini"));
    OrSettled(c.temperature, JNum(1.0));
    OrSettled(c.maxTokens, JNum(2000.0));
    OrSettled(c.systemPrompt, JStr(""));
  }

  lemma NormaliseExtensionOfNormal(e: Extension, c: Chat)
    requires NormalExtension(e)
    ensures NormaliseExtension(Some(ExtensionObject(e)), Some(ChatObject(c))) == e
  {
    // the written chat object has no legacy fields
    assert Get(Some(ChatObject(c)), "contextSize") == None;
    assert Get(Some(ChatObject(c)), "includeSender") == None;
    OrSettled(e.contextSize, JNum(5.0));
    OrSettled(e.includeSender, JBool(false));
    OrSettled(e.clearEmailAfterSubmit, JBool(false));
  }

  lemma NormaliseSttOfNormal(t: Stt)
    requires NormalStt(t)
    ensures NormaliseStt(Some(SttObject(t))) == t
  {
    OrSettled(t.apiUrl, JStr(""));
    OrSettled(t.apiKey, JStr(""));
    OrSettled(t.model, JStr("whisper-1"));
    OrSettled(t.language, JStr(""));
  }

  /** Normalising an object that holds the stored form of each part of a normal record gives the record back. */
  lemma NormaliseOfParts(m: map<string, Json>, s: Settings)
    requires Normal(s)
    requires "uiLanguage" in m && m["uiLanguage"] == s.uiLanguage
    requires "chat" in m && m["chat"] == ChatObject(s.chat)
    requires "extension" in m && m["extension"] == ExtensionObject(s.extension)
    requires "stt" in m && m["stt"] == SttObject(s.stt)
    requires "generatedEmails" in m && m["generatedEmails"] == s.generatedEmails
    requires "tone" in m && m["tone"] == s.tone
    requires "length" in m && m["length"] == s.length
    ensures Normalise(JObj(m)) == s
  {
    NormaliseChatOfNormal(s.chat);
    NormaliseExtensionOfNormal(s.extension, s.chat);
    NormaliseSttOfNormal(s.stt);
    OrSettled(s.uiLanguage, JStr("en"));
    OrSettled(s.generatedEmails, JNum(0.0));
    OrSettled(s.tone, JStr("none"));
    OrSettled(s.length, JStr("none"));
  }

  /** Normalising the stored form of a normal record gives it back unchanged. */
  lemma NormaliseOfNormal(s: Settings)
    requires Normal(s)
    ensures Normalise(JObj(ToStorage(s))) == s
  {
    NormaliseOfParts(ToStorage(s), s);
  }

  /** Hence normalisation is idempotent. */
  lemma NormaliseIdempotent(data: Json)
    ensures Normalise(JObj(ToStorage(Normalise(data)))) == Normalise(data)
  {
    NormaliseIsNormal(data);
    NormaliseOfNormal(Normalise(data));
  }

  /** A document with a truthy `chat` is accepted and normalised. */
  lemma ImportAccepts(data: Json, errorText: string)
    requires TruthyOpt(Get(Some(data), "chat"))
    ensures Import(data, errorText) == Success(Normalise(data))
  {
  }

  /** Importing the stored form of a normal record succeeds and gives the record back. */
  lemma ImportOfNormal(s: Settings, errorText: string)
    requires Normal(s)
    ensures Import(JObj(ToStorage(s)), errorText) == Success(s)
  {
    var d := JObj(ToStorage(s));
    assert Get(Some(d), "chat") == Some(ChatObject(s.chat));
    ImportAccepts(d, errorText);
    NormaliseOfNormal(s);
  }

  /** Re-importing what an import wrote succeeds and yields the same record. */
  lemma ImportIdempotent(data: Json, errorText: string)
    requires TruthyOpt(Get(Some(data), "chat"))
    ensures Import(JObj(ToStorage(Normalise(data))), errorText) == Success(Normalise(data))
  {
    NormaliseIsNormal(data);
    ImportOfNormal(Normalise(data), errorText);
  }

  /** The import reads only its own seven keys: anything else in the file is ignored. */
  lemma ImportReadsOnlyItsKeys(m1: map<string, Json>, m2: map<string, Json>, errorText: string)
    requires forall k :: k in ImportedKeys ==> (k in m1 <==> k in m2)
    requires forall k :: k in ImportedKeys && k in m1 ==> m1[k] == m2[k]
    ensures Import(JObj(m1), errorText) == Import(JObj(m2), errorText)
  {
    assert Get(Some(JObj(m1)), "chat") == Get(Some(JObj(m2)), "chat");
    assert Normalise(JObj(m1)) == Normalise(JObj(m2)) by {
      assert Get(Some(JObj(m1)), "uiLanguage") == Get(Some(JObj(m2)), "uiLanguage");
      assert Get(Some(JObj(m1)), "extension") == Get(Some(JObj(m2)), "extension");
      assert Get(Some(JObj(m1)), "stt") == Get(Some(JObj(m2)), "stt");
      assert Get(Some(JObj(m1)), "generatedEmails") == Get(Some(JObj(m2)), "generatedEmails");
      assert Get(Some(JObj(m1)), "tone") == Get(Some(JObj(m2)), "tone");
      assert Get(Some(JObj(m1)), "length") == Get(Some(JObj(m2)), "length");
    }
  }

  /**
   * Exporting a store an import wrote (whatever else it holds) and importing the
   * file again yields the same settings: the envelope is ignored.
   */
  lemma ExportImportAfterImport(others: map<string, Json>, data: Json, errorText: string, date: string, note: Json)
    requires Import(data, errorText).Success?
    ensures var stored := others + ToStorage(Import(data, errorText).value);
      Import(JObj(Export(stored, date, note)), errorText) == Import(data, errorText)
  {
    var s := Import(data, errorText).value;
    var stored := others + ToStorage(s);
    ImportReadsOnlyItsKeys(Export(stored, date, note), ToStorage(s), errorText);
    ImportIdempotent(data, errorText);
    assert Import(data, errorText) == Success(s);
  }

  /** Every field of a stored record is present and truthy. */
  predicate AllTruthy(m: map<string, Json>, keys: set<string>) {
    m.Keys == keys && forall k :: k in m ==> Truthy(m[k])
  }

  /** A store whose chat, extension and stt objects, tone and length are all truthy. */
  predicate TruthyStore(stored: map<string, Json>) {
    && "chat" in stored && stored["chat"].JObj?
    && AllTruthy(stored["chat"].fields, {"apiUrl", "apiKey", "model", "temperature", "maxTokens", "systemPrompt"})
    && "extension" in stored && stored["extension"].JObj?
    && AllTruthy(stored["extension"].fields, {"contextSize", "includeSender", "clearEmailAfterSubmit"})
    && "stt" in stored && stored["stt"].JObj?
    && AllTruthy(stored["stt"].fields, {"apiUrl", "apiKey", "model", "language"})
    && "tone" in stored && Truthy(stored["tone"])
    && "length" in stored && Truthy(stored["length"])
  }

  lemma ChatRoundTrip(c: map<string, Json>)
    requires AllTruthy(c, {"apiUrl", "apiKey", "model", "temperature", "maxTokens", "systemPrompt"})
    ensures ChatObject(NormaliseChat(Some(JObj(c)))) == JObj(c)
  {
    assert ChatObject(NormaliseChat(Some(JObj(c)))).fields == c;
  }

  lemma ExtensionRoundTrip(x: map<string, Json>, chat: Option<Json>)
    requires AllTruthy(x, {"contextSize", "includeSender", "clearEmailAfterSubmit"})
    ensures ExtensionObject(NormaliseExtension(Some(JObj(x)), chat)) == JObj(x)
  {
    assert ExtensionObject(NormaliseExtension(Some(JObj(x)), chat)).fields == x;
  }

  lemma SttRoundTrip(t: map<string, Json>)
    requires AllTruthy(t, {"apiUrl", "apiKey", "model", "language"})
    ensures SttObject(NormaliseStt(Some(JObj(t)))) == JObj(t)
  {
    assert SttObject(NormaliseStt(Some(JObj(t)))).fields == t;
  }

  /** Export then import reproduces chat, extension, stt, tone and length when every stored value is truthy. */
  lemma ExportImportRoundTrip(stored: map<string, Json>, errorText: string, date: string, note: Json)
    requires TruthyStore(stored)
    ensures var r := Import(JObj(Export(stored, date, note)), errorText);
      && r.Success?
      && ChatObject(r.value.chat) == stored["chat"]
      && ExtensionObject(r.value.extension) == stored["extension"]
      && SttObject(r.value.stt) == stored["stt"]
      && r.value.tone == stored["tone"]
      && r.value.length == stored["length"]
  {
    var e := Export(stored, date, note);
    var d := Some(JObj(e));
    assert Get(d, "chat") == Some(stored["chat"]);
    assert Get(d, "extension") == Some(stored["extension"]);
    assert Get(d, "stt") == Some(stored["stt"]);
    assert Get(d, "tone") == Some(stored["tone"]);
    assert Get(d, "length") == Some(stored["length"]);
    ImportAccepts(JObj(e), errorText);
    ChatRoundTrip(stored["chat"].fields);
    ExtensionRoundTrip(stored["extension"].fields, Get(d, "chat"));
    SttRoundTrip(stored["stt"].fields);
  }

  /** Without the truthiness condition the round trip fails: a stored temperature 0 comes back as 1.0. */
  lemma ZeroTemperatureDoesNotRoundTrip(date: string, note: Json)
    ensures var chat := map["apiUrl" := JStr("u"), "apiKey" := JStr("k"), "model" := JStr("m"),
                            "temperature" := JNum(0.0), "maxTokens" := JNum(10.0), "systemPrompt" := JStr("p")];
      var r := Import(JObj(Export(map["chat" := JObj(chat)], date, note)), "");
      r.Success? && ChatObject(r.value.chat) != JObj(chat)
  {
    var chat := map["apiUrl" := JStr("u"), "apiKey" := JStr("k"), "model" := JStr("m"),
                    "temperature" := JNum(0.0), "maxTokens" := JNum(10.0), "systemPrompt" := JStr("p")];
    var r := Import(JObj(Export(map["chat" := JObj(chat)], date, note)), "");
    assert ChatObject(r.value.chat).fields["temperature"] == JNum(1.0);
  }
}
