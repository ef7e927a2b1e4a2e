# AI mail assistants for Thunderbird, modelled in Dafny

This project models the rules inside two Thunderbird extensions and one stand-alone popup. The extensions are *AI Mail Assistant* and *Aria AI Assistant*. Each reads the message on screen or the draft being written. It asks an OpenAI-style chat-completion endpoint for a reply and puts the answer back into Thunderbird.

The model covers the logic around those steps:

- **Settings import and export.** Both variants of `importSettings` turn an untrusted settings file into a fixed record. They use `||` defaults and the migration of the legacy `chat.contextSize` and `chat.includeSender` fields. The export wraps the store in an `exportInfo` envelope (`SettingsImportExport`, `MailSettings`).
- **The system-prompt library.** A name-to-text dictionary with save, load, delete, a sorted listing and a form it fills (`SystemPromptManager`).
- **Email context and insertion.** The rules are:
  - which tab counts as a mail tab;
  - which part of a message is its body;
  - where the user's name comes from;
  - when a composer or a viewer context is used;
  - how generated text is merged into a draft.
  
  The whitespace clean-up of `stripHtml` is here too (`EmailContext`, `StripHtml`).
- **The chat request.** How settings are checked and defaulted, what is sent, how the response is read, the zero-cost branch of the price calculation, and the two prompt templates (`ApiClient`). The generation counter in the store is in `Storage`.
- **Voice input.** The `STTRecorder` class as a state machine over its recorder, stream and chunks, and the upload to the speech-to-text endpoint (`SttRecorder`).
- **Translation and logging.** The popup's translator with its `alerts.` namespace and English fallback table (`I18n`). The logger with its mutable threshold and line format (`Logger`).
- **The three popups.**
  - The stand-alone reply button: settings defaults, filter by author, last-N slice, German prompt (`RootPopup`).
  - The AI Mail popup: its own copies of the API call, context lookup and insert, as well as its buttons (`MailPopup`).
  - The Aria popup: its state, key dispatch and the voice, submit, cancel and autoresponse handlers (`AriaPopup`).

JavaScript values from storage, settings files and HTTP responses are modelled as parsed JSON (`Js.Json`), with `undefined` as `None`. `Js.Get` is a property read, `Js.Or` is `||` and `Js.Truthy` is JavaScript truthiness.

Every call into Thunderbird, `fetch`, the microphone, the clock and the translator becomes a parameter. A `browser.*` result is a value. A `fetch` is a function from the request to the response. The requests a method makes come back as out-parameters, so "fails before anything is sent" can be stated.

Objects whose fields the code updates in place are classes:

- the key-value store, `Storage.LocalStorage`;
- the recorder, `SttRecorder.STTRecorder`;
- the logger's module state, `Logger.LoggerState`;
- the prompt library and its form;
- the two popups' visible state.

Where the documented behaviour and the code differ, the model follows the code:

- `browser.storage.local.set` merges the given keys into the store. An import therefore keeps keys it does not write.
- Stopping a recording that holds no chunks still yields an (empty) WAV blob. No error is raised.
- The AI Mail popup closes after a composer insert even when no compose session existed, because that path returns without writing or throwing.

## Model

| member | source | states |
|---|---|---|
| SettingsImportExport.ToStorage | aria-ai-assistant/modules/settings-import-export.js:53-79 | the object written to the store has exactly the seven keys `uiLanguage`, `chat`, `extension`, `stt`, `generatedEmails`, `tone`, `length` |
| SettingsImportExport.Import | aria-ai-assistant/modules/settings-import-export.js:47-77 | a document is refused exactly when its `chat` is missing or falsy, a `null` document as a thrown access and any other with `t('importErrorMsg')` or the fallback text; a missing `stt` or `extension` is allowed |
| SettingsImportExport.ImportSettings | aria-ai-assistant/modules/settings-import-export.js:45-91 | a refused import writes nothing; an accepted one merges the normalised record's seven keys into the store and keeps every other key |
| SettingsImportExport.Export | aria-ai-assistant/modules/settings-import-export.js:11-19 | the export holds every stored key with its value, plus `exportInfo` with `version` `'1.0'` and a truthy note |
| SettingsImportExport.Normalise | aria-ai-assistant/modules/settings-import-export.js:53-77 | the record an Aria import stores; with `NormaliseFields`, `NormaliseIsNormal` and `NormaliseIdempotent`, each field is the truthy document value or its default, and normalising is idempotent |
| SettingsImportExport.NormaliseFields | aria-ai-assistant/modules/settings-import-export.js:53-77 | every field is the document's value when truthy and its default otherwise (`'en'`, `'gpt-4o-mini'`, 1.0, 2000, `'whisper-1'`, 0, `'none'`, ...); `contextSize` and `includeSender` try `extension`, then the legacy `chat` field, then 5 / false |
| SettingsImportExport.ZeroTemperatureBecomesOne | aria-ai-assistant/modules/settings-import-export.js:59 | a stored temperature 0 is falsy and is imported as 1.0 |
| SettingsImportExport.NormaliseTruthyFields | aria-ai-assistant/modules/settings-import-export.js:53-77 | the fields whose default is truthy (language, model, temperature, max tokens, context size, stt model, tone, length) are always truthy after an import |
| SettingsImportExport.NormaliseIsNormal | aria-ai-assistant/modules/settings-import-export.js:53-77 | every record an import produces is settled: each field is truthy or, failing that, equal to its default |
| SettingsImportExport.NormaliseChatOfNormal | aria-ai-assistant/modules/settings-import-export.js:55-62 | normalising the stored `chat` object of a settled record gives that record back |
| SettingsImportExport.NormaliseExtensionOfNormal | aria-ai-assistant/modules/settings-import-export.js:63-67 | normalising the stored `extension` object of a settled record gives it back, whatever the legacy `chat` fields hold |
| SettingsImportExport.NormaliseSttOfNormal | aria-ai-assistant/modules/settings-import-export.js:68-73 | normalising the stored `stt` object of a settled record gives it back |
| SettingsImportExport.NormaliseOfParts | aria-ai-assistant/modules/settings-import-export.js:53-77 | any document holding the stored form of each part of a settled record normalises to that record |
| SettingsImportExport.NormaliseOfNormal | aria-ai-assistant/modules/settings-import-export.js:53-77 | normalising the stored form of a settled record gives it back unchanged |
| SettingsImportExport.NormaliseIdempotent | aria-ai-assistant/modules/settings-import-export.js:53-77 | normalisation is idempotent |
| SettingsImportExport.ImportAccepts | aria-ai-assistant/modules/settings-import-export.js:49-53 | a document with a truthy `chat` is accepted and normalised |
| SettingsImportExport.ImportOfNormal | aria-ai-assistant/modules/settings-import-export.js:49-77 | importing the stored form of a settled record succeeds with that record |
| SettingsImportExport.ImportIdempotent | aria-ai-assistant/modules/settings-import-export.js:49-79 | re-importing what an import wrote succeeds with the same record |
| SettingsImportExport.ImportReadsOnlyItsKeys | aria-ai-assistant/modules/settings-import-export.js:53-77 | two documents that agree on the seven imported keys import alike: `exportInfo`, `systemPrompts` and any other key are ignored |
| SettingsImportExport.ExportImportAfterImport | aria-ai-assistant/modules/settings-import-export.js:11-79 | exporting a store that an import wrote, whatever else it holds, and importing the file again gives the same settings |
| SettingsImportExport.ChatRoundTrip | aria-ai-assistant/modules/settings-import-export.js:55-62 | a `chat` object of truthy fields passes through normalisation unchanged |
| SettingsImportExport.ExtensionRoundTrip | aria-ai-assistant/modules/settings-import-export.js:63-67 | an `extension` object of truthy fields passes through unchanged |
| SettingsImportExport.SttRoundTrip | aria-ai-assistant/modules/settings-import-export.js:68-73 | an `stt` object of truthy fields passes through unchanged |
| SettingsImportExport.ExportImportRoundTrip | aria-ai-assistant/modules/settings-import-export.js:11-77 | export then import reproduces `chat`, `extension`, `stt`, `tone` and `length` whenever every stored value is truthy |
| SettingsImportExport.ZeroTemperatureDoesNotRoundTrip | aria-ai-assistant/modules/settings-import-export.js:59 | without that condition the round trip fails: a stored temperature 0 comes back as 1.0 |
| MailSettings.ToStorage | ai-mail-assistant/settings.js:308-329 | the object written has exactly the keys `uiLanguage`, `chat` and `stt`, and no `extension` key |
| MailSettings.Import | ai-mail-assistant/settings.js:300-326 | a document is refused exactly when `chat` or `stt` is missing or falsy, a `null` document as a thrown access and any other with `t("importErrorMsg")` or "Invalid file format" |
| MailSettings.ImportSettings | ai-mail-assistant/settings.js:298-329 | a refused import writes nothing; an accepted one merges the three normalised keys into the store and keeps every other key |
| MailSettings.Normalise | ai-mail-assistant/settings.js:308-326 | the record an AI Mail import stores; with `NormaliseFields`, `NormaliseIsNormal` and `ImportIdempotent`, each field is the truthy document value or its default, and normalising is idempotent |
| MailSettings.NormaliseFields | ai-mail-assistant/settings.js:308-326 | every field is the document's value when truthy and its default otherwise; `contextSize` (5) and `includeSender` (false) live inside `chat`; the language default is `"en"` |
| MailSettings.NormaliseIsNormal | ai-mail-assistant/settings.js:308-326 | every imported record is settled: each field is truthy or equal to its default |
| MailSettings.NormaliseChatOfNormal | ai-mail-assistant/settings.js:310-319 | normalising the stored `chat` object of a settled record gives it back |
| MailSettings.NormaliseSttOfNormal | ai-mail-assistant/settings.js:320-325 | normalising the stored `stt` object of a settled record gives it back |
| MailSettings.ImportAccepts | ai-mail-assistant/settings.js:303-308 | a document with truthy `chat` and `stt` is accepted and normalised |
| MailSettings.NormaliseOfParts | ai-mail-assistant/settings.js:308-326 | any document holding the stored form of each part of a settled record normalises to that record |
| MailSettings.ImportOfNormal | ai-mail-assistant/settings.js:303-326 | importing the stored form of a settled record succeeds with that record |
| MailSettings.ImportIdempotent | ai-mail-assistant/settings.js:303-329 | re-importing what an import wrote succeeds with the same record |
| MailSettings.LoadSettings | ai-mail-assistant/settings.js:132-158 | for any store, every chat field is the stored `chat` value when truthy and otherwise its default (`''`, `'gpt-4o-mini'`, 1, 2000, `''`, 5), the `includeSender` box is the truthiness of the stored flag, and every stt field is the stored value or its default (`'whisper-1'` for the model), a falsy `stt` counting as `{}`; on the first load the language selector is the stored language or `'de'`, later loads keep it; the flag ends set |
| MailSettings.LoadShowsDefaults | ai-mail-assistant/settings.js:136-143 | a store without `chat` shows `gpt-4o-mini`, temperature 1, 2000 tokens, five context messages and an unticked sender box; a stored temperature of 0 is shown as 1 |
| MailSettings.LanguageDefaults | ai-mail-assistant/settings.js:155 | without a stored language, an import gives `"en"` while the first load of the form shows `"de"` |
| MailSettings.LoadOfParts | ai-mail-assistant/settings.js:136-150 | a store holding settled `chat` and `stt` records fills the form with exactly their values, `includeSender` as a checkbox |
| MailSettings.ImportThenLoad | ai-mail-assistant/settings.js:132-158 | after an import, reloading the form shows exactly the imported `chat` and `stt` values |
| MailSettings.TestApiRequest | ai-mail-assistant/settings.js:209-241 | the probe is refused, with `testApiMissingSettings`, exactly when the trimmed URL, key or model is empty; otherwise it is sent with the trimmed values and a bearer key |
| MailSettings.TestApiFieldsClean | ai-mail-assistant/settings.js:209-214 | a probe is only sent with a non-empty URL and model that carry no surrounding whitespace |
| MailSettings.WhitespaceFieldRefused | ai-mail-assistant/settings.js:210-214 | a key of only whitespace counts as missing |
| MailSettings.TLookup | ai-mail-assistant/settings.js:50 | `t(key)` is `messages[key].message` when that is truthy, and the key otherwise |
| MailSettings.FallbackTexts | ai-mail-assistant/settings.js:58-108 | the fallback translator returns the table's texts for the import and API-test messages |
| SystemPromptManager.Lookup | aria-ai-assistant/modules/system-prompt-manager.js:39 | a name loads as its text exactly when it is stored with a non-empty text; a missing name or an empty text loads as null |
| SystemPromptManager.LookupAfterSave | aria-ai-assistant/modules/system-prompt-manager.js:27-39 | after saving `(n, c)`, `n` loads as `c` when `c` is non-empty and as null otherwise, and every other name loads as before |
| SystemPromptManager.LookupAfterDelete | aria-ai-assistant/modules/system-prompt-manager.js:47-51 | after deleting `n`, `n` loads as null, every other name loads as before, and deleting an absent name changes nothing |
| SystemPromptManager.LessIrreflexive | aria-ai-assistant/modules/system-prompt-manager.js:66 | no name sorts before itself |
| SystemPromptManager.LessTransitive | aria-ai-assistant/modules/system-prompt-manager.js:66 | the default sort order is transitive |
| SystemPromptManager.LessTotal | aria-ai-assistant/modules/system-prompt-manager.js:66 | of two different names, one sorts before the other |
| SystemPromptManager.Min | aria-ai-assistant/modules/system-prompt-manager.js:66 | the name picked is in the set and sorts before every other name in it |
| SystemPromptManager.SortedNames | aria-ai-assistant/modules/system-prompt-manager.js:66 | the listing holds exactly the stored names, each once, in strictly ascending order |
| SystemPromptManager.PromptForm.constructor | aria-ai-assistant/modules/system-prompt-manager.js:81 | the form's two fields start with the given values |
| SystemPromptManager.PromptLibrary.constructor | aria-ai-assistant/modules/system-prompt-manager.js:10-13 | the library is the stored dictionary, or empty when none is stored |
| SystemPromptManager.PromptLibrary.Load | aria-ai-assistant/modules/system-prompt-manager.js:37-40 | loading is the lookup of the current dictionary; it only finds stored names |
| SystemPromptManager.PromptLibrary.Save | aria-ai-assistant/modules/system-prompt-manager.js:21-30 | a name that is empty or only whitespace is refused with its message and nothing changes; otherwise the entry is stored under the untrimmed name and loads back as its text (null when empty), except that `__proto__`, to which a string assignment sets no property, is accepted and stores nothing; every other entry loads as before |
| SystemPromptManager.PromptLibrary.Delete | aria-ai-assistant/modules/system-prompt-manager.js:47-52 | the name is removed and loads as null; an absent name changes nothing; every other entry loads as before |
| SystemPromptManager.PromptLibrary.PopulateLibrary | aria-ai-assistant/modules/system-prompt-manager.js:59-72 | the drop-down is the placeholder followed by one option per stored name, value and text alike, each name present, in strictly ascending order |
| SystemPromptManager.PromptLibrary.LoadIntoForm | aria-ai-assistant/modules/system-prompt-manager.js:81-88 | the form takes the name and the text only when the entry loads, and is left alone otherwise |
| EmailContext.ActiveMailTab | ai-mail-assistant/modules/email-context.js:9-36 | the current mail tab wins; without one, the result is the first active tab exactly when there is one and it is a mail tab, and null otherwise |
| EmailContext.FirstPlainText | ai-mail-assistant/modules/email-context.js:114-119 | the body is empty exactly when no part is `text/plain` with a non-empty body, and otherwise is the body of such a part |
| EmailContext.FirstPlainTextAt | ai-mail-assistant/modules/email-context.js:114-119 | the first qualifying part is the one whose body is taken; no later part can win |
| EmailContext.SelectPlainBody | ai-mail-assistant/modules/email-context.js:163-170 | the loop with its `break` yields the first `text/plain` part's non-empty body, or `''` |
| EmailContext.UserIdentity | ai-mail-assistant/modules/email-context.js:65-76 | a failed message gives two empty strings; a name in the answer is taken as given |
| EmailContext.FromName | ai-mail-assistant/modules/email-context.js:103 | the name taken from `From` is trimmed and holds no `<` |
| EmailContext.FromNameIsBeforeBracket | ai-mail-assistant/modules/email-context.js:103 | the name taken from `From` is the trimmed text before its first `<`, or all of it when there is none |
| EmailContext.ResolveUser | ai-mail-assistant/modules/email-context.js:89-105 | a name from the identity is kept with its organisation; an empty result means the identity had no name and `From` gave none; with no signature the non-empty name part of `From` is used; the name is `UserNameOf` and the organisation `UserOrgOf` of the identity, the draft and the signature matcher |
| EmailContext.UserNameFirstNonEmptyWins | ai-mail-assistant/modules/email-context.js:92-105 | a non-empty name from the identity is never replaced by a later fallback, and an empty result means every source was empty |
| EmailContext.UserNameOf | ai-mail-assistant/modules/email-context.js:89-105 | the name the fallback chain ends with (identity, then signature, then `From`); with `UserNameFirstNonEmptyWins`, an earlier non-empty name is never replaced and an empty one means no source had a name |
| EmailContext.UserOrgOf | ai-mail-assistant/modules/email-context.js:89-99 | the organisation the chain ends with; with `UserOrgFromSignature`, its sources are the identity and the signature only |
| EmailContext.UserOrgFromSignature | ai-mail-assistant/modules/email-context.js:93-99 | whenever the signature is consulted (no identity name, a non-empty signature) its organisation match replaces the identity's, whether or not it also yields a name; with an identity name, or without a signature, the identity's organisation stays |
| EmailContext.ComposerContext | ai-mail-assistant/modules/email-context.js:81-149 | no context exactly when the window has no active tab; the context points at that tab and window; a loadable reply gives the replied-to message's id, plain body, subject and author, and otherwise the draft's body, subject and first recipient with `''` defaults; the user fields are `UserNameOf` and `UserOrgOf` of the identity response, the draft and the signature matcher |
| EmailContext.ViewerContext | ai-mail-assistant/modules/email-context.js:154-187 | a context exists exactly when there is a mail tab, a displayed message and its parts load; it carries that message's id, plain body, subject and author and the identity |
| EmailContext.GetEmailContext | ai-mail-assistant/modules/email-context.js:192-218 | it fails, with its fixed message, exactly when neither a composer context in a compose window nor a viewer context is found; the composer context wins over the viewer one |
| EmailContext.MergeBody | ai-mail-assistant/modules/email-context.js:245-253 | with `clearEmailAfterSubmit` the text replaces the draft; otherwise it follows the draft, after a blank line exactly when the draft is not blank |
| EmailContext.MergeKeepsDraft | ai-mail-assistant/modules/email-context.js:250-252 | appending keeps the whole draft in front and the whole text at the end, with two characters between them exactly when the draft has non-whitespace content |
| EmailContext.InsertTextAtCursor | ai-mail-assistant/modules/email-context.js:223-279 | a composer insert succeeds exactly when a truthy compose tab id is found and reading its details, reading the settings and writing the body do not throw, and then sets that tab's body to the merged body; no tab id fails with `No compose tab found`, and a throwing tab lookup with its message; a viewer insert succeeds exactly when there is a mail tab and a displayed message and `beginReply` does not throw, and then begins a reply to that message with the text; no mail tab fails with `No message or reply draft open.` and a throwing lookup with its message |
| EmailContext.ComposeTabId | ai-mail-assistant/modules/email-context.js:228-238 | a truthy given tab id is used as is; otherwise a compose window's first active tab, if it has one; a throwing `windows.getCurrent` or `tabs.query` fails with its message |
| EmailContext.NoComposeTabNoWrite | ai-mail-assistant/modules/email-context.js:240-260 | outside a compose window, a composer insert without a tab id, or with tab id 0, fails and writes nothing |
| EmailContext.ComposerErrorsPassThrough | ai-mail-assistant/modules/email-context.js:240-263 | with a truthy tab id, the first of `getComposeDetails`, the storage read and `setComposeDetails` to throw fails the insert with its message |
| EmailContext.ViewerErrorsPassThrough | ai-mail-assistant/modules/email-context.js:266-278 | in the viewer a throwing `getDisplayedMessage` or `beginReply` fails the insert with its message, and no displayed message with the fixed text |
| StripHtml.StripEach | ai-mail-assistant/modules/email-context.js:55 | every line loses exactly its leading whitespace, and the number of lines is kept |
| StripHtml.CleanLinesShape | ai-mail-assistant/modules/email-context.js:54-56 | after the per-line step, the text and every line after a newline start with a newline or a non-space |
| StripHtml.CollapseShape | ai-mail-assistant/modules/email-context.js:57 | replacing each newline-whitespace-newline run by one blank line leaves no two blank lines in a row and no line starting with whitespace |
| StripHtml.CollapseOfClean | ai-mail-assistant/modules/email-context.js:57 | the replacement changes nothing in text that already has at most one blank line in a row and clean line starts |
| StripHtml.CleanWhitespace | ai-mail-assistant/modules/email-context.js:53-59 | the whitespace clean-up of `stripHtml`; with `CleanWhitespaceIsClean`, `CleanWhitespaceOfClean` and `CleanWhitespaceIdempotent`, its result is clean, clean text is left alone, and cleaning twice is cleaning once |
| StripHtml.CleanWhitespaceIsClean | ai-mail-assistant/modules/email-context.js:53-59 | the clean-up's result has no surrounding whitespace, no line starting with whitespace and never two blank lines in a row |
| StripHtml.NewlineFollowers | ai-mail-assistant/modules/email-context.js:53-59 | in cleaned text every newline is followed by a non-space, or by exactly one more newline and then a non-space |
| StripHtml.CleanWhitespaceOfClean | ai-mail-assistant/modules/email-context.js:53-59 | text already in that shape passes through the clean-up unchanged |
| StripHtml.CleanWhitespaceIdempotent | ai-mail-assistant/modules/email-context.js:53-59 | cleaning twice gives the same text as cleaning once |
| StripHtml.CleanWhitespaceLines | ai-mail-assistant/modules/email-context.js:54-57 | every line of the result begins with a non-space or is empty |
| ApiClient.StoredSettings | aria-ai-assistant/modules/api-client.js:12-17 | a truthy stored `chat` entry is used as it is; a falsy or missing one becomes `{}` |
| ApiClient.SaveStats | aria-ai-assistant/modules/api-client.js:186-190 | the statistics are stored under `lastStats` and every other entry is left alone |
| ApiClient.BuildChatRequest | aria-ai-assistant/modules/api-client.js:74-100 | the request goes to the stored URL with the stored key and model and the prompt as the user message; the system prompt, temperature and token limit are the stored ones or, when falsy, the default text, 1.0 and 2000, so the last two are never falsy |
| ApiClient.ReplyContent | aria-ai-assistant/modules/api-client.js:115 | the reply is read exactly when `choices[0].message.content` exists and is a string |
| ApiClient.UsageCounts | aria-ai-assistant/modules/api-client.js:116-118 | a missing `usage` counts as 0 and 0; otherwise each count is the stored one, or 0 when falsy |
| ApiClient.InterpretResponse | aria-ai-assistant/modules/api-client.js:104-136 | a network failure is passed on; a non-ok status fails with the general error, the status and the response text; it succeeds exactly when the response is ok and carries string content, which is returned trimmed with the usage counts, the model and the cost `calculateCost` gives for them |
| ApiClient.CallOpenAI | aria-ai-assistant/modules/api-client.js:52-141 | no request is sent exactly when URL, key or model is falsy, and then it fails with the settings-missing message; otherwise the one request sent is the one built from the settings and the prompt, and the result is what its response yields |
| ApiClient.MissingUsageIsZero | aria-ai-assistant/modules/api-client.js:115-118 | an ok answer without `usage` succeeds with 0 input and 0 output tokens, the cost `< $0.01` (none on an inherited model name) and the trimmed content |
| Js.ToNumber | aria-ai-assistant/modules/api-client.js:41-42 | a number reads as itself, finite; an object, and an array of two or more elements, read as NaN |
| ApiClient.TotalCost | aria-ai-assistant/modules/api-client.js:33-44 | the total is a number exactly when both counts read as numbers and the model's name is not an inherited property of `Object.prototype` (whose `input` and `output` are `undefined`), and it is 0 for a model without a price |
| ApiClient.CostOf | aria-ai-assistant/modules/api-client.js:32-47 | the label, when there is one, is `< $0.01`, and there is one exactly when the total is 0 |
| ApiClient.ZeroCostIff | aria-ai-assistant/modules/api-client.js:33-45 | for non-negative numeric counts the cost is `< $0.01` exactly when the model's name is not inherited and the model has no price or no token was used |
| ApiClient.UnpricedCostIff | aria-ai-assistant/modules/api-client.js:41-46 | on a model without a price whose name is not inherited the cost is `< $0.01` exactly when both counts read as numbers, whole or not |
| ApiClient.UnpricedOddCounts | aria-ai-assistant/modules/api-client.js:41-46 | on a model without a price the counts 1.5, -3 and `"12"` cost `< $0.01` |
| ApiClient.ObjectCountIsNaN | aria-ai-assistant/modules/api-client.js:42-46 | an object as a count makes the total NaN, so no model labels it |
| ApiClient.InheritedModelNameIsNaN | aria-ai-assistant/modules/api-client.js:40-46 | a model named `constructor` prices at NaN and shows no label even for no tokens |
| ApiClient.SenderInfo | aria-ai-assistant/modules/api-client.js:155-158 | the sender line is present exactly when `includeSender` is truthy and the sender is non-empty |
| ApiClient.SenderLines | aria-ai-assistant/modules/api-client.js:155-158 | there is one sender line exactly when the sender is included, and never more |
| ApiClient.IdentityLines | aria-ai-assistant/modules/api-client.js:164-166 | there is one labelled line per identity field |
| ApiClient.PromptLines | aria-ai-assistant/modules/api-client.js:162-172 | the prompt has eight fixed lines, one per identity field, and one more exactly when the sender is included |
| ApiClient.PromptJoin | aria-ai-assistant/modules/api-client.js:155-172 | the lines joined by newlines are the heading, the sender line, the identity block and the closing, in that order |
| ApiClient.BuildPromptAria | aria-ai-assistant/modules/api-client.js:146-181 | the Aria prompt; with `BuildPromptAriaLines` and `SenderLineOnlyDifference`, it is its lines joined by newlines, and it differs from the prompt without sender only in the sender line |
| ApiClient.BuildPromptAriaLines | aria-ai-assistant/modules/api-client.js:146-181 | the Aria prompt is its lines joined by newlines, with the receiver, receiver name and organisation lines |
| ApiClient.BuildPromptMail | ai-mail-assistant/modules/api-client.js:113-134 | the AI Mail prompt; with `BuildPromptMailLines`, it is its lines joined by newlines with the user's name and organisation lines |
| ApiClient.BuildPromptMailLines | ai-mail-assistant/modules/api-client.js:113-134 | the AI Mail prompt is its lines joined by newlines, with the user's name and organisation lines |
| ApiClient.WithoutSender | aria-ai-assistant/modules/api-client.js:152-158 | without extension settings the sender line is left out, whatever the sender |
| ApiClient.SenderLineOnlyDifference | aria-ai-assistant/modules/api-client.js:155-164 | turning the sender on only inserts the sender line after the subject line; the rest of the prompt is the same |
| SttRecorder.NoActiveRecordingText | aria-ai-assistant/modules/stt-recorder.js:43-44 | the message is never empty: the translation when it is non-empty, else `No active recording` |
| SttRecorder.STTRecorder.constructor | aria-ai-assistant/modules/stt-recorder.js:7-11 | a new recorder has no recorder, no stream and no chunks, and is not recording |
| SttRecorder.STTRecorder.StartRecording | aria-ai-assistant/modules/stt-recorder.js:16-35 | it fails exactly when microphone access is refused, with `errorMicrophoneAccess` and the recorder unchanged; otherwise the granted stream is recorded with the chunks emptied |
| SttRecorder.STTRecorder.DataAvailable | aria-ai-assistant/modules/stt-recorder.js:22-26 | a chunk with data is appended at the end, an empty one dropped; nothing else changes |
| SttRecorder.STTRecorder.Cleanup | aria-ai-assistant/modules/stt-recorder.js:67-74 | the stream's tracks are stopped when there is a stream, and the stream, recorder and chunks are forgotten |
| SttRecorder.STTRecorder.StopRecording | aria-ai-assistant/modules/stt-recorder.js:40-62 | without a recorder it is refused and nothing changes; otherwise the recording ends in cleanup, and gives the chunks in arrival order as a WAV blob on stop, or the error on failure |
| SttRecorder.StoppedBlobHasNoEmptyParts | aria-ai-assistant/modules/stt-recorder.js:22-26 | every part of the blob a recording produces has data |
| SttRecorder.Kept | aria-ai-assistant/modules/stt-recorder.js:22-26 | the recorder never keeps more chunks than it receives |
| SttRecorder.KeptNonEmpty | aria-ai-assistant/modules/stt-recorder.js:23 | every kept chunk has data |
| SttRecorder.KeptKeepsBytes | aria-ai-assistant/modules/stt-recorder.js:23-24 | dropping the empty chunks loses no data: the kept chunks carry the same bytes, in the same order, as all of them |
| SttRecorder.RefusedMicrophone | aria-ai-assistant/modules/stt-recorder.js:30-45 | after a refused start, stopping is refused too |
| SttRecorder.RecordSession | aria-ai-assistant/modules/stt-recorder.js:16-74 | a start, any run of chunks and a stop give back exactly the non-empty chunks in order, and release the stream once |
| SttRecorder.SttForm | aria-ai-assistant/modules/stt-recorder.js:93-99 | the form holds the recording as `recording.wav` and the model, plus the language exactly when it is truthy |
| SttRecorder.SttResponse | aria-ai-assistant/modules/stt-recorder.js:110-120 | a network failure is passed on; a non-ok status fails with the STT error, the status and the text; an ok JSON answer gives `text`, or `''` when it is falsy |
| SttRecorder.TranscribeAudio | aria-ai-assistant/modules/stt-recorder.js:87-125 | nothing is sent exactly when URL, key or model is falsy, which fails with `errorSttSettingsMissing`; otherwise the one upload goes to the stored URL with the stored key and the form, and the result is what its response yields |
| SttRecorder.MissingTextIsEmpty | aria-ai-assistant/modules/stt-recorder.js:117 | an answer without `text` transcribes to the empty string |
| I18n.T | aria-ai-assistant/modules/i18n.js:22-28 | the translator of a loaded bundle; with `TLookups`, `TResolvesOrEchoes` and `AlertsNotAtTopLevel`, an `alerts.` key is looked up only in its namespace, any other at the top level, and the result is a truthy text or the key itself |
| I18n.TLookups | aria-ai-assistant/modules/i18n.js:22-28 | an `alerts.` key looks up the text after the prefix, up to the next dot, inside `messages.alerts`; any other key is looked up at the top level |
| I18n.TResolvesOrEchoes | aria-ai-assistant/modules/i18n.js:25-27 | a translation is a truthy message or the key itself; a non-empty key is never translated to a falsy value; a missing key, or an `alerts.` key without an `alerts` table, echoes the key |
| I18n.AlertsNotAtTopLevel | aria-ai-assistant/modules/i18n.js:23-26 | an `alerts.` key is not found at the top level even when the full key is there |
| I18n.TableLookup | aria-ai-assistant/modules/i18n.js:63 | a key with a non-empty fallback text gets that text; every other key gets itself |
| I18n.FallbackFullKeys | aria-ai-assistant/modules/i18n.js:41-65 | the fallback table is keyed by the full key, `alerts.` prefix included, and holds the English texts |
| I18n.Language | aria-ai-assistant/modules/i18n.js:11 | a falsy or missing stored language becomes `en`; a truthy one is used as it is |
| I18n.LoadI18n | aria-ai-assistant/modules/i18n.js:9-36 | the fallback translator is returned exactly when the chosen language's bundle cannot be loaded; otherwise the translator reads that bundle |
| I18n.DefaultLanguageIsEnglish | aria-ai-assistant/modules/i18n.js:11-13 | without a stored language, or with an empty one, the English bundle is requested |
| Logger.FindName | ai-mail-assistant/modules/logger.js:30 | a name found is one of the keys and has the level as its value; when none is found, no key has it |
| Logger.LevelNamesRoundTrip | ai-mail-assistant/modules/logger.js:7-12 | each of the four levels prints as a name that looks the same level up again; any other number prints as `undefined` |
| Logger.Upper | ai-mail-assistant/modules/logger.js:98 | upper-casing keeps the length and changes exactly the lower-case ASCII letters |
| Logger.LevelOf | ai-mail-assistant/modules/logger.js:96-102 | a number is taken as the level; a name whose capitals are INFO, WARN or ERROR gives that level; any other name gives INFO |
| Logger.UpperOfCapitals | ai-mail-assistant/modules/logger.js:98 | a name without lower-case letters is its own upper case |
| Logger.NamedLevels | ai-mail-assistant/modules/logger.js:98 | `INFO`, `WARN` and `ERROR` select levels 1, 2 and 3 |
| Logger.LowerCaseName | ai-mail-assistant/modules/logger.js:98 | the case of a name does not matter: `warn` selects WARN |
| Logger.DebugNameSetsInfo | ai-mail-assistant/modules/logger.js:98 | `debug` and `DEBUG` select INFO, because DEBUG's value 0 is falsy |
| Logger.UnknownNameSetsInfo | ai-mail-assistant/modules/logger.js:98 | an unknown name selects INFO |
| Logger.NoNameSelectsDebug | ai-mail-assistant/modules/logger.js:97-98 | no string sets the threshold back to DEBUG |
| Logger.FormatMessage | ai-mail-assistant/modules/logger.js:28-39 | the log line; with `FormatMessageData` and `MultiLineIffData`, the bracketed timestamp, level and module precede the message, and data add a newline and their JSON text |
| Logger.FormatMessageData | ai-mail-assistant/modules/logger.js:28-39 | the line is `[timestamp] [LEVEL] [module] message`; null or missing data leave it as it is, other data add a newline and its JSON text |
| Logger.MultiLineIffData | ai-mail-assistant/modules/logger.js:28-39 | with a timestamp, module name and message of one line each, the entry spans several lines exactly when it carries data other than `null` |
| Logger.LoggerState.constructor | ai-mail-assistant/modules/logger.js:15 | at load the threshold is DEBUG and nothing has been written |
| Logger.LoggerState.SetLogLevel | ai-mail-assistant/modules/logger.js:96-102 | the threshold becomes the level the argument selects, and the console is untouched |
| Logger.LoggerState.LogToConsole | ai-mail-assistant/modules/logger.js:44-63 | a message below the threshold, or at no known level, writes nothing; any other writes exactly one formatted line with its level's console method; the threshold is kept |
| Logger.LoggerState.Debug | ai-mail-assistant/modules/logger.js:70 | one DEBUG line under the bound module name is written exactly when the threshold admits DEBUG |
| Logger.LoggerState.Info | ai-mail-assistant/modules/logger.js:71 | one INFO line under the bound module name is written exactly when the threshold admits INFO |
| Logger.LoggerState.Warn | ai-mail-assistant/modules/logger.js:72 | one WARN line under the bound module name is written exactly when the threshold admits WARN |
| Logger.LoggerState.Error | ai-mail-assistant/modules/logger.js:73 | one ERROR line under the bound module name is written exactly when the threshold admits ERROR |
| Logger.LoggerState.LogFunctionCall | ai-mail-assistant/modules/logger.js:76-78 | a DEBUG line `Function called: <name>` with the arguments is written when DEBUG is admitted |
| Logger.LoggerState.LogFunctionResult | ai-mail-assistant/modules/logger.js:80-82 | a DEBUG line `Function result: <name>` with the result is written when DEBUG is admitted |
| Logger.LoggerState.LogError | ai-mail-assistant/modules/logger.js:84-89 | an ERROR line `Error in <name>: <message>` with the stack and the error as data is written when ERROR is admitted |
| Logger.ThresholdFilters | ai-mail-assistant/modules/logger.js:44-73 | after `setLogLevel(arg)`, one call at each of the four levels writes exactly the line of each level the threshold `LevelOf(arg)` admits, in order |
| Logger.ThresholdKeepsLevelsFromIt | ai-mail-assistant/modules/logger.js:44-62 | for any threshold every written line is of a level at or above it; a threshold above ERROR writes nothing and one at or below DEBUG writes all four |
| Logger.NamedLevelAboveDebug | ai-mail-assistant/modules/logger.js:96-101 | a named level lies between INFO and ERROR, so no name re-admits DEBUG once it is filtered |
| Logger.WarnThresholdFilters | ai-mail-assistant/modules/logger.js:44-73 | at WARN exactly the warning and the error get through, the warning first |
| Storage.NextCount | aria-ai-assistant/modules/api-client.js:198 | a falsy or missing count restarts at 1; a stored number goes up by exactly one |
| Storage.LocalStorage.constructor | aria-ai-assistant/modules/api-client.js:197 | the store starts with exactly the contents it is given |
| Storage.LocalStorage.Read | aria-ai-assistant/modules/api-client.js:197 | a read finds a value exactly when the key is stored, and then it is the stored value |
| Storage.LocalStorage.Set | aria-ai-assistant/modules/api-client.js:199 | the given keys are overwritten and every other stored key keeps its value |
| Storage.LocalStorage.IncrementGenerationCounter | aria-ai-assistant/modules/api-client.js:195-201 | only `generatedEmails` changes, to the next count after the stored one, which is 1 when none is stored |
| Storage.CounterCounts | aria-ai-assistant/modules/api-client.js:198 | counting up from a stored number adds one, and counting from nothing gives 1 |
| RootPopup.ReplySettingsOf | popup.js:2-7 | each setting is the stored one when truthy, else its default: the OpenAI endpoint, an empty key, `gpt-4o-mini`, the German system prompt and 5 messages; all but the key are therefore truthy |
| RootPopup.ReplyDefaults | popup.js:3-7 | an empty store gives the five defaults, and a context size of 0 counts as unset |
| RootPopup.ByAuthor | popup.js:20 | `filter` by author; with `ByAuthorSound`, `ByAuthorComplete` and `ByAuthorAppend`, it keeps exactly the author's messages, in order, and distributes over concatenation |
| RootPopup.ByAuthorSound | popup.js:20 | the filter keeps only messages of the list that are by the author, and never more than the list holds |
| RootPopup.ByAuthorAppend | popup.js:20 | filtering splits over concatenation, so the kept messages stay in their original order |
| RootPopup.ByAuthorComplete | popup.js:20 | every message of the list by the author is kept |
| RootPopup.Slice | popup.js:21 | the slice is a suffix of the list; a negative start keeps that many messages from the end, at most all of them, and a non-negative start drops that many from the front |
| RootPopup.LastMessages | popup.js:21 | `slice(-contextSize)`: whatever the context size, the result is a tail of the conversation; a size reading as `-Infinity` keeps nothing, and one reading as `Infinity` or NaN keeps everything; with `LastMessagesKeepsTail` and `NegativeContextSizeDropsHead`, a size k of at least 1 keeps the last min(k, n) messages |
| RootPopup.MinusInfinityKeepsNone | popup.js:21 | a stored size of `"-Infinity"` keeps no message |
| RootPopup.LastMessagesKeepsTail | popup.js:21 | a context size k of at least 1 keeps the last min(k, n) messages, in order |
| RootPopup.NegativeContextSizeDropsHead | popup.js:21 | a negative context size -k does not count from the end: the first k messages are dropped |
| RootPopup.ReplyPrompt | popup.js:25 | the German reply prompt; with `ReplyPromptParts` and `ReplyPromptTellsSubjects`, it is made of its three parts and no two subjects give the same prompt |
| RootPopup.ReplyPromptParts | popup.js:25 | the prompt is the system prompt and the `Kontext:` heading, then the context text, then the `Antwort auf:` heading with the subject, nothing else |
| RootPopup.ReplyPromptTellsSubjects | popup.js:25 | for the same system prompt and context, different subjects give different prompts |
| RootPopup.Answer | popup.js:47 | the answer is the response's content when it is truthy, else `Keine Antwort generiert.`, so it is never falsy |
| RootPopup.GenerateReply | popup.js:1-55 | with no displayed message it only alerts and sends nothing; otherwise it sends one request with the stored settings and the prompt built from the author's last messages, temperature 0.7 by default, and then opens a reply with the answer, or alerts the network, HTTP or parse error after `Fehler beim API-Aufruf: ` |
| MailPopup.CallOpenAI | ai-mail-assistant/popup.js:42-74 | nothing is sent exactly when URL, key or model is falsy, and then it fails with `apiSettingsMissing`; otherwise the one request carries the shared defaults with the German system prompt, a network error's message or `API-Fehler: ` and the body of a refused request is the failure, and a success is the trimmed content |
| MailPopup.GetEmailContext | ai-mail-assistant/popup.js:125-190 | without a mail tab only a draft that replies to a fetchable message gives a context, from the composer, and anything else fails with `noEmailOpen`; in a mail tab a `getDisplayedMessage` that throws fails with its own message, no displayed message fails with `noMessageSelected`, and a displayed one gives the viewer context; the body is the first non-empty plain-text part; the result is `EmailContextOf` |
| MailPopup.InsertTextAtCursor | ai-mail-assistant/popup.js:192-225 | in a composer the first session's body is replaced by the text, with nothing done when there is no session and `generalError` plus the message on a failure; in a mail tab it fails with `noEmailOpen`, with the message of a throwing `getDisplayedMessage`, or with `noMessageSelected`, and otherwise a reply to the displayed message is opened with the text, failing with the message `beginReply` throws, if it does; whatever is written is the text |
| MailPopup.FullPrompt | ai-mail-assistant/popup.js:346-353 | the submit handler's prompt; with `FullPromptIsLines`, it is the heading, subject, sender, message, instructions and closing request as separate lines, in that order |
| MailPopup.FullPromptIsLines | ai-mail-assistant/popup.js:346-353 | the prompt is the heading, the subject, the sender and the message lines, a blank line, the instructions, a blank line and the closing request, joined by newlines |
| MailPopup.PopupSttForm | ai-mail-assistant/popup.js:93-96 | the form holds the recording as `input.wav` and the model, plus the language exactly when it is truthy |
| MailPopup.TranscribeAudio | ai-mail-assistant/popup.js:76-123 | incomplete STT settings fail with `sttSettingsMissing` before the microphone is asked for; a refused microphone fails with its message; otherwise one upload of all the chunks is sent, the stream is released, and the result is the text, `''` when falsy, the response text of a refused upload, or the error |
| MailPopup.PopupFormDiffersOnlyInFileName | ai-mail-assistant/popup.js:94-96 | the popup's upload differs from the recorder module's only in the file name, `input.wav` instead of `recording.wav` |
| MailPopup.EmailContextOf | ai-mail-assistant/popup.js:125-190 | the context `getEmailContext` settles with, as a value; with `ComposerOnlyWithoutMailTab` and `DisplayErrorPassesThrough`, a composer context exactly when no mail tab is active, never for a new draft, and a display error passed on as it is |
| MailPopup.ComposerOnlyWithoutMailTab | ai-mail-assistant/popup.js:128-165 | a context comes from the composer exactly when no mail tab is active, and a new draft that answers nothing gives `noEmailOpen` |
| MailPopup.DisplayErrorPassesThrough | ai-mail-assistant/popup.js:167-172 | in a mail tab the error of a throwing `getDisplayedMessage` reaches the caller unchanged, while a `null` display gives `noMessageSelected` |
| MailPopup.PopupView.constructor | ai-mail-assistant/popup.js:270-283 | the popup opens on the main section with an empty prompt, the submit button hidden and nothing alerted |
| MailPopup.PopupView.GenerateReplyClicked | ai-mail-assistant/popup.js:285-301 | with a context the input section replaces the main one; without one its error is alerted and the sections stay; nothing else changes |
| MailPopup.PopupView.VoiceInputClicked | ai-mail-assistant/popup.js:307-323 | a transcript replaces the prompt and reveals the submit button; a failure is alerted after `speechRecognitionError`; the voice button ends enabled |
| MailPopup.PopupView.TextInputClicked | ai-mail-assistant/popup.js:326-329 | the submit button is revealed and nothing else changes |
| MailPopup.PopupView.CancelClicked | ai-mail-assistant/popup.js:373-378 | back to the main section with an empty prompt and the submit button hidden |
| MailPopup.PopupView.SubmitClicked | ai-mail-assistant/popup.js:332-370 | a blank instruction is refused with `noInstructionsProvided` before anything is looked up or sent; a missing context, a failed call and a failed insert are each alerted as `Fehler: ` and the message, and stop what follows; the request carries the prompt built from the context and the trimmed instruction; the answer is inserted where the context was found, and only a successful insert closes the popup; the button ends enabled |
| MailPopup.PopupView.SendAndInsert | ai-mail-assistant/popup.js:355-369 | once the context is known: the request is sent exactly when the settings are complete, a failed answer is alerted and nothing is inserted, an answer is inserted exactly when it succeeds and only its text is written, and the popup closes exactly on a successful insert |
| AriaPopup.PromptKeyAction | aria-ai-assistant/popup.js:83-92 | the prompt field acts exactly on Enter without Shift: it submits when the prompt is not blank and asks for an autoresponse when it is, and never starts voice input |
| AriaPopup.ShortcutActions | aria-ai-assistant/popup.js:95-107 | Ctrl or Cmd with `v`, without Shift or Alt, starts voice input, with `a` an autoresponse, and any other key does nothing |
| AriaPopup.KeyDownActions | aria-ai-assistant/popup.js:83-107 | the buttons one key press clicks, the prompt field's handler first; with `OneActionPerKey`, never more than one |
| AriaPopup.OneActionPerKey | aria-ai-assistant/popup.js:83-107 | no key press clicks two buttons, and a press clicks nothing exactly when it is neither Enter in the prompt nor one of the two shortcuts |
| AriaPopup.BreakLines | aria-ai-assistant/popup.js:216 | `replace(/\n/g, '<br>')`; with `BreakLinesShape`, `BreakLinesAppend` and `BreakLinesIsSplitJoin`, it leaves no newline, keeps text without one, and is splitting on newlines and joining with `<br>` |
| AriaPopup.BreakLinesShape | aria-ai-assistant/popup.js:216 | no newline is left, text without one is unchanged, and nothing gets shorter |
| AriaPopup.BreakLinesAppend | aria-ai-assistant/popup.js:216 | the replacement works piece by piece: it splits over concatenation |
| AriaPopup.BreakLinesIsSplitJoin | aria-ai-assistant/popup.js:216 | replacing every newline by `<br>` is splitting at the newlines and joining the pieces with `<br>` |
| AriaPopup.BreakLinesOfTwoLines | aria-ai-assistant/popup.js:216 | two lines keep their text, in order, around one `<br>` |
| AriaPopup.SettingOrNone | aria-ai-assistant/popup.js:42-55 | a stored `tone` or `length` is used when truthy, and `'none'` otherwise |
| AriaPopup.ApiErrorText | aria-ai-assistant/popup.js:243-245 | the alerted text is the thrown error's message, or the message of the exception a malformed reply raises |
| AriaPopup.StopErrorText | aria-ai-assistant/popup.js:171-173 | the alerted text is the rejection's message when there is no recording, and `undefined` when the recorder's `onerror` rejected with its event, which has no `message` |
| AriaPopup.PromptContextOf | aria-ai-assistant/popup.js:197-205 | the prompt context has the three receiver fields and the stored extension settings, `{}` when falsy |
| AriaPopup.Stats | aria-ai-assistant/popup.js:221-228 | the statistics hold exactly the token counts, the model, the time, the cost and the temperature of the answer |
| AriaPopup.StopOutcome | aria-ai-assistant/modules/stt-recorder.js:40-62 | without a recorder the stop is refused; otherwise a stop gives the held chunks as a WAV blob and an error gives the error |
| AriaPopup.Transcription | aria-ai-assistant/popup.js:157-163 | a refused stop gives its message, incomplete STT settings give `errorSttSettingsMissing`, and a transcript exists only after a stop with complete settings |
| AriaPopup.TranscribeStopped | aria-ai-assistant/popup.js:160-163 | reading the STT settings and transcribing the settled recording gives that transcription |
| AriaPopup.Popup.constructor | aria-ai-assistant/popup.js:21-62 | the popup starts with no recorder and no alert; a truthy stored prompt is restored with the buttons shown, else the field is empty; `tone` and `length` are read with `'none'` as default |
| AriaPopup.Popup.PromptInput | aria-ai-assistant/popup.js:77-80 | the text is saved as `lastPrompt`, and the buttons show exactly when it is not blank; nothing else changes |
| AriaPopup.Popup.VoiceInput | aria-ai-assistant/popup.js:131-144 | a granted microphone leaves a new recorder recording with no chunks and the stop button shown; a refusal is alerted after `speechRecognitionError` and leaves no recorder |
| AriaPopup.Popup.StopRecording | aria-ai-assistant/popup.js:149-178 | with no recorder nothing changes; otherwise the recording is stopped and its stream released, the transcript becomes the prompt and is saved or the failure is alerted, and the recorder is dropped with the voice button back |
| AriaPopup.Popup.ShowTranscript | aria-ai-assistant/popup.js:166-173 | a transcript becomes the prompt, is saved and shows the buttons; a failure is alerted after `speechRecognitionError` and changes nothing else |
| AriaPopup.Popup.Submit | aria-ai-assistant/popup.js:183-249 | a blank instruction is refused before anything is sent; a missing email context or a failed call is alerted after `generalError` and leaves the store alone; the request is sent exactly when the chat settings are complete and carries the Aria prompt of the email and the trimmed instruction; an answer is inserted with every newline as `<br>`, its statistics saved, and the counter raised unless the insert threw; the button ends enabled |
| AriaPopup.Popup.Send | aria-ai-assistant/popup.js:209-242 | the request is sent exactly when the chat settings are complete and carries the built prompt; a failed answer is alerted and nothing is stored; an answer is delivered |
| AriaPopup.Popup.Conclude | aria-ai-assistant/popup.js:210-245 | a failed call is alerted after `generalError` and stores nothing; an answer is inserted with every newline as `<br>` and delivered |
| AriaPopup.Popup.Deliver | aria-ai-assistant/popup.js:212-241 | the statistics are saved, the answer is inserted with its newlines as `<br>`, and the counter goes up exactly when the insert did not throw, whose error is alerted instead |
| AriaPopup.Popup.Cancel | aria-ai-assistant/popup.js:254-259 | the prompt is emptied, saved empty and the buttons hidden; nothing else changes |
| AriaPopup.Popup.Autoresponse | aria-ai-assistant/popup.js:264-273 | the translated `autoresponsePrompt` becomes the prompt and shows the buttons; the submit that follows starts from the store with `lastPrompt` set to it: a blank text or a missing email context is alerted with nothing sent, the request is sent exactly when the chat settings are complete and carries the Aria prompt of that text, a failure leaves the store as saved and is alerted after `generalError`, and an answer is inserted with `<br>` line breaks, its statistics saved and the counter raised unless the insert threw |

## Left out

- Thunderbird, `browser.storage`, `fetch`, `getUserMedia` and `MediaRecorder` are not executed: their results are parameters of the model; a call that throws is modelled only where the code catches or reports it.
- The DOM: `localizePage`, button texts and disabled states other than the submit and voice buttons, focus, `displayStats`, `openSettingsTab`, the version label and the settings pages' form wiring beyond `loadSettings`; they only copy values into the page.
- `aria-ai-assistant/modules/email-context.js` and `aria-ai-assistant/modules/ui-helpers.js` are not part of this model; the Aria popup takes the email context, `stripHtml` and the insert's outcome as inputs, and takes its `loadLastPrompt`/`savePrompt` to behave as the AI Mail helpers of `ai-mail-assistant/modules/ui-helpers.js:64-74` do: a read of the stored `lastPrompt`, `''` when falsy, and a write of it.
- `settings-data.js`, `settings-api-test.js`, `settings-i18n.js`, both `background.js` files, `stt.js`, the root `settings.js` and `aria-ai-assistant/settings.js`: storage-to-form copying, HTTP probes and account plumbing with no rule of their own.
- `JSON.parse` and `JSON.stringify`: the model starts from parsed values, and `JSON.stringify(data, null, 2)` in the logger is a parameter.
- The `DOMParser` tag stripping and the `<style>`/`<script>` regular expressions of `stripHtml`: the model starts at the plain text the parser extracts. The signature-name regular expressions are the parameter `signatureNames`.
- Floating point: the dollar amount of a non-zero cost (`toFixed(6)`), the elapsed time (`performance.now`, `toFixed(2)`) and JavaScript's number-to-text conversion are parameters (`amount`, `time`, `numText`); the cost total is computed on exact reals, where JavaScript rounds each product to a double.
- ApiClient.CostOf: only the `< $0.01` label is computed; a non-zero or NaN total is `None`, standing for its formatted amount.
- ApiClient.Price: a model that is not a string counts as having no price; JavaScript would look up its text, so a one-element array naming a priced model would be priced.
- Js.ToNumber: how a string reads as a number (`"12"`, `"-Infinity"`, `"1e400"`) is the parameter `stringToNumber`; a JSON number is always finite, as `Js.Json` holds exact reals.
- Direct `console.log` and `console.error` calls outside the logger (in `insertTextAtCursor`, `getActiveMailTab` and the popups' `catch` blocks) are not modelled; they print and change nothing.
- Timers and concurrency: the five-second `setTimeout` of the AI Mail recording and the interleaving of asynchronous handlers; each handler runs to completion.
- The `tone` and `length` arguments the Aria submit passes to `buildPrompt`, which that function does not take.
- SystemPromptManager.SortedNames: names are ordered by code point; JavaScript's default sort compares UTF-16 units, which differs only for characters outside the Basic Multilingual Plane.
- Logger.Upper: only ASCII letters are upper-cased; `toUpperCase` of other letters is not modelled.
- Logger.LevelOf: a `setLogLevel` argument that is neither a string nor a number is not modelled.
- Logger.LoggerState.LogError: an error without `stack` is given `stack: null`, where `JSON.stringify` would leave the key out.
- RootPopup.GenerateReply: a failing `beginReply` and a missing mail tab (which throws before the alert) are not modelled.
- MailPopup.TranscribeAudio: a `new MediaRecorder(stream)` that throws after the microphone was granted, which the voice handler reports while the stream stays open, is not modelled.
- SttRecorder.STTRecorder.StartRecording: a `new MediaRecorder` that throws after the stream was granted, and starting while a recording runs, are not modelled.
- SttRecorder.STTRecorder.DataAvailable: data arriving after `cleanup` is not modelled; the recorder events are method calls.
- The Aria popup's `setButtonState` texts, and `toggleRecordingUI` beyond the single `recordingShown` flag.
- AriaPopup.Popup.PromptInput, AriaPopup.Popup.Submit, AriaPopup.Popup.Cancel and AriaPopup.Popup.Autoresponse: these state that the recorder field is unchanged rather than that the popup's validity is preserved.
- MailPopup.PopupView.VoiceInputClicked: the voice button's label is not modelled, only its disabled state.
- MailPopup.GetEmailContext: a failing `messages.getFull` is not modelled; the parts are a total function of the message id.
- EmailContext.ActiveMailTab: an exception from `tabs.query` is not modelled.
- Locale bundles are taken to be JSON objects; a bundle whose top level is not an object is not modelled.
- Js.Get: a property read gives `undefined` for the properties of strings and numbers and for keys inherited from `Object.prototype`; for the fixed keys the code reads this changes no result.
- SystemPromptManager.PromptLibrary.Load: a prompt name typed by the user that is inherited from `Object.prototype` (`toString`, `constructor`, `__proto__`, ...) and not saved reads the inherited member in JavaScript, which is truthy; the model gives null. Deleting such a name is a no-op in both.
