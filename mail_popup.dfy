/**
 * The AI Mail popup: its own copies of `callOpenAI`, `getEmailContext` and
 * `insertTextAtCursor`, the German prompt template, and the handlers of the
 * generate, text-input, submit and cancel buttons.
 *
 * `browser.i18n.getMessage` is the parameter `getMessage`; Thunderbird's
 * tab, compose and message calls are parameters as well.
 */
module MailPopup {
  import opened Js
  import opened JsStrings
  import EmailContext
  import ApiClient
  import SttRecorder

  const DefaultSystemPrompt := "Du bist ein hilfreicher E-Mail-Assistent."

  // ---------------------------------------------------------------------------
  // callOpenAI
  // ---------------------------------------------------------------------------

  /**
   * The outcome `r` of the popup's `callOpenAI` for the response `resp`: a
   * network error's message, `API-Fehler: ` and the body of a refused
   * request, `thrown` for a reply without content, or the trimmed content.
   */
  predicate Replied(resp: ApiClient.FetchResult, thrown: string, r: Result<string, string>) {
    match resp
    case NetworkError(e) => r == Failure(e)
    case HttpResponse(ok, _, text, json) =>
      if !ok then r == Failure("API-Fehler: " + text)
      else if json.None? || ApiClient.ReplyContent(json.value).None? then r == Failure(thrown)
      else r == Success(Trim(ApiClient.ReplyContent(json.value).value))
  }

  /**
   * `callOpenAI(prompt)` of the popup: the same checks and body defaults as
   * the shared client, with a German system prompt, and only the trimmed
   * reply comes back. A failure carries the thrown error's message; `thrown`
   * is the message of the exception a malformed reply raises.
   */
  method CallOpenAI(stored: Option<Json>, prompt: string, getMessage: string -> string,
                    fetch: ApiClient.ChatRequest -> ApiClient.FetchResult, thrown: string)
    returns (r: Result<string, string>, sent: Option<ApiClient.ChatRequest>)
    ensures sent.None? <==> !ApiClient.SettingsComplete(ApiClient.StoredSettings(stored))
    ensures sent.None? ==> r == Failure(getMessage("apiSettingsMissing"))
    ensures sent.Some? ==> sent.value == ApiClient.BuildChatRequest(ApiClient.StoredSettings(stored), prompt, JStr(DefaultSystemPrompt))
    ensures sent.Some? ==> Replied(fetch(sent.value), thrown, r)
    ensures r.Success? ==> Trimmed(r.value)
  {
    var settings := ApiClient.StoredSettings(stored);
    if !ApiClient.SettingsComplete(settings) {
      return Failure(getMessage("apiSettingsMissing")), None;
    }
    var request := ApiClient.BuildChatRequest(settings, prompt, JStr(DefaultSystemPrompt));
    sent := Some(request);
    var response := fetch(request);
    match response
    case NetworkError(e) =>
      r := Failure(e);
    case HttpResponse(ok, _, text, json) =>
      if !ok {
        r := Failure("API-Fehler: " + text);
      } else if json.None? || ApiClient.ReplyContent(json.value).None? {
        r := Failure(thrown);
      } else {
        var content := ApiClient.ReplyContent(json.value).value;
        TrimIdempotent(content);
        r := Success(Trim(content));
      }
  }

  // ---------------------------------------------------------------------------
  // getEmailContext
  // ---------------------------------------------------------------------------

  datatype Where = InComposer | InViewer

  /** `{ messageId, emailBody, subject, sender, context }` */
  datatype PopupContext = PopupContext(messageId: int, emailBody: string, subject: string, sender: string, context: Where)

  /**
   * What Thunderbird answers. In the composer lookup, which sits inside a
   * `try`, `None` stands for `null` or a call that threw. `displayed` is
   * `getDisplayedMessage`, which no `try` guards: `Success(None)` is `null`
   * and `Failure(e)` a call that throws with message `e`. `beginReplyError`
   * is the message `compose.beginReply` throws, if it does.
   */
  datatype Thunderbird = Thunderbird(
    currentMailTab: Option<EmailContext.Tab>,
    activeTabs: seq<EmailContext.Tab>,
    composeSessions: Option<seq<int>>,
    composeDetails: int -> Option<EmailContext.ComposeDetails>,
    messageById: int -> Option<EmailContext.MessageHeader>,
    displayed: int -> Result<Option<EmailContext.MessageHeader>, string>,
    fullParts: int -> seq<EmailContext.Part>,
    beginReplyError: Option<string>)

  /** The composer path: the first session's draft, but only when it answers a message that can be fetched. */
  predicate ComposerReply(tb: Thunderbird) {
    && tb.composeSessions.Some? && |tb.composeSessions.value| > 0
    && tb.composeDetails(tb.composeSessions.value[0]).Some?
    && var details := tb.composeDetails(tb.composeSessions.value[0]).value;
       details.inReplyTo.Some? && details.inReplyTo.value != 0 && tb.messageById(details.inReplyTo.value).Some?
  }

  /**
   * `getEmailContext` of the popup. With no mail tab only a reply draft
   * qualifies, and anything else (no session, a new draft, a failed lookup)
   * ends in `noEmailOpen`; in a mail tab an empty display is
   * `noMessageSelected`, and a `getDisplayedMessage` that throws passes its
   * message on. The body is the first non-empty plain-text part.
   */
  method GetEmailContext(tb: Thunderbird, getMessage: string -> string) returns (r: Result<PopupContext, string>)
    ensures r == EmailContextOf(tb, getMessage)
    ensures var tab := EmailContext.ActiveMailTab(tb.currentMailTab, tb.activeTabs);
      && (tab.None? && !ComposerReply(tb) ==> r == Failure(getMessage("noEmailOpen")))
      && (tab.None? && ComposerReply(tb) ==>
            var m := tb.messageById(tb.composeDetails(tb.composeSessions.value[0]).value.inReplyTo.value).value;
            r == Success(PopupContext(m.id, EmailContext.FirstPlainText(tb.fullParts(m.id)), m.subject, m.author, InComposer)))
      && (tab.Some? && tb.displayed(tab.value.id).Failure? ==> r == Failure(tb.displayed(tab.value.id).error))
      && (tab.Some? && tb.displayed(tab.value.id) == Success(None) ==> r == Failure(getMessage("noMessageSelected")))
      && (tab.Some? && tb.displayed(tab.value.id).Success? && tb.displayed(tab.value.id).value.Some? ==>
            var m := tb.displayed(tab.value.id).value.value;
            r == Success(PopupContext(m.id, EmailContext.FirstPlainText(tb.fullParts(m.id)), m.subject, m.author, InViewer)))
  {
    var mailTab := EmailContext.ActiveMailTab(tb.currentMailTab, tb.activeTabs);
    if mailTab.None? {
      if ComposerReply(tb) {
        var details := tb.composeDetails(tb.composeSessions.value[0]).value;
        var message := tb.messageById(details.inReplyTo.value).value;
        var body := EmailContext.SelectPlainBody(tb.fullParts(message.id));
        return Success(PopupContext(message.id, body, message.subject, message.author, InComposer));
      }
      return Failure(getMessage("noEmailOpen"));
    }
    var displayed := tb.displayed(mailTab.value.id);
    if displayed.Failure? {
      return Failure(displayed.error);
    }
    var message := displayed.value;
    if message.None? {
      return Failure(getMessage("noMessageSelected"));
    }
    var body := EmailContext.SelectPlainBody(tb.fullParts(message.value.id));
    r := Success(PopupContext(message.value.id, body, message.value.subject, message.value.author, InViewer));
  }

  // ---------------------------------------------------------------------------
  // insertTextAtCursor
  // ---------------------------------------------------------------------------

  /**
   * The outcome `r` and the write of `insertTextAtCursor(text, context)`. In
   * a composer: the error of listing the sessions, nothing at all without a
   * session, or the first session's body replaced by the text, failing with
   * `setDetailsError` if that throws. In a mail tab: `noEmailOpen` without a
   * mail tab, the message of a throwing `getDisplayedMessage`,
   * `noMessageSelected` without a displayed message, or a reply to the
   * displayed message with the text, failing with the message
   * `beginReply` throws, if it does.
   */
  predicate Inserted(text: string, context: Where, tb: Thunderbird, sessions: Result<seq<int>, string>,
                     setDetailsError: Option<string>, getMessage: string -> string,
                     r: Result<(), string>, write: Option<EmailContext.Insertion>)
  {
    match context
    case InComposer =>
      if sessions.Failure? then r == Failure(getMessage("generalError") + sessions.error) && write.None?
      else if sessions.value == [] then r == Success(()) && write.None?
      else
        && write == Some(EmailContext.SetComposeBody(sessions.value[0], text))
        && r == (if setDetailsError.Some? then Failure(getMessage("generalError") + setDetailsError.value) else Success(()))
    case InViewer =>
      var tab := EmailContext.ActiveMailTab(tb.currentMailTab, tb.activeTabs);
      if tab.None? then r == Failure(getMessage("noEmailOpen")) && write.None?
      else if tb.displayed(tab.value.id).Failure? then r == Failure(tb.displayed(tab.value.id).error) && write.None?
      else if tb.displayed(tab.value.id).value.None? then r == Failure(getMessage("noMessageSelected")) && write.None?
      else
        && write == Some(EmailContext.BeginReply(tb.displayed(tab.value.id).value.value.id, text))
        && r == (if tb.beginReplyError.Some? then Failure(tb.beginReplyError.value) else Success(()))
  }

  /**
   * `insertTextAtCursor(text, context)`. In a composer the first session's
   * body is replaced by the text outright; with no session nothing happens.
   * `sessions` is `listComposeSessions` (a failure carries the error's
   * message) and `setDetailsError` the message `setComposeDetails` throws,
   * if it does. Otherwise a reply to the displayed message is opened; the
   * errors of that path are not wrapped.
   */
  method InsertTextAtCursor(text: string, context: Where, tb: Thunderbird, sessions: Result<seq<int>, string>,
                            setDetailsError: Option<string>, getMessage: string -> string)
    returns (r: Result<(), string>, write: Option<EmailContext.Insertion>)
    ensures write.Some? ==> write.value.body == text
    ensures Inserted(text, context, tb, sessions, setDetailsError, getMessage, r, write)
  {
    write := None;
    if context == InComposer {
      if sessions.Failure? {
        return Failure(getMessage("generalError") + sessions.error), None;
      }
      if sessions.value != [] {
        write := Some(EmailContext.SetComposeBody(sessions.value[0], text));
        if setDetailsError.Some? {
          return Failure(getMessage("generalError") + setDetailsError.value), write;
        }
      }
      return Success(()), write;
    }
    var mailTab := EmailContext.ActiveMailTab(tb.currentMailTab, tb.activeTabs);
    if mailTab.None? {
      return Failure(getMessage("noEmailOpen")), None;
    }
    var displayed := tb.displayed(mailTab.value.id);
    if displayed.Failure? {
      return Failure(displayed.error), None;
    }
    var message := displayed.value;
    if message.None? {
      return Failure(getMessage("noMessageSelected")), None;
    }
    write := Some(EmailContext.BeginReply(message.value.id, text));
    r := if tb.beginReplyError.Some? then Failure(tb.beginReplyError.value) else Success(());
  }

  // ---------------------------------------------------------------------------
  // The prompt
  // ---------------------------------------------------------------------------

  const Closing := "Bitte schreibe eine passende Antwort basierend auf dem E-Mail-Kontext und den Benutzeranweisungen."

  /** The submit handler's `fullPrompt`. */
  function FullPrompt(ctx: PopupContext, userPrompt: string): string {
    "E-Mail-Kontext:\n"
    + ("Betreff: " + ctx.subject + "\n"
    + ("Absender: " + ctx.sender + "\n"
    + ("Nachricht: " + ctx.emailBody + "\n"
    + ("\n"
    + ("Benutzeranweisungen: " + userPrompt + "\n"
    + ("\n"
    + Closing))))))
  }

  /** The prompt line by line: subject, sender, message and instructions, in that order, between fixed lines. */
  function FullPromptLines(ctx: PopupContext, userPrompt: string): seq<string> {
    ["E-Mail-Kontext:", "Betreff: " + ctx.subject, "Absender: " + ctx.sender, "Nachricht: " + ctx.emailBody,
     "", "Benutzeranweisungen: " + userPrompt, "", Closing]
  }

  lemma JoinStep(x: string, rest: seq<string>, tail: string)
    requires |rest| > 0 && Join(rest, "\n") == tail
    ensures Join([x] + rest, "\n") == x + "\n" + tail
  {
    JoinCons(x, rest, "\n");
  }

  /** The prompt is its lines joined by newlines. */
  lemma FullPromptIsLines(ctx: PopupContext, userPrompt: string)
    ensures FullPrompt(ctx, userPrompt) == Join(FullPromptLines(ctx, userPrompt), "\n")
  {
    var l := FullPromptLines(ctx, userPrompt);
    assert [l[7]][1..] == [];
    JoinStep(l[6], [l[7]], Closing);
    assert [l[6]] + [l[7]] == l[6..];
    JoinStep(l[5], l[6..], "\n" + Closing);
    assert [l[5]] + l[6..] == l[5..];
    JoinStep(l[4], l[5..], l[5] + "\n" + ("\n" + Closing));
    assert [l[4]] + l[5..] == l[4..];
    JoinStep(l[3], l[4..], "\n" + (l[5] + "\n" + ("\n" + Closing)));
    assert [l[3]] + l[4..] == l[3..];
    JoinStep(l[2], l[3..], l[3] + "\n" + ("\n" + (l[5] + "\n" + ("\n" + Closing))));
    assert [l[2]] + l[3..] == l[2..];
    JoinStep(l[1], l[2..], l[2] + "\n" + (l[3] + "\n" + ("\n" + (l[5] + "\n" + ("\n" + Closing)))));
    assert [l[1]] + l[2..] == l[1..];
    JoinStep(l[0], l[1..], l[1] + "\n" + (l[2] + "\n" + (l[3] + "\n" + ("\n" + (l[5] + "\n" + ("\n" + Closing))))));
    assert [l[0]] + l[1..] == l;
  }

  // ---------------------------------------------------------------------------
  // transcribeAudio
  // ---------------------------------------------------------------------------

  /** The popup's form: the recording as `input.wav`, the model and, when truthy, the language. */
  function PopupSttForm(audio: SttRecorder.Blob, stt: Json): (f: seq<SttRecorder.FormField>)
    requires SttRecorder.SttSettingsComplete(stt)
    ensures |f| >= 2 && f[0] == SttRecorder.FileField("file", audio, "input.wav")
    ensures f[1] == SttRecorder.TextField("model", Get(Some(stt), "model").value)
    ensures |f| == 3 <==> TruthyOpt(Get(Some(stt), "language"))
    ensures |f| == 3 ==> f[2] == SttRecorder.TextField("language", Get(Some(stt), "language").value)
    ensures |f| <= 3
  {
    [SttRecorder.FileField("file", audio, "input.wav"), SttRecorder.TextField("model", Get(Some(stt), "model").value)]
    + (if TruthyOpt(Get(Some(stt), "language")) then [SttRecorder.TextField("language", Get(Some(stt), "language").value)] else [])
  }

  /**
   * The popup's `transcribeAudio()`: a fixed five-second recording. The
   * settings are checked before the microphone is asked for; `micError` is
   * the message `getUserMedia` rejects with, if it does, and `chunks` the
   * data the recorder delivered, every one of them kept. A failed upload
   * fails with the response text alone. `tracksStopped` says the stream was
   * released, which happens whenever it was acquired.
   */
  method TranscribeAudio(stored: Option<Json>, micError: Option<string>, chunks: seq<SttRecorder.Chunk>,
                         getMessage: string -> string, fetch: SttRecorder.SttRequest -> ApiClient.FetchResult, thrown: string)
    returns (r: Result<Json, string>, sent: Option<SttRecorder.SttRequest>, tracksStopped: bool)
    ensures var stt := ApiClient.StoredSettings(stored);
      && (!SttRecorder.SttSettingsComplete(stt) ==> r == Failure(getMessage("sttSettingsMissing")) && sent.None? && !tracksStopped)
      && (SttRecorder.SttSettingsComplete(stt) && micError.Some? ==> r == Failure(micError.value) && sent.None? && !tracksStopped)
      && (SttRecorder.SttSettingsComplete(stt) && micError.None? ==>
            && tracksStopped
            && sent == Some(SttRecorder.SttRequest(Get(Some(stt), "apiUrl").value, Get(Some(stt), "apiKey").value,
                                                   PopupSttForm(SttRecorder.Blob(chunks, "audio/wav"), stt))))
    ensures sent.Some? ==> match fetch(sent.value)
      case NetworkError(e) => r == Failure(e)
      case HttpResponse(ok, _, text, json) =>
        if !ok then r == Failure(text)
        else if json.None? || json.value == JNull then r == Failure(thrown)
        else r == Success(Or(Get(json, "text"), JStr("")))
    ensures r.Success? ==> Truthy(r.value) || r.value == JStr("")
  {
    var stt := ApiClient.StoredSettings(stored);
    if !SttRecorder.SttSettingsComplete(stt) {
      return Failure(getMessage("sttSettingsMissing")), None, false;
    }
    if micError.Some? {
      return Failure(micError.value), None, false;
    }
    var audioBlob := SttRecorder.Blob(chunks, "audio/wav");
    var request := SttRecorder.SttRequest(Get(Some(stt), "apiUrl").value, Get(Some(stt), "apiKey").value, PopupSttForm(audioBlob, stt));
    sent := Some(request);
    tracksStopped := true;
    match fetch(request)
    case NetworkError(e) =>
      r := Failure(e);
    case HttpResponse(ok, _, text, json) =>
      if !ok {
        r := Failure(text);
      } else if json.None? || json.value == JNull {
        r := Failure(thrown);
      } else {
        r := Success(Or(Get(json, "text"), JStr("")));
      }
  }

  /** The popup uploads the same recording under a different file name than the recorder module, and is otherwise the same form. */
  lemma PopupFormDiffersOnlyInFileName(audio: SttRecorder.Blob, stt: Json)
    requires SttRecorder.SttSettingsComplete(stt)
    ensures PopupSttForm(audio, stt)[1..] == SttRecorder.SttForm(audio, stt)[1..]
    ensures PopupSttForm(audio, stt)[0].fileName == "input.wav" && SttRecorder.SttForm(audio, stt)[0].fileName == "recording.wav"
  {
  }

  // ---------------------------------------------------------------------------
  // The buttons
  // ---------------------------------------------------------------------------

  /** The context `getEmailContext` finds, as a value. */
  function EmailContextOf(tb: Thunderbird, getMessage: string -> string): Result<PopupContext, string> {
    var tab := EmailContext.ActiveMailTab(tb.currentMailTab, tb.activeTabs);
    if tab.None? then
      if ComposerReply(tb) then
        var m := tb.messageById(tb.composeDetails(tb.composeSessions.value[0]).value.inReplyTo.value).value;
        Success(PopupContext(m.id, EmailContext.FirstPlainText(tb.fullParts(m.id)), m.subject, m.author, InComposer))
      else Failure(getMessage("noEmailOpen"))
    else if tb.displayed(tab.value.id).Failure? then Failure(tb.displayed(tab.value.id).error)
    else if tb.displayed(tab.value.id).value.Some? then
      var m := tb.displayed(tab.value.id).value.value;
      Success(PopupContext(m.id, EmailContext.FirstPlainText(tb.fullParts(m.id)), m.subject, m.author, InViewer))
    else Failure(getMessage("noMessageSelected"))
  }

  /** A reply context is in the composer exactly when no mail tab is active, and a new draft never gives one. */
  lemma ComposerOnlyWithoutMailTab(tb: Thunderbird, getMessage: string -> string)
    ensures EmailContextOf(tb, getMessage).Success? ==>
      (EmailContextOf(tb, getMessage).value.context == InComposer <==> EmailContext.ActiveMailTab(tb.currentMailTab, tb.activeTabs).None?)
    ensures EmailContext.ActiveMailTab(tb.currentMailTab, tb.activeTabs).None? && tb.composeSessions.Some?
      && |tb.composeSessions.value| > 0 && tb.composeDetails(tb.composeSessions.value[0]).Some?
      && tb.composeDetails(tb.composeSessions.value[0]).value.inReplyTo.None?
      ==> EmailContextOf(tb, getMessage) == Failure(getMessage("noEmailOpen"))
  {
  }

  /**
   * In a mail tab a `getDisplayedMessage` that throws is not caught by the
   * lookup: its own message becomes the error, in place of `noMessageSelected`.
   */
  lemma DisplayErrorPassesThrough(tb: Thunderbird, getMessage: string -> string)
    requires EmailContext.ActiveMailTab(tb.currentMailTab, tb.activeTabs).Some?
    ensures var id := EmailContext.ActiveMailTab(tb.currentMailTab, tb.activeTabs).value.id;
      && (tb.displayed(id).Failure? ==> EmailContextOf(tb, getMessage) == Failure(tb.displayed(id).error))
      && (tb.displayed(id) == Success(None) ==> EmailContextOf(tb, getMessage) == Failure(getMessage("noMessageSelected")))
  {
  }

  /** The popup's visible state. */
  class PopupView {
    var mainShown: bool
    var inputShown: bool
    var promptValue: string
    var submitShown: bool
    var submitDisabled: bool
    var voiceDisabled: bool
    var alerts: seq<string>
    var closed: bool

    constructor ()
      ensures mainShown && !inputShown && promptValue == "" && !submitShown && !submitDisabled && !voiceDisabled
      ensures alerts == [] && !closed
    {
      mainShown := true;
      inputShown := false;
      promptValue := "";
      submitShown := false;
      submitDisabled := false;
      voiceDisabled := false;
      alerts := [];
      closed := false;
    }

    /** "Generate reply": switch to the input section when there is a context, else alert its error. */
    method GenerateReplyClicked(tb: Thunderbird, getMessage: string -> string)
      modifies this
      ensures EmailContextOf(tb, getMessage).Success? ==> !mainShown && inputShown && alerts == old(alerts)
      ensures EmailContextOf(tb, getMessage).Failure? ==>
        && mainShown == old(mainShown) && inputShown == old(inputShown)
        && alerts == old(alerts) + [EmailContextOf(tb, getMessage).error]
      ensures promptValue == old(promptValue) && submitShown == old(submitShown) && closed == old(closed)
      ensures submitDisabled == old(submitDisabled) && voiceDisabled == old(voiceDisabled)
    {
      var context := GetEmailContext(tb, getMessage);
      if context.Failure? {
        alerts := alerts + [context.error];
        return;
      }
      mainShown := false;
      inputShown := true;
    }

    /** "Voice input": the transcript, as the field shows it, replaces the prompt; a failure is alerted after `speechRecognitionError`. */
    method VoiceInputClicked(transcript: Result<string, string>, getMessage: string -> string)
      modifies this
      ensures transcript.Success? ==> promptValue == transcript.value && submitShown && alerts == old(alerts)
      ensures transcript.Failure? ==>
        && promptValue == old(promptValue) && submitShown == old(submitShown)
        && alerts == old(alerts) + [getMessage("speechRecognitionError") + transcript.error]
      ensures !voiceDisabled
      ensures mainShown == old(mainShown) && inputShown == old(inputShown) && closed == old(closed)
      ensures submitDisabled == old(submitDisabled)
    {
      voiceDisabled := true;
      if transcript.Failure? {
        alerts := alerts + [getMessage("speechRecognitionError") + transcript.error];
      } else {
        promptValue := transcript.value;
        submitShown := true;
      }
      voiceDisabled := false;
    }

    /** "Text input": reveals the submit button. */
    method TextInputClicked()
      modifies this
      ensures submitShown
      ensures mainShown == old(mainShown) && inputShown == old(inputShown) && promptValue == old(promptValue)
      ensures alerts == old(alerts) && closed == old(closed) && submitDisabled == old(submitDisabled)
      ensures voiceDisabled == old(voiceDisabled)
    {
      submitShown := true;
    }

    /** "Cancel": back to the main section with an empty prompt and the submit button hidden. */
    method CancelClicked()
      modifies this
      ensures mainShown && !inputShown && promptValue == "" && !submitShown
      ensures alerts == old(alerts) && closed == old(closed) && submitDisabled == old(submitDisabled)
      ensures voiceDisabled == old(voiceDisabled)
    {
      mainShown := true;
      inputShown := false;
      promptValue := "";
      submitShown := false;
    }

    /**
     * "Submit". An instruction that is empty once trimmed is refused with
     * `noInstructionsProvided` before the context is looked up or anything
     * is sent. Otherwise the context is looked up, the prompt sent and the
     * answer inserted, and the popup closes; any failure on the way is
     * alerted as `Fehler: <message>` instead. The button is enabled again
     * either way. `answer` is what `callOpenAI` gave back and `insertion`
     * what `insertTextAtCursor` did, when they were called.
     */
    method SubmitClicked(tb: Thunderbird, stored: Option<Json>, getMessage: string -> string,
                         fetch: ApiClient.ChatRequest -> ApiClient.FetchResult, thrown: string,
                         sessions: Result<seq<int>, string>, setDetailsError: Option<string>)
      returns (sent: Option<ApiClient.ChatRequest>, answer: Option<Result<string, string>>,
               insertion: Option<Result<(), string>>, write: Option<EmailContext.Insertion>)
      modifies this
      ensures IsBlank(old(promptValue)) ==>
        && sent.None? && answer.None? && write.None?
        && alerts == old(alerts) + [getMessage("noInstructionsProvided")] && closed == old(closed)
      ensures !IsBlank(old(promptValue)) && EmailContextOf(tb, getMessage).Failure? ==>
        && sent.None? && answer.None? && write.None?
        && alerts == old(alerts) + ["Fehler: " + EmailContextOf(tb, getMessage).error] && closed == old(closed)
      ensures answer.Some? <==> !IsBlank(old(promptValue)) && EmailContextOf(tb, getMessage).Success?
      ensures answer.Some? ==>
        && (sent.Some? <==> ApiClient.SettingsComplete(ApiClient.StoredSettings(stored)))
        && (sent.None? ==> answer.value == Failure(getMessage("apiSettingsMissing")))
      ensures sent.Some? ==>
        && answer.Some? && Replied(fetch(sent.value), thrown, answer.value)
        && EmailContextOf(tb, getMessage).Success?
        && sent.value == ApiClient.BuildChatRequest(ApiClient.StoredSettings(stored),
             FullPrompt(EmailContextOf(tb, getMessage).value, Trim(old(promptValue))), JStr(DefaultSystemPrompt))
      ensures answer.Some? && answer.value.Failure? ==>
        && insertion.None? && write.None?
        && alerts == old(alerts) + ["Fehler: " + answer.value.error] && closed == old(closed)
      ensures insertion.Some? <==> answer.Some? && answer.value.Success?
      ensures insertion.Some? ==>
        && EmailContextOf(tb, getMessage).Success?
        && Inserted(answer.value.value, EmailContextOf(tb, getMessage).value.context, tb, sessions, setDetailsError,
                    getMessage, insertion.value, write)
      ensures write.Some? ==> answer == Some(Success(write.value.body))
      ensures insertion.Some? && insertion.value.Failure? ==>
        alerts == old(alerts) + ["Fehler: " + insertion.value.error] && closed == old(closed)
      ensures insertion == Some(Success(())) ==> closed && alerts == old(alerts)
      ensures !submitDisabled
      ensures promptValue == old(promptValue) && mainShown == old(mainShown) && inputShown == old(inputShown)
      ensures submitShown == old(submitShown) && voiceDisabled == old(voiceDisabled)
    {
      sent, answer, insertion, write := None, None, None, None;
      var userPrompt := Trim(promptValue);
      if userPrompt == "" {
        alerts := alerts + [getMessage("noInstructionsProvided")];
        submitDisabled := false;
        return;
      }
      submitDisabled := true;
      var context := GetEmailContext(tb, getMessage);
      if context.Failure? {
        alerts := alerts + ["Fehler: " + context.error];
        submitDisabled := false;
        return;
      }
      var aiResponse;
      sent, aiResponse, insertion, write := SendAndInsert(context.value, userPrompt, tb, stored, getMessage, fetch, thrown,
                                                          sessions, setDetailsError);
      answer := Some(aiResponse);
    }

    /** The submit handler from the call of `callOpenAI` on, once the context `ctx` is known. */
    method SendAndInsert(ctx: PopupContext, userPrompt: string, tb: Thunderbird, stored: Option<Json>,
                         getMessage: string -> string, fetch: ApiClient.ChatRequest -> ApiClient.FetchResult, thrown: string,
                         sessions: Result<seq<int>, string>, setDetailsError: Option<string>)
      returns (sent: Option<ApiClient.ChatRequest>, answer: Result<string, string>,
               insertion: Option<Result<(), string>>, write: Option<EmailContext.Insertion>)
      modifies this
      ensures sent.Some? <==> ApiClient.SettingsComplete(ApiClient.StoredSettings(stored))
      ensures sent.None? ==> answer == Failure(getMessage("apiSettingsMissing"))
      ensures sent.Some? ==>
        && Replied(fetch(sent.value), thrown, answer)
        && sent.value == ApiClient.BuildChatRequest(ApiClient.StoredSettings(stored), FullPrompt(ctx, userPrompt),
                                                    JStr(DefaultSystemPrompt))
      ensures answer.Failure? ==>
        && insertion.None? && write.None?
        && alerts == old(alerts) + ["Fehler: " + answer.error] && closed == old(closed)
      ensures insertion.Some? <==> answer.Success?
      ensures insertion.Some? ==>
        Inserted(answer.value, ctx.context, tb, sessions, setDetailsError, getMessage, insertion.value, write)
      ensures write.Some? ==> answer == Success(write.value.body)
      ensures insertion.Some? && insertion.value.Failure? ==>
        alerts == old(alerts) + ["Fehler: " + insertion.value.error] && closed == old(closed)
      ensures insertion == Some(Success(())) ==> closed && alerts == old(alerts)
      ensures !submitDisabled
      ensures promptValue == old(promptValue) && mainShown == old(mainShown) && inputShown == old(inputShown)
      ensures submitShown == old(submitShown) && voiceDisabled == old(voiceDisabled)
    {
      insertion, write := None, None;
      var fullPrompt := FullPrompt(ctx, userPrompt);
      answer, sent := CallOpenAI(stored, fullPrompt, getMessage, fetch, thrown);
      if answer.Failure? {
        alerts := alerts + ["Fehler: " + answer.error];
        submitDisabled := false;
        return;
      }
      var inserted;
      inserted, write := InsertTextAtCursor(answer.value, ctx.context, tb, sessions, setDetailsError, getMessage);
      insertion := Some(inserted);
      if inserted.Failure? {
        alerts := alerts + ["Fehler: " + inserted.error];
        submitDisabled := false;
        return;
      }
      closed := true;
      submitDisabled := false;
    }
  }
}
