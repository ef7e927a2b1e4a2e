/**
 * The Aria popup: the state its handlers share (the running recorder, the
 * tone and length settings, the prompt field), the Enter-key and shortcut
 * dispatch, and the voice, submit, cancel and autoresponse handlers.
 *
 * `t` is the translator the popup loads at start. The stored values live in
 * a `Storage.LocalStorage`; the email context, the HTML stripper, the insert
 * into Thunderbird, the network and the clock are parameters.
 */
module AriaPopup {
  import opened Js
  import opened JsStrings
  import Storage
  import ApiClient
  import SttRecorder

  // ---------------------------------------------------------------------------
  // Key dispatch
  // ---------------------------------------------------------------------------

  datatype KeyEvent = KeyEvent(key: string, shiftKey: bool, ctrlKey: bool, metaKey: bool, altKey: bool)

  /** The button a key press clicks. */
  datatype Action = SubmitAction | AutoresponseAction | VoiceInputAction

  /** The prompt field's `keydown`: Enter without Shift submits a non-blank prompt and asks for an autoresponse otherwise. */
  function PromptKeyAction(ev: KeyEvent, promptValue: string): (r: Option<Action>)
    ensures r.Some? <==> ev.key == "Enter" && !ev.shiftKey
    ensures r == Some(SubmitAction) <==> ev.key == "Enter" && !ev.shiftKey && !IsBlank(promptValue)
    ensures r == Some(AutoresponseAction) <==> ev.key == "Enter" && !ev.shiftKey && IsBlank(promptValue)
    ensures r != Some(VoiceInputAction)
  {
    if ev.key == "Enter" && !ev.shiftKey then
      if |Trim(promptValue)| > 0 then Some(SubmitAction) else Some(AutoresponseAction)
    else None
  }

  predicate Shortcut(ev: KeyEvent, key: string) {
    (ev.ctrlKey || ev.metaKey) && ev.key == key && !ev.shiftKey && !ev.altKey
  }

  /** The document's `keydown`: Ctrl or Cmd with `v` starts voice input, with `a` an autoresponse. */
  function ShortcutActions(ev: KeyEvent): (r: seq<Action>)
    ensures |r| <= 1
    ensures Shortcut(ev, "v") ==> r == [VoiceInputAction]
    ensures Shortcut(ev, "a") ==> r == [AutoresponseAction]
    ensures r == [] <==> !Shortcut(ev, "v") && !Shortcut(ev, "a")
  {
    assert "v" != "a" by {
      assert "v"[0] != "a"[0];
    }
    (if Shortcut(ev, "v") then [VoiceInputAction] else [])
    + (if Shortcut(ev, "a") then [AutoresponseAction] else [])
  }

  /** Everything one key press clicks: the prompt field's handler (when it has the focus) and then the document's. */
  function KeyDownActions(ev: KeyEvent, inPrompt: bool, promptValue: string): seq<Action> {
    (if inPrompt && PromptKeyAction(ev, promptValue).Some? then [PromptKeyAction(ev, promptValue).value] else [])
    + ShortcutActions(ev)
  }

  /** No key press clicks two buttons: Enter is never a shortcut, and the two shortcuts exclude each other. */
  lemma OneActionPerKey(ev: KeyEvent, inPrompt: bool, promptValue: string)
    ensures |KeyDownActions(ev, inPrompt, promptValue)| <= 1
    ensures KeyDownActions(ev, inPrompt, promptValue) == [] <==>
      !(inPrompt && ev.key == "Enter" && !ev.shiftKey) && !Shortcut(ev, "v") && !Shortcut(ev, "a")
  {
    if ev.key == "Enter" {
      assert ev.key != "v" && ev.key != "a" by {
        assert ev.key[0] == 'E';
      }
    }
  }

  // ---------------------------------------------------------------------------
  // The displayed response
  // ---------------------------------------------------------------------------

  /** `content.replace(/\n/g, '<br>')` */
  function BreakLines(s: string): string {
    if s == [] then ""
    else (if s[0] == '\n' then "<br>" else [s[0]]) + BreakLines(s[1..])
  }

  /** No newline is left, text without one is unchanged, and nothing gets shorter. */
  lemma {:induction false} BreakLinesShape(s: string)
    ensures '\n' !in s ==> BreakLines(s) == s
    ensures '\n' !in BreakLines(s)
    ensures |BreakLines(s)| >= |s|
    decreases |s|
  {
    if s != [] {
      BreakLinesShape(s[1..]);
      var h := if s[0] == '\n' then "<br>" else [s[0]];
      assert BreakLines(s) == h + BreakLines(s[1..]);
      if '\n' !in s {
        assert '\n' !in s[1..];
        assert s == [s[0]] + s[1..];
      }
    }
  }

  lemma {:induction false} BreakLinesAppend(a: string, b: string)
    ensures BreakLines(a + b) == BreakLines(a) + BreakLines(b)
    decreases |a|
  {
    if a == [] {
      assert a + b == b;
    } else {
      assert (a + b)[1..] == a[1..] + b;
      BreakLinesAppend(a[1..], b);
    }
  }

  /** Replacing every newline is splitting at the newlines and joining the pieces with `<br>`. */
  lemma {:induction false} BreakLinesIsSplitJoin(s: string)
    ensures BreakLines(s) == Join(Split(s, '\n'), "<br>")
    decreases |s|
  {
    if '\n' in s {
      var i := IndexOf(s, '\n');
      var head, rest := s[..i], s[i + 1..];
      assert s == head + "\n" + rest;
      BreakLinesAppend(head + "\n", rest);
      BreakLinesAppend(head, "\n");
      BreakNewline();
      BreakLinesShape(head);
      assert BreakLines(s) == head + "<br>" + BreakLines(rest);
      BreakLinesIsSplitJoin(rest);
      assert Split(s, '\n') == [head] + Split(rest, '\n');
      JoinCons(head, Split(rest, '\n'), "<br>");
    } else {
      BreakLinesShape(s);
    }
  }

  lemma BreakNewline()
    ensures BreakLines("\n") == "<br>"
  {
    assert "\n"[0] == '\n' && "\n"[1..] == "";
  }

  /** Multi-line content keeps every line's text, in order, between the breaks. */
  lemma BreakLinesOfTwoLines(a: string, b: string)
    requires '\n' !in a && '\n' !in b
    ensures BreakLines(a + "\n" + b) == a + "<br>" + b
  {
    var nl := "\n";
    BreakLinesShape(a);
    BreakLinesShape(b);
    BreakLinesAppend(a + nl, b);
    BreakLinesAppend(a, nl);
    BreakNewline();
  }

  // ---------------------------------------------------------------------------
  // Settings and messages
  // ---------------------------------------------------------------------------

  /** A stored `tone` or `length`, or `'none'` when it is missing or falsy. */
  function SettingOrNone(stored: Option<Json>): (r: Json)
    ensures DefaultsTo(r, stored, JStr("none"))
    ensures Truthy(r)
  {
    if TruthyOpt(stored) then stored.value else JStr("none")
  }

  /** `error.message` of what a failed `callOpenAI` or `transcribeAudio` throws; `thrown` is the message of the exception a malformed reply raises. */
  function ApiErrorText(e: ApiClient.ApiError, thrown: string): (r: string)
    ensures !e.MalformedResponse? ==> r == e.message
    ensures e.MalformedResponse? ==> r == thrown
  {
    match e
    case MalformedResponse => thrown
    case _ => e.message
  }

  /**
   * `error.message` of what a failed `stopRecording` rejects with, as the
   * alert's `+` turns it into text. The recorder's `onerror` rejects with the
   * error event itself, which has no `message`, so that case reads as
   * `undefined`.
   */
  function StopErrorText(e: SttRecorder.StopError): (r: string)
    ensures e.NoActiveRecording? ==> r == e.message
    ensures e.RecorderFailed? ==> r == "undefined"
  {
    match e
    case NoActiveRecording(m) => m
    case RecorderFailed(_) => "undefined"
  }

  /** What `getEmailContext` of the Aria extension yields: the fields `buildPrompt` and the insert read. */
  datatype AriaEmail = AriaEmail(
    subject: Option<string>, sender: Option<string>, emailBody: Option<string>,
    receiver: Option<string>, receiverName: Option<string>, receiverOrganization: Option<string>,
    context: string, tabId: Option<int>)

  /** The prompt context `buildPrompt` reads, with `extensionSettings` set as the submit handler sets it. */
  function PromptContextOf(email: AriaEmail, extension: Option<Json>): (c: ApiClient.PromptContext)
    ensures |c.identity| == 3
    ensures c.extensionSettings == Some(ApiClient.StoredSettings(extension))
  {
    ApiClient.PromptContext(Some(ApiClient.StoredSettings(extension)), email.subject, email.sender, email.emailBody,
                            [email.receiver, email.receiverName, email.receiverOrganization])
  }

  /** The `stats` object the submit handler saves; `time` and `amount` are the measured time and a non-zero cost's formatted text. */
  function Stats(result: ApiClient.ChatResult, temperature: Json, time: Json, amount: string): (s: Json)
    ensures s.JObj? && s.fields.Keys == {"inputTokens", "outputTokens", "model", "time", "cost", "temperature"}
    ensures s.fields["inputTokens"] == result.inputTokens && s.fields["outputTokens"] == result.outputTokens
    ensures s.fields["model"] == result.model && s.fields["temperature"] == temperature
    ensures s.fields["cost"] == JStr(result.cost.GetOr(amount))
  {
    JObj(map["inputTokens" := result.inputTokens, "outputTokens" := result.outputTokens, "model" := result.model,
             "time" := time, "cost" := JStr(result.cost.GetOr(amount)), "temperature" := temperature])
  }

  /**
   * The store and the alerts once an answer has arrived, from `before` and
   * `alertsBefore`: the statistics are saved, then the generation counter
   * goes up, unless the insert threw `insertError`, which is alerted after
   * `generalError` instead.
   */
  predicate AnswerDelivered(answer: ApiClient.ChatResult, chat: Option<Json>, time: Json, amount: string,
                            insertError: Option<string>, numText: real -> string, generalError: string,
                            before: map<string, Json>, alertsBefore: seq<string>, after: map<string, Json>, alertsAfter: seq<string>)
  {
    var stats := Stats(answer, Or(Get(chat, "temperature"), JNum(1.0)), time, amount);
    var count := if "generatedEmails" in before then Some(before["generatedEmails"]) else None;
    match insertError
    case Some(e) => after == before["lastStats" := stats] && alertsAfter == alertsBefore + [generalError + e]
    case None => after == before["lastStats" := stats]["generatedEmails" := Storage.NextCount(count, numText)] && alertsAfter == alertsBefore
  }

  /** What `stopRecording` settles with, given whether a recorder was present and the chunks it held. */
  function StopOutcome(hadRecorder: bool, event: SttRecorder.StopEvent, chunks: seq<SttRecorder.Chunk>, t: string -> string)
    : (r: Result<SttRecorder.Blob, SttRecorder.StopError>)
    ensures !hadRecorder ==> r == Failure(SttRecorder.NoActiveRecording(SttRecorder.NoActiveRecordingText(Some(t))))
    ensures hadRecorder && event.Stopped? ==> r == Success(SttRecorder.Blob(chunks, "audio/wav"))
    ensures hadRecorder && event.RecorderError? ==> r == Failure(SttRecorder.RecorderFailed(event.error))
  {
    if !hadRecorder then Failure(SttRecorder.NoActiveRecording(SttRecorder.NoActiveRecordingText(Some(t))))
    else match event
      case Stopped => Success(SttRecorder.Blob(chunks, "audio/wav"))
      case RecorderError(e) => Failure(SttRecorder.RecorderFailed(e))
  }

  /**
   * The transcript the stop handler obtains, or the message of what was
   * thrown on the way: the recorder's rejection, the settings check, or the
   * upload's failure.
   */
  function Transcription(stopped: Result<SttRecorder.Blob, SttRecorder.StopError>, sttStored: Option<Json>, t: string -> string,
                         fetch: SttRecorder.SttRequest -> ApiClient.FetchResult, thrown: string): (r: Result<Json, string>)
    ensures stopped.Failure? ==> r == Failure(StopErrorText(stopped.error))
    ensures stopped.Success? && !SttRecorder.SttSettingsComplete(ApiClient.StoredSettings(sttStored)) ==>
      r == Failure(ApiClient.Tr(Some(t), "errorSttSettingsMissing"))
    ensures r.Success? ==> stopped.Success? && SttRecorder.SttSettingsComplete(ApiClient.StoredSettings(sttStored))
  {
    var stt := ApiClient.StoredSettings(sttStored);
    match stopped
    case Failure(e) => Failure(StopErrorText(e))
    case Success(audio) =>
      if !SttRecorder.SttSettingsComplete(stt) then Failure(ApiClient.Tr(Some(t), "errorSttSettingsMissing"))
      else
        var request := SttRecorder.SttRequest(Get(Some(stt), "apiUrl").value, Get(Some(stt), "apiKey").value,
                                              SttRecorder.SttForm(audio, stt));
        match SttRecorder.SttResponse(fetch(request), Some(t))
        case Success(text) => Success(text)
        case Failure(e) => Failure(ApiErrorText(e, thrown))
  }

  /** The stop handler's `getSTTSettings` and `transcribeAudio` after a settled `stopRecording`. */
  method TranscribeStopped(stopped: Result<SttRecorder.Blob, SttRecorder.StopError>, sttStored: Option<Json>, t: string -> string,
                           fetch: SttRecorder.SttRequest -> ApiClient.FetchResult, thrown: string)
    returns (r: Result<Json, string>)
    ensures r == Transcription(stopped, sttStored, t, fetch, thrown)
  {
    if stopped.Failure? {
      return Failure(StopErrorText(stopped.error));
    }
    var sttSettings := ApiClient.StoredSettings(sttStored);
    var transcript, _ := SttRecorder.TranscribeAudio(stopped.value, sttSettings, Some(t), fetch);
    r := if transcript.Success? then Success(transcript.value) else Failure(ApiErrorText(transcript.error, thrown));
  }

  // ---------------------------------------------------------------------------
  // The popup
  // ---------------------------------------------------------------------------

  class Popup {
    /** The recorder of a voice input in progress, or `null`. */
    var sttRecorder: SttRecorder.STTRecorder?
    const t: string -> string
    const store: Storage.LocalStorage
    var tone: Json
    var length: Json
    var promptValue: string
    /** `updateSubmitCancelVisibility` */
    var submitCancelShown: bool
    /** `toggleRecordingUI`: the stop button instead of the voice button */
    var recordingShown: bool
    var submitDisabled: bool
    var alerts: seq<string>

    predicate Valid()
      reads this, sttRecorder
    {
      sttRecorder != null ==> sttRecorder.Valid()
    }

    /**
     * `init`: the last prompt is restored (and the buttons shown) when one is
     * stored, and `tone` and `length` are read with `'none'` as default.
     */
    constructor (t: string -> string, store: Storage.LocalStorage, numText: real -> string)
      ensures this.t == t && this.store == store && Valid()
      ensures sttRecorder == null && !recordingShown && !submitDisabled && alerts == []
      ensures tone == SettingOrNone(store.Read("tone")) && length == SettingOrNone(store.Read("length"))
      ensures TruthyOpt(store.Read("lastPrompt")) ==> promptValue == Storage.JsText(store.Read("lastPrompt").value, numText) && submitCancelShown
      ensures !TruthyOpt(store.Read("lastPrompt")) ==> promptValue == "" && !submitCancelShown
    {
      this.t := t;
      this.store := store;
      sttRecorder := null;
      recordingShown := false;
      submitDisabled := false;
      alerts := [];
      var lastPrompt := Or(store.Read("lastPrompt"), JStr(""));
      if Truthy(lastPrompt) {
        promptValue := Storage.JsText(lastPrompt, numText);
        submitCancelShown := true;
      } else {
        promptValue := "";
        submitCancelShown := false;
      }
      tone := SettingOrNone(store.Read("tone"));
      length := SettingOrNone(store.Read("length"));
    }

    /** The prompt field's `input`: the text is saved, and the buttons show exactly when it is not blank. */
    method PromptInput(value: string)
      modifies this, store
      ensures promptValue == value && submitCancelShown == !IsBlank(value)
      ensures store.items == old(store.items)["lastPrompt" := JStr(value)]
      ensures sttRecorder == old(sttRecorder) && alerts == old(alerts) && recordingShown == old(recordingShown)
      ensures tone == old(tone) && length == old(length) && submitDisabled == old(submitDisabled)
    {
      var show := |Trim(value)| > 0;
      promptValue := value;
      store.Set(map["lastPrompt" := JStr(value)]);
      submitCancelShown := show;
    }

    /**
     * `handleVoiceInput`: a new recorder replaces the field and is started
     * with the microphone `granted`. A refusal is alerted after
     * `speechRecognitionError` and leaves no recorder.
     */
    method VoiceInput(granted: Option<SttRecorder.Stream>)
      requires Valid()
      modifies this
      ensures Valid()
      ensures granted.None? ==>
        && sttRecorder == null && !recordingShown
        && alerts == old(alerts) + [t("speechRecognitionError") + ApiClient.Tr(Some(t), "errorMicrophoneAccess")]
      ensures granted.Some? ==>
        && sttRecorder != null && fresh(sttRecorder) && sttRecorder.IsRecording()
        && sttRecorder.stream == granted && sttRecorder.audioChunks == []
        && recordingShown && alerts == old(alerts)
      ensures promptValue == old(promptValue) && submitCancelShown == old(submitCancelShown)
      ensures tone == old(tone) && length == old(length) && submitDisabled == old(submitDisabled)
    {
      var recorder := new SttRecorder.STTRecorder();
      sttRecorder := recorder;
      var started := recorder.StartRecording(granted, Some(t));
      if started.Failure? {
        alerts := alerts + [t("speechRecognitionError") + started.error];
        sttRecorder := null;
        recordingShown := false;
      } else {
        recordingShown := true;
      }
    }

    /**
     * `handleStopRecording`. With no recorder it does nothing at all.
     * Otherwise the recording is stopped and transcribed; the transcript
     * becomes the prompt and is saved, or the failure is alerted after
     * `speechRecognitionError`. Either way the recorder is dropped and the
     * voice button comes back.
     */
    method StopRecording(event: SttRecorder.StopEvent, sttStored: Option<Json>,
                         fetch: SttRecorder.SttRequest -> ApiClient.FetchResult, thrown: string, numText: real -> string)
      requires Valid()
      modifies this, sttRecorder, store
      ensures Valid()
      ensures old(sttRecorder) == null ==>
        && sttRecorder == null && alerts == old(alerts) && promptValue == old(promptValue)
        && store.items == old(store.items) && recordingShown == old(recordingShown)
        && submitCancelShown == old(submitCancelShown)
      ensures old(sttRecorder) != null ==>
        && sttRecorder == null && !recordingShown && old(sttRecorder).mediaRecorder == None
        && match Transcription(StopOutcome(old(sttRecorder.mediaRecorder).Some?, event, old(sttRecorder.audioChunks), t),
                               sttStored, t, fetch, thrown)
           case Success(text) =>
             && promptValue == Storage.JsText(text, numText) && submitCancelShown
             && store.items == old(store.items)["lastPrompt" := text] && alerts == old(alerts)
           case Failure(e) =>
             && alerts == old(alerts) + [t("speechRecognitionError") + e]
             && promptValue == old(promptValue) && store.items == old(store.items)
             && submitCancelShown == old(submitCancelShown)
      ensures old(sttRecorder) != null && old(sttRecorder.mediaRecorder).Some? ==>
        old(sttRecorder).stream == None && old(sttRecorder).released == old(sttRecorder.released) + [old(sttRecorder.stream).value]
      ensures tone == old(tone) && length == old(length) && submitDisabled == old(submitDisabled)
    {
      if sttRecorder == null {
        return;
      }
      var recorder := sttRecorder;
      var stopped := recorder.StopRecording(event, Some(t));
      var transcript := TranscribeStopped(stopped, sttStored, t, fetch, thrown);
      ShowTranscript(transcript, numText);
      sttRecorder := null;
      recordingShown := false;
    }

    /** The end of the stop handler: the transcript becomes the prompt and is saved, or the failure is alerted. */
    method ShowTranscript(transcript: Result<Json, string>, numText: real -> string)
      modifies this, store
      ensures transcript.Success? ==>
        && promptValue == Storage.JsText(transcript.value, numText) && submitCancelShown
        && store.items == old(store.items)["lastPrompt" := transcript.value] && alerts == old(alerts)
      ensures transcript.Failure? ==>
        && alerts == old(alerts) + [t("speechRecognitionError") + transcript.error]
        && promptValue == old(promptValue) && store.items == old(store.items)
        && submitCancelShown == old(submitCancelShown)
      ensures sttRecorder == old(sttRecorder) && recordingShown == old(recordingShown)
      ensures tone == old(tone) && length == old(length) && submitDisabled == old(submitDisabled)
    {
      if transcript.Failure? {
        alerts := alerts + [t("speechRecognitionError") + transcript.error];
      } else {
        promptValue := Storage.JsText(transcript.value, numText);
        store.Set(map["lastPrompt" := transcript.value]);
        submitCancelShown := true;
      }
    }

    /**
     * `handleSubmit`. A blank instruction is refused with
     * `noInstructionsProvided` before anything is looked up or sent.
     * Otherwise the prompt is built from the email and the trimmed
     * instruction and sent; the answer, with every newline as `<br>`, is
     * inserted, after the statistics are saved; the generation counter goes
     * up once the insert succeeds. A failure on the way is alerted after
     * `generalError` and stops there. `email` is what `getEmailContext`
     * gives, `insertError` what `insertTextAtCursor` throws, if anything;
     * `answer` is what `callOpenAI` returned, when it was called, and
     * `stringToNumber` how it reads a string token count as a number.
     */
    method Submit(email: Result<AriaEmail, string>, stripHtmlFn: ApiClient.Stripper,
                  fetch: ApiClient.ChatRequest -> ApiClient.FetchResult, time: Json, amount: string, thrown: string,
                  insertError: Option<string>, numText: real -> string,
                  stringToNumber: string -> Number)
      returns (sent: Option<ApiClient.ChatRequest>, answer: Option<Result<ApiClient.ChatResult, ApiClient.ApiError>>,
               inserted: Option<string>)
      modifies this, store
      ensures answer.Some? && answer.value.Success? ==>
        && inserted == Some(BreakLines(answer.value.value.content))
        && AnswerDelivered(answer.value.value, old(store.Read("chat")), time, amount, insertError, numText, t("generalError"),
                           old(store.items), old(alerts), store.items, alerts)
      ensures !submitDisabled
      ensures IsBlank(old(promptValue)) ==>
        && sent.None? && inserted.None? && store.items == old(store.items)
        && alerts == old(alerts) + [t("noInstructionsProvided")]
      ensures !IsBlank(old(promptValue)) && email.Failure? ==>
        && sent.None? && inserted.None? && store.items == old(store.items)
        && alerts == old(alerts) + [t("generalError") + email.error]
      ensures !IsBlank(old(promptValue)) && email.Success? ==>
        (sent.Some? <==> ApiClient.SettingsComplete(ApiClient.StoredSettings(old(store.Read("chat")))))
      ensures answer.Some? <==> !IsBlank(old(promptValue)) && email.Success?
      ensures answer.Some? && sent.None? ==>
        answer.value == Failure(ApiClient.SettingsMissing(ApiClient.Tr(Some(t), "errorApiSettingsMissing")))
      ensures sent.Some? ==>
        answer.Some? && answer.value == ApiClient.InterpretResponse(fetch(sent.value), sent.value.model, Some(t), stringToNumber)
      ensures sent.Some? ==>
        && email.Success?
        && sent.value.userContent == ApiClient.BuildPromptAria(PromptContextOf(email.value, old(store.Read("extension"))),
                                                              Trim(old(promptValue)), stripHtmlFn, Some(t))
      ensures answer.Some? && answer.value.Failure? ==>
        && inserted.None? && store.items == old(store.items)
        && alerts == old(alerts) + [t("generalError") + ApiErrorText(answer.value.error, thrown)]
      ensures inserted.Some? ==> '\n' !in inserted.value
      ensures sttRecorder == old(sttRecorder) && promptValue == old(promptValue) && recordingShown == old(recordingShown)
      ensures submitCancelShown == old(submitCancelShown) && tone == old(tone) && length == old(length)
    {
      sent, answer, inserted := None, None, None;
      var userPrompt := Trim(promptValue);
      var chat := store.Read("chat");
      var extension := store.Read("extension");
      // Nothing the handler changes affects the prompt, so it is built before the first change.
      var fullPrompt := if email.Success? then ApiClient.BuildPromptAria(PromptContextOf(email.value, extension), userPrompt,
                                                                         stripHtmlFn, Some(t))
                        else "";
      if userPrompt == "" {
        alerts := alerts + [t("noInstructionsProvided")];
        submitDisabled := false;
        return;
      }
      submitDisabled := true;
      if email.Failure? {
        alerts := alerts + [t("generalError") + email.error];
        submitDisabled := false;
        return;
      }
      var apiResult;
      sent, apiResult, inserted := Send(chat, fullPrompt, fetch, time, amount, thrown, insertError, numText, stringToNumber);
      answer := Some(apiResult);
    }

    /**
     * The submit handler from the call of `callOpenAI` with the built prompt
     * on, for the `chat` settings `chat`.
     */
    method Send(chat: Option<Json>, fullPrompt: string, fetch: ApiClient.ChatRequest -> ApiClient.FetchResult,
                time: Json, amount: string, thrown: string, insertError: Option<string>, numText: real -> string,
                stringToNumber: string -> Number)
      returns (sent: Option<ApiClient.ChatRequest>, answer: Result<ApiClient.ChatResult, ApiClient.ApiError>,
               inserted: Option<string>)
      modifies this, store
      ensures answer.Success? ==>
        && inserted == Some(BreakLines(answer.value.content))
        && AnswerDelivered(answer.value, chat, time, amount, insertError, numText, t("generalError"),
                           old(store.items), old(alerts), store.items, alerts)
      ensures sent.Some? <==> ApiClient.SettingsComplete(ApiClient.StoredSettings(chat))
      ensures sent.None? ==> answer == Failure(ApiClient.SettingsMissing(ApiClient.Tr(Some(t), "errorApiSettingsMissing")))
      ensures sent.Some? ==>
        && answer == ApiClient.InterpretResponse(fetch(sent.value), sent.value.model, Some(t), stringToNumber)
        && sent.value.userContent == fullPrompt
      ensures answer.Failure? ==>
        && inserted.None? && store.items == old(store.items)
        && alerts == old(alerts) + [t("generalError") + ApiErrorText(answer.error, thrown)]
      ensures inserted.Some? ==> '\n' !in inserted.value
      ensures !submitDisabled
      ensures sttRecorder == old(sttRecorder) && promptValue == old(promptValue) && recordingShown == old(recordingShown)
      ensures submitCancelShown == old(submitCancelShown) && tone == old(tone) && length == old(length)
    {
      answer, sent := ApiClient.CallOpenAI(chat, fullPrompt, Some(t), fetch, stringToNumber);
      inserted := Conclude(answer, chat, time, amount, thrown, insertError, numText);
    }

    /**
     * The submit handler once `callOpenAI` has returned: a failure is alerted
     * after `generalError`, an answer is delivered.
     */
    method Conclude(apiResult: Result<ApiClient.ChatResult, ApiClient.ApiError>, chat: Option<Json>, time: Json, amount: string,
               thrown: string, insertError: Option<string>, numText: real -> string)
      returns (inserted: Option<string>)
      modifies this, store
      ensures apiResult.Failure? ==>
        && inserted.None? && store.items == old(store.items)
        && alerts == old(alerts) + [t("generalError") + ApiErrorText(apiResult.error, thrown)]
      ensures apiResult.Success? ==> inserted == Some(BreakLines(apiResult.value.content))
      ensures inserted.Some? ==> '\n' !in inserted.value
      ensures apiResult.Success? ==>
        AnswerDelivered(apiResult.value, chat, time, amount, insertError, numText, t("generalError"),
                        old(store.items), old(alerts), store.items, alerts)
      ensures !submitDisabled
      ensures sttRecorder == old(sttRecorder) && promptValue == old(promptValue) && recordingShown == old(recordingShown)
      ensures submitCancelShown == old(submitCancelShown) && tone == old(tone) && length == old(length)
    {
      inserted := None;
      if apiResult.Failure? {
        alerts := alerts + [t("generalError") + ApiErrorText(apiResult.error, thrown)];
        submitDisabled := false;
        return;
      }
      inserted := Deliver(apiResult.value, chat, time, amount, insertError, numText);
    }

    /**
     * The end of the submit handler once the answer is in: the statistics
     * are saved, the answer is inserted with every newline as `<br>`, and the
     * counter goes up unless the insert threw `insertError`, which is alerted.
     */
    method Deliver(answer: ApiClient.ChatResult, chat: Option<Json>, time: Json, amount: string,
                   insertError: Option<string>, numText: real -> string)
      returns (inserted: Option<string>)
      modifies this, store
      ensures inserted == Some(BreakLines(answer.content)) && '\n' !in inserted.value
      ensures AnswerDelivered(answer, chat, time, amount, insertError, numText, t("generalError"),
                              old(store.items), old(alerts), store.items, alerts)
      ensures !submitDisabled
      ensures sttRecorder == old(sttRecorder) && promptValue == old(promptValue) && recordingShown == old(recordingShown)
      ensures submitCancelShown == old(submitCancelShown) && tone == old(tone) && length == old(length)
    {
      var temperature := Or(Get(chat, "temperature"), JNum(1.0));
      var formattedResponse := BreakLines(answer.content);
      BreakLinesShape(answer.content);
      ApiClient.SaveStats(store, Stats(answer, temperature, time, amount));
      inserted := Some(formattedResponse);
      if insertError.Some? {
        alerts := alerts + [t("generalError") + insertError.value];
        submitDisabled := false;
        return;
      }
      store.IncrementGenerationCounter(numText);
      submitDisabled := false;
    }

    /** `handleCancel`: the prompt is emptied, saved empty, and the buttons hidden. */
    method Cancel()
      modifies this, store
      ensures promptValue == "" && !submitCancelShown
      ensures store.items == old(store.items)["lastPrompt" := JStr("")]
      ensures sttRecorder == old(sttRecorder) && alerts == old(alerts) && recordingShown == old(recordingShown)
      ensures tone == old(tone) && length == old(length) && submitDisabled == old(submitDisabled)
    {
      promptValue := "";
      store.Set(map["lastPrompt" := JStr("")]);
      submitCancelShown := false;
    }

    /**
     * `handleAutoresponse`: the translated `autoresponsePrompt` becomes the
     * prompt, is saved as `lastPrompt`, and is submitted as if typed; the
     * submit then starts from the store with that prompt saved.
     */
    method Autoresponse(email: Result<AriaEmail, string>, stripHtmlFn: ApiClient.Stripper,
                        fetch: ApiClient.ChatRequest -> ApiClient.FetchResult, time: Json, amount: string, thrown: string,
                        insertError: Option<string>, numText: real -> string,
                        stringToNumber: string -> Number)
      returns (sent: Option<ApiClient.ChatRequest>, answer: Option<Result<ApiClient.ChatResult, ApiClient.ApiError>>,
               inserted: Option<string>)
      modifies this, store
      ensures promptValue == t("autoresponsePrompt") && submitCancelShown
      ensures var saved := old(store.items)["lastPrompt" := JStr(t("autoresponsePrompt"))];
        && (answer.None? || answer.value.Failure? ==> store.items == saved)
        && (answer.Some? && answer.value.Success? ==>
              AnswerDelivered(answer.value.value, old(store.Read("chat")), time, amount, insertError, numText,
                              t("generalError"), saved, old(alerts), store.items, alerts))
      ensures IsBlank(t("autoresponsePrompt")) ==>
        sent.None? && answer.None? && alerts == old(alerts) + [t("noInstructionsProvided")]
      ensures !IsBlank(t("autoresponsePrompt")) && email.Failure? ==>
        sent.None? && answer.None? && alerts == old(alerts) + [t("generalError") + email.error]
      ensures answer.Some? <==> !IsBlank(t("autoresponsePrompt")) && email.Success?
      ensures answer.Some? ==>
        (sent.Some? <==> ApiClient.SettingsComplete(ApiClient.StoredSettings(old(store.Read("chat")))))
      ensures sent.Some? ==>
        && email.Success?
        && answer == Some(ApiClient.InterpretResponse(fetch(sent.value), sent.value.model, Some(t), stringToNumber))
        && sent.value.userContent == ApiClient.BuildPromptAria(PromptContextOf(email.value, old(store.Read("extension"))),
                                                              Trim(t("autoresponsePrompt")), stripHtmlFn, Some(t))
      ensures answer.Some? && answer.value.Failure? ==>
        inserted.None? && alerts == old(alerts) + [t("generalError") + ApiErrorText(answer.value.error, thrown)]
      ensures answer.Some? && answer.value.Success? ==> inserted == Some(BreakLines(answer.value.value.content))
      ensures inserted.Some? ==> '\n' !in inserted.value
      ensures sttRecorder == old(sttRecorder) && recordingShown == old(recordingShown)
      ensures tone == old(tone) && length == old(length) && !submitDisabled
    {
      var fixedPrompt := t("autoresponsePrompt");
      promptValue := fixedPrompt;
      store.Set(map["lastPrompt" := JStr(fixedPrompt)]);
      assert store.items == old(store.items)["lastPrompt" := JStr(fixedPrompt)];
      assert store.Read("extension") == old(store.Read("extension"));
      assert store.Read("chat") == old(store.Read("chat"));
      submitCancelShown := true;
      sent, answer, inserted := Submit(email, stripHtmlFn, fetch, time, amount, thrown, insertError, numText, stringToNumber);
    }
  }
}
