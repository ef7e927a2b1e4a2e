/**
 * Voice input of the Aria popup: the `STTRecorder` class that collects the
 * microphone's audio chunks, and `transcribeAudio`, which posts the recording
 * to the speech-to-text endpoint.
 *
 * The microphone, the `MediaRecorder` events and the network are parameters:
 * a granted stream or a refusal, the chunks the recorder delivers, its stop
 * or error event, and the response to the upload.
 */
module SttRecorder {
  import opened Js
  import opened JsStrings
  import opened ApiClient

  /** A microphone stream returned by `getUserMedia`. */
  datatype Stream = Stream(id: nat)

  /** `MediaRecorder.state` */
  datatype RecorderState = Inactive | Recording

  datatype MediaRecorder = MediaRecorder(source: Stream, state: RecorderState)

  /** One `dataavailable` payload. */
  datatype Chunk = Chunk(bytes: seq<bv8>)

  /** `new Blob(chunks, { type })` */
  datatype Blob = Blob(parts: seq<Chunk>, mimeType: string)

  /** The event that ends `stopRecording`: `onstop`, or `onerror` with a description of its error event. */
  datatype StopEvent = Stopped | RecorderError(error: string)

  datatype StopError =
    /** rejected before anything is stopped */
    | NoActiveRecording(message: string)
    /** the recorder's `onerror`, rejecting with the error event (which has no `message`) */
    | RecorderFailed(error: string)

  /** `t('errorNoActiveRecording') || 'No active recording'` */
  function NoActiveRecordingText(windowT: Option<string -> string>): (r: string)
    ensures r != ""
    ensures Tr(windowT, "errorNoActiveRecording") != "" ==> r == Tr(windowT, "errorNoActiveRecording")
  {
    var m := Tr(windowT, "errorNoActiveRecording");
    if m != "" then m else "No active recording"
  }

  class STTRecorder {
    var mediaRecorder: Option<MediaRecorder>
    var audioChunks: seq<Chunk>
    var stream: Option<Stream>
    /** The streams whose tracks `cleanup` has stopped, oldest first. */
    var released: seq<Stream>

    /** Kept chunks are never empty, and a recorder always has its stream. */
    predicate Valid()
      reads this
    {
      && (forall i :: 0 <= i < |audioChunks| ==> audioChunks[i].bytes != [])
      && (mediaRecorder.Some? ==> stream == Some(mediaRecorder.value.source))
    }

    /** `mediaRecorder.state === 'recording'` of a present recorder. */
    predicate IsRecording()
      reads this
    {
      mediaRecorder.Some? && mediaRecorder.value.state == Recording
    }

    constructor ()
      ensures mediaRecorder == None && stream == None && audioChunks == [] && released == []
      ensures Valid() && !IsRecording()
    {
      mediaRecorder := None;
      audioChunks := [];
      stream := None;
      released := [];
    }

    /**
     * `startRecording`. `granted` is what `getUserMedia` gives: a stream, or
     * `None` when access is refused, which is reported as
     * `errorMicrophoneAccess` with the recorder left as it was.
     */
    method StartRecording(granted: Option<Stream>, windowT: Option<string -> string>) returns (r: Result<(), string>)
      requires Valid()
      modifies this
      ensures Valid()
      ensures r.Failure? <==> granted.None?
      ensures r.Failure? ==>
        && r.error == Tr(windowT, "errorMicrophoneAccess")
        && mediaRecorder == old(mediaRecorder) && stream == old(stream) && audioChunks == old(audioChunks)
      ensures r.Success? ==>
        && stream == granted && mediaRecorder == Some(MediaRecorder(granted.value, Recording))
        && audioChunks == [] && IsRecording()
      ensures released == old(released)
    {
      if granted.None? {
        return Failure(Tr(windowT, "errorMicrophoneAccess"));
      }
      stream := granted;
      mediaRecorder := Some(MediaRecorder(granted.value, Inactive));
      audioChunks := [];
      mediaRecorder := Some(mediaRecorder.value.(state := Recording));
      r := Success(());
    }

    /** The `ondataavailable` handler: a chunk of non-zero size is appended, an empty one dropped. */
    method DataAvailable(chunk: Chunk)
      requires Valid()
      modifies this
      ensures Valid()
      ensures audioChunks == old(audioChunks) + (if |chunk.bytes| > 0 then [chunk] else [])
      ensures mediaRecorder == old(mediaRecorder) && stream == old(stream) && released == old(released)
    {
      if |chunk.bytes| > 0 {
        audioChunks := audioChunks + [chunk];
      }
    }

    /** `cleanup`: stops the stream's tracks and forgets the stream, the recorder and the chunks. */
    method Cleanup()
      modifies this
      ensures mediaRecorder == None && stream == None && audioChunks == []
      ensures released == old(released) + (if old(stream).Some? then [old(stream).value] else [])
      ensures Valid() && !IsRecording()
    {
      if stream.Some? {
        released := released + [stream.value];
        stream := None;
      }
      mediaRecorder := None;
      audioChunks := [];
    }

    /**
     * `stopRecording`. Without a recorder it is refused and nothing changes.
     * Otherwise the recorder is stopped and, on `event`, the recording is
     * the chunks in arrival order as a WAV blob, or the error; both are
     * followed by `cleanup`.
     */
    method StopRecording(event: StopEvent, windowT: Option<string -> string>) returns (r: Result<Blob, StopError>)
      requires Valid()
      modifies this
      ensures Valid()
      ensures old(mediaRecorder).None? ==>
        && r == Failure(NoActiveRecording(NoActiveRecordingText(windowT)))
        && mediaRecorder == old(mediaRecorder) && stream == old(stream)
        && audioChunks == old(audioChunks) && released == old(released)
      ensures old(mediaRecorder).Some? ==>
        && mediaRecorder == None && stream == None && audioChunks == [] && !IsRecording()
        && released == old(released) + [old(stream).value]
        && (event.Stopped? ==> r == Success(Blob(old(audioChunks), "audio/wav")))
        && (event.RecorderError? ==> r == Failure(RecorderFailed(event.error)))
    {
      if mediaRecorder.None? {
        return Failure(NoActiveRecording(NoActiveRecordingText(windowT)));
      }
      mediaRecorder := Some(mediaRecorder.value.(state := Inactive));
      match event
      case Stopped =>
        var audioBlob := Blob(audioChunks, "audio/wav");
        Cleanup();
        r := Success(audioBlob);
      case RecorderError(e) =>
        Cleanup();
        r := Failure(RecorderFailed(e));
    }
  }

  /** Every chunk of a stopped recording has data. */
  lemma StoppedBlobHasNoEmptyParts(chunks: seq<Chunk>, events: seq<Chunk>)
    requires forall i :: 0 <= i < |chunks| ==> chunks[i].bytes != []
    ensures var b := Blob(chunks + Kept(events), "audio/wav");
      forall i :: 0 <= i < |b.parts| ==> b.parts[i].bytes != []
  {
    KeptNonEmpty(events);
  }

  /** The chunks `ondataavailable` keeps from a run of events, in order. */
  function Kept(events: seq<Chunk>): (r: seq<Chunk>)
    ensures |r| <= |events|
  {
    if events == [] then [] else (if |events[0].bytes| > 0 then [events[0]] else []) + Kept(events[1..])
  }

  lemma {:induction false} KeptNonEmpty(events: seq<Chunk>)
    ensures forall i :: 0 <= i < |Kept(events)| ==> Kept(events)[i].bytes != []
    decreases |events|
  {
    if events != [] {
      KeptNonEmpty(events[1..]);
    }
  }

  /** Dropping only empty chunks loses no data: the kept chunks carry the same bytes as all of them. */
  lemma {:induction false} KeptKeepsBytes(events: seq<Chunk>)
    ensures Bytes(Kept(events)) == Bytes(events)
    decreases |events|
  {
    if events != [] {
      KeptKeepsBytes(events[1..]);
      BytesAppend(if |events[0].bytes| > 0 then [events[0]] else [], Kept(events[1..]));
    }
  }

  /** The bytes of a run of chunks, in order. */
  function Bytes(chunks: seq<Chunk>): seq<bv8> {
    if chunks == [] then [] else chunks[0].bytes + Bytes(chunks[1..])
  }

  lemma {:induction false} BytesAppend(a: seq<Chunk>, b: seq<Chunk>)
    ensures Bytes(a + b) == Bytes(a) + Bytes(b)
    decreases |a|
  {
    if a == [] {
      assert a + b == b;
    } else {
      assert (a + b)[1..] == a[1..] + b;
      BytesAppend(a[1..], b);
    }
  }

  /** Recording from a refused start fails and stopping then is refused too. */
  method RefusedMicrophone(windowT: Option<string -> string>) returns (start: Result<(), string>, stop: Result<Blob, StopError>)
    ensures start == Failure(Tr(windowT, "errorMicrophoneAccess"))
    ensures stop == Failure(NoActiveRecording(NoActiveRecordingText(windowT)))
  {
    var rec := new STTRecorder();
    start := rec.StartRecording(None, windowT);
    stop := rec.StopRecording(Stopped, windowT);
  }

  /** A start, some chunks and a stop give back exactly the non-empty chunks, and release the stream. */
  method RecordSession(s: Stream, events: seq<Chunk>, windowT: Option<string -> string>)
    returns (r: Result<Blob, StopError>, released: seq<Stream>)
    ensures r == Success(Blob(Kept(events), "audio/wav"))
    ensures released == [s]
  {
    var rec := new STTRecorder();
    var started := rec.StartRecording(Some(s), windowT);
    var k := 0;
    while k < |events|
      invariant 0 <= k <= |events|
      invariant rec.Valid() && rec.mediaRecorder.Some? && rec.stream == Some(s) && rec.released == []
      invariant rec.audioChunks == Kept(events[..k])
    {
      KeptSnoc(events[..k], events[k]);
      assert events[..k + 1] == events[..k] + [events[k]];
      rec.DataAvailable(events[k]);
      k := k + 1;
    }
    assert events[..k] == events;
    r := rec.StopRecording(Stopped, windowT);
    released := rec.released;
  }

  lemma {:induction false} KeptSnoc(events: seq<Chunk>, c: Chunk)
    ensures Kept(events + [c]) == Kept(events) + (if |c.bytes| > 0 then [c] else [])
    decreases |events|
  {
    if events == [] {
      assert [] + [c] == [c];
      assert [c][1..] == [];
    } else {
      assert (events + [c])[1..] == events[1..] + [c];
      KeptSnoc(events[1..], c);
    }
  }

  // ---------------------------------------------------------------------------
  // transcribeAudio
  // ---------------------------------------------------------------------------

  /** A field of the multipart form. */
  datatype FormField =
    | FileField(name: string, blob: Blob, fileName: string)
    | TextField(name: string, value: Json)

  /** The upload: sent to `url` with `Authorization: Bearer <bearerKey>`, no JSON content type. */
  datatype SttRequest = SttRequest(url: Json, bearerKey: Json, form: seq<FormField>)

  /** `sttSettings.apiUrl && sttSettings.apiKey && sttSettings.model` */
  predicate SttSettingsComplete(stt: Json) {
    TruthyOpt(Get(Some(stt), "apiUrl")) && TruthyOpt(Get(Some(stt), "apiKey")) && TruthyOpt(Get(Some(stt), "model"))
  }

  /** The form: the recording as `recording.wav`, the model and, when truthy, the language. */
  function SttForm(audio: Blob, stt: Json): (f: seq<FormField>)
    requires SttSettingsComplete(stt)
    ensures |f| >= 2 && f[0] == FileField("file", audio, "recording.wav") && f[1] == TextField("model", Get(Some(stt), "model").value)
    ensures |f| == 3 <==> TruthyOpt(Get(Some(stt), "language"))
    ensures |f| == 3 ==> f[2] == TextField("language", Get(Some(stt), "language").value)
    ensures |f| <= 3
  {
    [FileField("file", audio, "recording.wav"), TextField("model", Get(Some(stt), "model").value)]
    + (if TruthyOpt(Get(Some(stt), "language")) then [TextField("language", Get(Some(stt), "language").value)] else [])
  }

  /** What the upload's response yields: `data.text || ''`, or the HTTP or network error. */
  function SttResponse(resp: FetchResult, windowT: Option<string -> string>): (r: Result<Json, ApiError>)
    ensures resp.NetworkError? ==> r == Failure(Network(resp.message))
    ensures resp.HttpResponse? && !resp.ok ==>
      r == Failure(HttpError(Tr(windowT, "errorSttApi") + " (" + NatText(resp.status) + "): " + resp.text))
    ensures r.Success? <==> resp.HttpResponse? && resp.ok && resp.json.Some? && resp.json.value != JNull
    ensures r.Success? ==> DefaultsTo(r.value, Get(resp.json, "text"), JStr(""))
  {
    match resp
    case NetworkError(m) => Failure(Network(m))
    case HttpResponse(ok, status, text, json) =>
      if !ok then Failure(HttpError(Tr(windowT, "errorSttApi") + " (" + NatText(status) + "): " + text))
      else if json.None? || json.value == JNull then Failure(MalformedResponse)
      else Success(Or(Get(json, "text"), JStr("")))
  }

  /**
   * `transcribeAudio`. Incomplete settings fail with `errorSttSettingsMissing`
   * before anything is sent; `sent` records the upload that was made.
   */
  method TranscribeAudio(audio: Blob, stt: Json, windowT: Option<string -> string>, fetch: SttRequest -> FetchResult)
    returns (r: Result<Json, ApiError>, sent: Option<SttRequest>)
    ensures sent.None? <==> !SttSettingsComplete(stt)
    ensures sent.None? ==> r == Failure(SettingsMissing(Tr(windowT, "errorSttSettingsMissing")))
    ensures sent.Some? ==>
      && sent.value == SttRequest(Get(Some(stt), "apiUrl").value, Get(Some(stt), "apiKey").value, SttForm(audio, stt))
      && r == SttResponse(fetch(sent.value), windowT)
  {
    if !SttSettingsComplete(stt) {
      return Failure(SettingsMissing(Tr(windowT, "errorSttSettingsMissing"))), None;
    }
    var request := SttRequest(Get(Some(stt), "apiUrl").value, Get(Some(stt), "apiKey").value, SttForm(audio, stt));
    r := SttResponse(fetch(request), windowT);
    sent := Some(request);
  }

  /** A response without `text` transcribes to the empty string. */
  lemma MissingTextIsEmpty(status: nat, body: string, data: map<string, Json>, windowT: Option<string -> string>)
    requires "text" !in data
    ensures SttResponse(HttpResponse(true, status, body, Some(JObj(data))), windowT) == Success(JStr(""))
  {
  }
}
