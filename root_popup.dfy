/**
 * The first, stand-alone popup's "reply" button: it reads the whole store,
 * takes the last few messages of the displayed message's author as context,
 * asks the chat endpoint for an answer and opens a reply with it.
 */
module RootPopup {
  import opened Js
  import opened JsStrings
  import Storage
  import ApiClient

  const DefaultApiUrl := "https://api.openai.com/v1/chat/completions"
  const DefaultModel := "gpt-4o-mini"
  const DefaultSystemPrompt := "Du bist ein höflicher Assistent, der beim E-Mail-Schreiben hilft."
  const NoMessageAlert := "Bitte zuerst eine E-Mail öffnen."
  const NoAnswer := "Keine Antwort generiert."
  const ApiErrorPrefix := "Fehler beim API-Aufruf: "

  /** The stored settings after `||` defaulting. */
  datatype ReplySettings = ReplySettings(apiUrl: Json, apiKey: Json, model: Json, systemPrompt: Json, contextSize: Json)

  function ReplySettingsOf(store: map<string, Json>): (s: ReplySettings)
    ensures DefaultsTo(s.apiUrl, Get(Some(JObj(store)), "apiUrl"), JStr(DefaultApiUrl))
    ensures DefaultsTo(s.apiKey, Get(Some(JObj(store)), "apiKey"), JStr(""))
    ensures DefaultsTo(s.model, Get(Some(JObj(store)), "model"), JStr(DefaultModel))
    ensures DefaultsTo(s.systemPrompt, Get(Some(JObj(store)), "systemPrompt"), JStr(DefaultSystemPrompt))
    ensures DefaultsTo(s.contextSize, Get(Some(JObj(store)), "contextSize"), JNum(5.0))
    ensures Truthy(s.apiUrl) && Truthy(s.model) && Truthy(s.systemPrompt) && Truthy(s.contextSize)
  {
    var st := Some(JObj(store));
    ReplySettings(Or(Get(st, "apiUrl"), JStr(DefaultApiUrl)), Or(Get(st, "apiKey"), JStr("")),
                  Or(Get(st, "model"), JStr(DefaultModel)), Or(Get(st, "systemPrompt"), JStr(DefaultSystemPrompt)),
                  Or(Get(st, "contextSize"), JNum(5.0)))
  }

  /** An empty store gives the OpenAI endpoint, `gpt-4o-mini`, the German prompt and five context messages; 0 counts as unset. */
  lemma ReplyDefaults()
    ensures ReplySettingsOf(map[]) == ReplySettings(JStr(DefaultApiUrl), JStr(""), JStr(DefaultModel), JStr(DefaultSystemPrompt), JNum(5.0))
    ensures ReplySettingsOf(map["contextSize" := JNum(0.0)]).contextSize == JNum(5.0)
  {
  }

  /** A message as `messages.listThreads` and `getDisplayedMessage` give it. */
  datatype MessageInfo = MessageInfo(id: int, folder: string, author: string, subject: string, preview: string)

  /** `messages.filter(m => m.author === author)` */
  function ByAuthor(messages: seq<MessageInfo>, author: string): seq<MessageInfo> {
    if messages == [] then []
    else (if messages[0].author == author then [messages[0]] else []) + ByAuthor(messages[1..], author)
  }

  /** Only messages of the list, and only the author's, are kept, and never more than the list holds. */
  lemma {:induction false} ByAuthorSound(messages: seq<MessageInfo>, author: string)
    ensures var r := ByAuthor(messages, author);
      |r| <= |messages| && forall i :: 0 <= i < |r| ==> r[i].author == author && r[i] in messages
    decreases |messages|
  {
    if messages != [] {
      ByAuthorSound(messages[1..], author);
      var h: seq<MessageInfo> := if messages[0].author == author then [messages[0]] else [];
      var t := ByAuthor(messages[1..], author);
      forall i | 0 <= i < |h + t| ensures (h + t)[i].author == author && (h + t)[i] in messages {
        if i >= |h| {
          assert (h + t)[i] == t[i - |h|];
          assert t[i - |h|] in messages[1..];
        }
      }
    }
  }

  /** Every message by the author is kept, and in its original order: filtering splits over concatenation. */
  lemma {:induction false} ByAuthorAppend(a: seq<MessageInfo>, b: seq<MessageInfo>, author: string)
    ensures ByAuthor(a + b, author) == ByAuthor(a, author) + ByAuthor(b, author)
    decreases |a|
  {
    if a == [] {
      assert a + b == b;
    } else {
      var h: seq<MessageInfo> := if a[0].author == author then [a[0]] else [];
      assert (a + b)[0] == a[0] && (a + b)[1..] == a[1..] + b;
      assert ByAuthor(a + b, author) == h + ByAuthor(a[1..] + b, author);
      ByAuthorAppend(a[1..], b, author);
      assert ByAuthor(a, author) == h + ByAuthor(a[1..], author);
    }
  }

  lemma {:induction false} ByAuthorComplete(messages: seq<MessageInfo>, author: string, m: MessageInfo)
    requires m in messages && m.author == author
    ensures m in ByAuthor(messages, author)
    decreases |messages|
  {
    if messages[0] != m {
      ByAuthorComplete(messages[1..], author, m);
    }
  }

  /** `ToIntegerOrInfinity` of a finite number: truncation toward zero. */
  function Trunc(x: real): int {
    if x >= 0.0 then x.Floor else -((-x).Floor)
  }

  /**
   * `xs.slice(start)` for an integer start: a negative start counts from the
   * end, and either kind is clamped to the list.
   */
  function Slice<T>(xs: seq<T>, start: int): (r: seq<T>)
    ensures |r| <= |xs| && r == xs[|xs| - |r|..]
    ensures start < 0 ==> |r| == (if -start < |xs| then -start else |xs|)
    ensures start >= 0 ==> |r| == (if start < |xs| then |xs| - start else 0)
  {
    var from := if start < 0 then (if |xs| + start < 0 then 0 else |xs| + start) else (if start < |xs| then start else |xs|);
    xs[from..]
  }

  /**
   * `conversation.slice(-contextSize)`: the negation converts the size with
   * `ToNumber`. NaN and `-Infinity` slice from 0, so a size of `Infinity`
   * or NaN keeps every message, and `Infinity` slices from the end, so a size
   * of `-Infinity` keeps none.
   */
  function LastMessages<T>(xs: seq<T>, contextSize: Json, stringToNumber: string -> Number): (r: seq<T>)
    ensures |r| <= |xs| && r == xs[|xs| - |r|..]
    ensures ToNumber(contextSize, stringToNumber) == Infinite(false) ==> r == []
    ensures ToNumber(contextSize, stringToNumber) in {Infinite(true), NaN} ==> r == xs
  {
    match ToNumber(contextSize, stringToNumber)
    case Finite(n) => Slice(xs, Trunc(-n))
    case Infinite(positive) => if positive then xs else []
    case NaN => xs
  }

  /** A stored context size of `"-Infinity"` negates to `Infinity`, which slices past the end: no message is kept. */
  lemma MinusInfinityKeepsNone<T>(xs: seq<T>, stringToNumber: string -> Number)
    requires stringToNumber("-Infinity") == Infinite(false)
    ensures LastMessages(xs, JStr("-Infinity"), stringToNumber) == []
  {
  }

  /** A context size of k >= 1 keeps the last min(k, n) messages, in their original order. */
  lemma LastMessagesKeepsTail<T>(xs: seq<T>, k: nat, stringToNumber: string -> Number)
    requires k >= 1
    ensures var r := LastMessages(xs, JNum(k as real), stringToNumber);
      && |r| == (if k < |xs| then k else |xs|)
      && r == xs[|xs| - |r|..]
  {
    assert Trunc(-(k as real)) == -(k as int);
  }

  /** A negative context size does not count from the end: the slice starts at its absolute value. */
  lemma NegativeContextSizeDropsHead<T>(xs: seq<T>, k: nat, stringToNumber: string -> Number)
    requires 1 <= k <= |xs|
    ensures LastMessages(xs, JNum(-(k as real)), stringToNumber) == xs[k..]
  {
    assert Trunc(k as real) == k;
  }

  /** `${m.author}: ${m.subject}\n${m.preview}` */
  function Entry(m: MessageInfo): string {
    m.author + ": " + m.subject + "\n" + m.preview
  }

  /** `lastMsgs.map(...).join("\n")` */
  function ContextText(lastMsgs: seq<MessageInfo>): string {
    Join(seq(|lastMsgs|, i requires 0 <= i < |lastMsgs| => Entry(lastMsgs[i])), "\n")
  }

  /** `${systemPrompt}\n\nKontext:\n${contextText}\n\nAntwort auf:\n${message.subject}\n` */
  function ReplyPrompt(systemPrompt: string, contextText: string, subject: string): string {
    systemPrompt + "\n\nKontext:\n" + contextText + "\n\nAntwort auf:\n" + subject + "\n"
  }

  /** The prompt opens with the system prompt, closes with the subject, and holds the context between the two headings. */
  lemma ReplyPromptParts(systemPrompt: string, contextText: string, subject: string)
    ensures var p := ReplyPrompt(systemPrompt, contextText, subject);
      var h := systemPrompt + "\n\nKontext:\n";
      var t := "\n\nAntwort auf:\n" + subject + "\n";
      && |p| == |h| + |contextText| + |t|
      && p[..|h|] == h && p[|h|..|h| + |contextText|] == contextText && p[|h| + |contextText|..] == t
  {
    var h := systemPrompt + "\n\nKontext:\n";
    var t := "\n\nAntwort auf:\n" + subject + "\n";
    assert ReplyPrompt(systemPrompt, contextText, subject) == h + contextText + t;
  }

  /** For the same system prompt and context, different subjects give different prompts. */
  lemma {:induction false} ReplyPromptTellsSubjects(systemPrompt: string, contextText: string, s1: string, s2: string)
    requires s1 != s2
    ensures ReplyPrompt(systemPrompt, contextText, s1) != ReplyPrompt(systemPrompt, contextText, s2)
  {
    ReplyPromptParts(systemPrompt, contextText, s1);
    ReplyPromptParts(systemPrompt, contextText, s2);
    var t1 := "\n\nAntwort auf:\n" + s1 + "\n";
    var t2 := "\n\nAntwort auf:\n" + s2 + "\n";
    assert t1[15..|t1| - 1] == s1 && t2[15..|t2| - 1] == s2;
  }

  /** What `generateReply` sends: the JSON body's model, messages and temperature, with the bearer key. */
  datatype ReplyRequest = ReplyRequest(url: Json, bearerKey: Json, model: Json, systemContent: Json, userContent: string, temperature: Json)

  /** How `generateReply` ends. */
  datatype Outcome =
    /** `alert` and return */
    | Alerted(message: string)
    /** `compose.beginReply(id, { body })` */
    | BeganReply(messageId: int, body: Json)

  /** `data.choices?.[0]?.message?.content || "Keine Antwort generiert."` */
  function Answer(data: Json): (r: Json)
    ensures Truthy(r)
    ensures DefaultsTo(r, Get(Get(Get(Get(Some(data), "choices"), "0"), "message"), "content"), JStr(NoAnswer))
  {
    Or(Get(Get(Get(Get(Some(data), "choices"), "0"), "message"), "content"), JStr(NoAnswer))
  }

  /**
   * `generateReply`. `displayed` is the message shown in the current mail
   * tab, `listThreads` the messages of a folder, `numText` JavaScript's
   * number-to-text, `stringToNumber` its reading of a string as a number,
   * and `thrown` the message of the exception `response.json()` or a `null`
   * body raises.
   */
  method GenerateReply(store: map<string, Json>, displayed: Option<MessageInfo>,
                       listThreads: string -> seq<MessageInfo>, fetch: ReplyRequest -> ApiClient.FetchResult,
                       numText: real -> string, stringToNumber: string -> Number, thrown: string)
    returns (outcome: Outcome, sent: Option<ReplyRequest>)
    ensures displayed.None? <==> outcome == Alerted(NoMessageAlert) && sent.None?
    ensures displayed.Some? ==>
      var s := ReplySettingsOf(store);
      var m := displayed.value;
      var context := ContextText(LastMessages(ByAuthor(listThreads(m.folder), m.author), s.contextSize, stringToNumber));
      && sent.Some?
      && sent.value.userContent == ReplyPrompt(Storage.JsText(s.systemPrompt, numText), context, m.subject)
      && sent.value.url == s.apiUrl && sent.value.bearerKey == s.apiKey && sent.value.model == s.model
      && sent.value.systemContent == s.systemPrompt
      && DefaultsTo(sent.value.temperature, Get(Some(JObj(store)), "temperature"), JNum(0.7))
    ensures displayed.Some? ==> match fetch(sent.value)
      case NetworkError(e) => outcome == Alerted(ApiErrorPrefix + e)
      case HttpResponse(ok, _, text, json) =>
        if !ok then outcome == Alerted(ApiErrorPrefix + text)
        else if json.None? || json.value == JNull then outcome == Alerted(ApiErrorPrefix + thrown)
        else outcome == BeganReply(displayed.value.id, Answer(json.value))
  {
    var settings := ReplySettingsOf(store);
    if displayed.None? {
      return Alerted(NoMessageAlert), None;
    }
    var message := displayed.value;
    var threadMsgs := listThreads(message.folder);
    var conversation := ByAuthor(threadMsgs, message.author);
    var lastMsgs := LastMessages(conversation, settings.contextSize, stringToNumber);
    var contextText := ContextText(lastMsgs);
    var prompt := ReplyPrompt(Storage.JsText(settings.systemPrompt, numText), contextText, message.subject);
    var request := ReplyRequest(settings.apiUrl, settings.apiKey, settings.model, settings.systemPrompt, prompt,
                                Or(Get(Some(JObj(store)), "temperature"), JNum(0.7)));
    sent := Some(request);
    var resp := fetch(request);
    match resp
    case NetworkError(e) =>
      outcome := Alerted(ApiErrorPrefix + e);
    case HttpResponse(ok, _, text, json) =>
      if !ok {
        outcome := Alerted(ApiErrorPrefix + text);
      } else if json.None? || json.value == JNull {
        outcome := Alerted(ApiErrorPrefix + thrown);
      } else {
        outcome := BeganReply(message.id, Answer(json.value));
      }
  }
}
