/**
 * The chat-completion client shared by the extensions: the request
 * `callOpenAI` sends and what it makes of the response, the zero-cost branch
 * of `calculateCost`, and the two `buildPrompt` templates. `stringToNumber`
 * is JavaScript's reading of a string as a number.
 *
 * `aria-ai-assistant/modules/api-client.js` and
 * `ai-mail-assistant/modules/api-client.js` hold the same `callOpenAI`,
 * `calculateCost` and `incrementGenerationCounter` (the latter is
 * `Storage.LocalStorage.IncrementGenerationCounter`); only `buildPrompt`
 * differs between them.
 */
module ApiClient {
  import opened Js
  import opened JsStrings
  import Storage

  /** `window.t || ((key) => key)`: the popup's translator when it is loaded, else the identity. */
  function Tr(windowT: Option<string -> string>, key: string): string {
    match windowT
    case Some(t) => t(key)
    case None => key
  }

  // ---------------------------------------------------------------------------
  // The request
  // ---------------------------------------------------------------------------

  /** `getChatSettings` and `getExtensionSettings`: the stored `chat` or `extension` entry, or `{}` when it is falsy. */
  function StoredSettings(stored: Option<Json>): (r: Json)
    ensures TruthyOpt(stored) ==> r == stored.value
    ensures !TruthyOpt(stored) ==> r == JObj(map[])
  {
    Or(stored, JObj(map[]))
  }

  /** `saveStats`: the statistics are stored under `lastStats`; nothing else changes. */
  method SaveStats(store: Storage.LocalStorage, stats: Json)
    modifies store
    ensures store.items == old(store.items)["lastStats" := stats]
  {
    store.Set(map["lastStats" := stats]);
  }

  /** `settings.apiUrl && settings.apiKey && settings.model` */
  predicate SettingsComplete(chat: Json) {
    TruthyOpt(Get(Some(chat), "apiUrl")) && TruthyOpt(Get(Some(chat), "apiKey")) && TruthyOpt(Get(Some(chat), "model"))
  }

  /** The POST `callOpenAI` sends: sent to `url` with `Authorization: Bearer <bearerKey>`, and its JSON body. */
  datatype ChatRequest = ChatRequest(
    url: Json, bearerKey: Json, model: Json, systemContent: Json, userContent: string,
    temperature: Json, maxTokens: Json)

  /** The system prompt used when the settings have none: `t('systemPromptDefault')` or the English text. */
  function DefaultSystemPrompt(windowT: Option<string -> string>): Json {
    JStr(if windowT.Some? then windowT.value("systemPromptDefault") else "You are a helpful email assistant.")
  }

  /**
   * The request for complete settings: the stored URL, key and model, the
   * prompt as the user message, and the stored system prompt, temperature and
   * token limit, each replaced by its default when falsy.
   */
  function BuildChatRequest(chat: Json, prompt: string, defaultSystem: Json): (q: ChatRequest)
    requires SettingsComplete(chat)
    ensures q.url == Get(Some(chat), "apiUrl").value && q.bearerKey == Get(Some(chat), "apiKey").value
    ensures q.model == Get(Some(chat), "model").value && q.userContent == prompt
    ensures DefaultsTo(q.systemContent, Get(Some(chat), "systemPrompt"), defaultSystem)
    ensures DefaultsTo(q.temperature, Get(Some(chat), "temperature"), JNum(1.0))
    ensures DefaultsTo(q.maxTokens, Get(Some(chat), "maxTokens"), JNum(2000.0))
    ensures Truthy(q.temperature) && Truthy(q.maxTokens)
  {
    var c := Some(chat);
    ChatRequest(Get(c, "apiUrl").value, Get(c, "apiKey").value, Get(c, "model").value,
                Or(Get(c, "systemPrompt"), defaultSystem), prompt,
                Or(Get(c, "temperature"), JNum(1.0)), Or(Get(c, "maxTokens"), JNum(2000.0)))
  }

  // ---------------------------------------------------------------------------
  // The response
  // ---------------------------------------------------------------------------

  /** What `fetch` gives: a network failure, or a response with its status, text and parsed JSON (`None` when it is not JSON). */
  datatype FetchResult =
    | NetworkError(message: string)
    | HttpResponse(ok: bool, status: nat, text: string, json: Option<Json>)

  datatype ApiError =
    | SettingsMissing(message: string)
    | Network(message: string)
    | HttpError(message: string)
    /** `data.choices[0].message.content.trim()` threw. */
    | MalformedResponse

  /** `{ content, usage: { input, output }, model, cost }`; `cost` is `None` where it is a formatted amount. */
  datatype ChatResult = ChatResult(content: string, inputTokens: Json, outputTokens: Json, model: Json, cost: Option<string>)

  /** `data.choices[0].message.content`, when it is a string. */
  function ReplyContent(data: Json): (r: Option<string>)
    ensures r.Some? <==> Get(Get(Get(Get(Some(data), "choices"), "0"), "message"), "content").Some?
                         && Get(Get(Get(Get(Some(data), "choices"), "0"), "message"), "content").value.JStr?
  {
    match Get(Get(Get(Get(Some(data), "choices"), "0"), "message"), "content")
    case Some(JStr(s)) => Some(s)
    case _ => None
  }

  /** `data.usage || { prompt_tokens: 0, completion_tokens: 0 }`, then each count `|| 0`. */
  function UsageCounts(data: Json): (r: (Json, Json))
    ensures Get(Some(data), "usage") == None ==> r == (JNum(0.0), JNum(0.0))
    ensures DefaultsTo(r.0, Get(Get(Some(data), "usage"), "prompt_tokens"), JNum(0.0))
    ensures DefaultsTo(r.1, Get(Get(Some(data), "usage"), "completion_tokens"), JNum(0.0))
  {
    var usage := Some(Or(Get(Some(data), "usage"), JObj(map["prompt_tokens" := JNum(0.0), "completion_tokens" := JNum(0.0)])));
    (Or(Get(usage, "prompt_tokens"), JNum(0.0)), Or(Get(usage, "completion_tokens"), JNum(0.0)))
  }

  /** What `callOpenAI` returns or throws once the request is sent. */
  function InterpretResponse(resp: FetchResult, model: Json, windowT: Option<string -> string>, stringToNumber: string -> Number)
    : (r: Result<ChatResult, ApiError>)
    ensures resp.NetworkError? ==> r == Failure(Network(resp.message))
    ensures resp.HttpResponse? && !resp.ok ==>
      r == Failure(HttpError(Tr(windowT, "errorApiGeneral") + " (" + NatText(resp.status) + "): " + resp.text))
    ensures r.Success? <==> resp.HttpResponse? && resp.ok && resp.json.Some? && ReplyContent(resp.json.value).Some?
    ensures r.Success? ==>
      && r.value.content == Trim(ReplyContent(resp.json.value).value) && Trimmed(r.value.content)
      && (r.value.inputTokens, r.value.outputTokens) == UsageCounts(resp.json.value)
      && r.value.model == model
      && r.value.cost == CostOf(model, r.value.inputTokens, r.value.outputTokens, stringToNumber)
  {
    match resp
    case NetworkError(m) => Failure(Network(m))
    case HttpResponse(ok, status, text, json) =>
      if !ok then Failure(HttpError(Tr(windowT, "errorApiGeneral") + " (" + NatText(status) + "): " + text))
      else if json.None? || ReplyContent(json.value).None? then Failure(MalformedResponse)
      else
        var content := Trim(ReplyContent(json.value).value);
        TrimIdempotent(ReplyContent(json.value).value);
        var (input, output) := UsageCounts(json.value);
        Success(ChatResult(content, input, output, model, CostOf(model, input, output, stringToNumber)))
  }

  /**
   * `callOpenAI(prompt)`. `stored` is the `chat` entry of the store and `fetch`
   * the network. Incomplete settings fail before any request is made; `sent`
   * records the request that was made.
   */
  method CallOpenAI(stored: Option<Json>, prompt: string, windowT: Option<string -> string>, fetch: ChatRequest -> FetchResult,
                    stringToNumber: string -> Number)
    returns (r: Result<ChatResult, ApiError>, sent: Option<ChatRequest>)
    ensures sent.None? <==> !SettingsComplete(StoredSettings(stored))
    ensures sent.None? ==> r == Failure(SettingsMissing(Tr(windowT, "errorApiSettingsMissing")))
    ensures sent.Some? ==>
      && sent.value == BuildChatRequest(StoredSettings(stored), prompt, DefaultSystemPrompt(windowT))
      && r == InterpretResponse(fetch(sent.value), sent.value.model, windowT, stringToNumber)
  {
    var settings := StoredSettings(stored);
    if !SettingsComplete(settings) {
      return Failure(SettingsMissing(Tr(windowT, "errorApiSettingsMissing"))), None;
    }
    var request := BuildChatRequest(settings, prompt, DefaultSystemPrompt(windowT));
    var response := fetch(request);
    r := InterpretResponse(response, request.model, windowT, stringToNumber);
    sent := Some(request);
  }

  /** A missing `usage` counts as 0 input and 0 output tokens, costs `< $0.01` (NaN on an inherited model name), and the content is trimmed. */
  lemma MissingUsageIsZero(status: nat, text: string, data: Json, model: Json, windowT: Option<string -> string>,
                           stringToNumber: string -> Number)
    requires ReplyContent(data).Some? && Get(Some(data), "usage") == None
    ensures var r := InterpretResponse(HttpResponse(true, status, text, Some(data)), model, windowT, stringToNumber);
      r.Success? && r.value.inputTokens == JNum(0.0) && r.value.outputTokens == JNum(0.0)
      && r.value.content == Trim(ReplyContent(data).value)
      && r.value.cost == (if InheritedPrice(model) then None else Some("< $0.01"))
  {
  }

  // ---------------------------------------------------------------------------
  // calculateCost
  // ---------------------------------------------------------------------------

  /** Per-token prices of `calculateCost`, in dollars. */
  function Price(model: Json): (real, real) {
    match model
    case JStr(m) =>
      if m == "gpt-4o-mini" then (0.00000015, 0.00000060)
      else if m == "gpt-4o" then (0.0000025, 0.000010)
      else if m == "gpt-4-turbo" then (0.000010, 0.000030)
      else if m == "gpt-3.5-turbo" then (0.0000005, 0.0000015)
      else (0.0, 0.0)
    case _ => (0.0, 0.0)
  }

  predicate KnownModel(model: Json) {
    model.JStr? && model.s in {"gpt-4o-mini", "gpt-4o", "gpt-4-turbo", "gpt-3.5-turbo"}
  }

  /** The properties every object inherits from `Object.prototype`. */
  const ObjectPrototypeNames: set<string> := {
    "constructor", "__proto__", "toString", "toLocaleString", "valueOf", "hasOwnProperty", "isPrototypeOf",
    "propertyIsEnumerable", "__defineGetter__", "__defineSetter__", "__lookupGetter__", "__lookupSetter__"}

  /**
   * A model named after an inherited property: `prices[model]` is then that
   * truthy inherited member, whose `input` and `output` are `undefined`.
   */
  predicate InheritedPrice(model: Json) {
    model.JStr? && model.s in ObjectPrototypeNames
  }

  /**
   * `inputTokens * price.input + outputTokens * price.output`, where a model
   * without a price multiplies by 0. `None` is a total that is not finite:
   * NaN, from a count that is not a number, a price that is `undefined` or
   * `Infinity * 0`, or an infinity, from an infinite count at a price.
   */
  function TotalCost(model: Json, input: Json, output: Json, stringToNumber: string -> Number): (r: Option<real>)
    ensures r.Some? <==>
      !InheritedPrice(model) && ToNumber(input, stringToNumber).Finite? && ToNumber(output, stringToNumber).Finite?
    ensures !KnownModel(model) && r.Some? ==> r.value == 0.0
  {
    var (inRate, outRate) := Price(model);
    if InheritedPrice(model) then None
    else match (ToNumber(input, stringToNumber), ToNumber(output, stringToNumber))
      case (Finite(i), Finite(o)) => Some(i * inRate + o * outRate)
      case _ => None
  }

  /**
   * `calculateCost(model, inputTokens, outputTokens)`: the label `< $0.01`
   * when the total is zero, else `None`, which stands for the `$` amount
   * formatted with `toFixed(6)` (`$NaN` or `$Infinity` for a total that is not finite).
   */
  function CostOf(model: Json, input: Json, output: Json, stringToNumber: string -> Number): (r: Option<string>)
    ensures r.Some? ==> r.value == "< $0.01"
    ensures r.Some? <==> TotalCost(model, input, output, stringToNumber) == Some(0.0)
  {
    var total := TotalCost(model, input, output, stringToNumber);
    if total == Some(0.0) then Some("< $0.01") else None
  }

  /**
   * For non-negative numeric counts the cost is the "< $0.01" label exactly
   * when the model has no price or no token was used, unless the model's name
   * is inherited and prices at NaN.
   */
  lemma ZeroCostIff(model: Json, input: real, output: real, stringToNumber: string -> Number)
    requires input >= 0.0 && output >= 0.0
    ensures CostOf(model, JNum(input), JNum(output), stringToNumber).Some?
            <==> !InheritedPrice(model) && (!KnownModel(model) || (input == 0.0 && output == 0.0))
  {
    var (inRate, outRate) := Price(model);
    if KnownModel(model) {
      assert inRate > 0.0 && outRate > 0.0;
      if input > 0.0 {
        assert input * inRate > 0.0;
      }
      if output > 0.0 {
        assert output * outRate > 0.0;
      }
    }
  }

  /**
   * A model without a price labels every cost whose counts read as finite
   * numbers, whole or not, negative or numeric text, and none whose count is
   * NaN or infinite (`Infinity * 0` is NaN).
   */
  lemma UnpricedCostIff(model: Json, input: Json, output: Json, stringToNumber: string -> Number)
    requires !KnownModel(model) && !InheritedPrice(model)
    ensures CostOf(model, input, output, stringToNumber).Some?
            <==> ToNumber(input, stringToNumber).Finite? && ToNumber(output, stringToNumber).Finite?
  {
  }

  /** The counts 1.5 and -3, and the text `"12"`, all cost `< $0.01` on a model without a price. */
  lemma UnpricedOddCounts(stringToNumber: string -> Number)
    requires stringToNumber("12") == Finite(12.0)
    ensures CostOf(JStr("llama3"), JNum(1.5), JNum(0.0), stringToNumber) == Some("< $0.01")
    ensures CostOf(JStr("llama3"), JNum(-3.0), JStr("12"), stringToNumber) == Some("< $0.01")
  {
  }

  /**
   * A model named `constructor` prices at NaN, even for no tokens at all, and
   * an object as a count is NaN on any model: neither shows the label.
   */
  lemma InheritedModelNameIsNaN(stringToNumber: string -> Number)
    ensures CostOf(JStr("constructor"), JNum(0.0), JNum(0.0), stringToNumber).None?
  {
  }

  /** An object as a count is NaN, so even a model without a price shows an amount. */
  lemma ObjectCountIsNaN(model: Json, output: Json, stringToNumber: string -> Number)
    ensures CostOf(model, JObj(map[]), output, stringToNumber).None?
  {
  }

  // ---------------------------------------------------------------------------
  // buildPrompt
  // ---------------------------------------------------------------------------

  /** `${v}` of a context field that may be missing. */
  function Show(v: Option<string>): string {
    v.GetOr("undefined")
  }

  /** `extensionSettings.includeSender && emailContext.sender` */
  predicate IncludesSender(extensionSettings: Option<Json>, sender: Option<string>) {
    TruthyOpt(Get(Some(Or(extensionSettings, JObj(map[]))), "includeSender")) && sender.Some? && sender.value != ""
  }

  /** `senderInfo`: the sender line with its newline, or nothing. */
  function SenderInfo(extensionSettings: Option<Json>, sender: Option<string>, windowT: Option<string -> string>): (r: string)
    ensures r != "" <==> IncludesSender(extensionSettings, sender)
  {
    if IncludesSender(extensionSettings, sender) then Tr(windowT, "promptContextSender") + " " + sender.value + "\n" else ""
  }

  /** The fields of the context object the templates read; a missing field prints as `undefined`. */
  datatype PromptContext = PromptContext(
    extensionSettings: Option<Json>, subject: Option<string>, sender: Option<string>, emailBody: Option<string>,
    /** Aria: `receiver`, `receiverName`, `receiverOrganization`; AI Mail: `userName`, `userOrganization`. */
    identity: seq<Option<string>>)

  /** `stripHtmlFn`, applied to the (possibly missing) body. */
  type Stripper = Option<string> -> string

  /** The identity labels of each template. */
  const AriaIdentityKeys: seq<string> := ["promptContextReceiver", "promptContextReceiverName", "promptContextReceiverOrganization"]
  const MailIdentityKeys: seq<string> := ["promptContextName", "promptContextOrganization"]

  /** The first two lines of the template: the heading and the subject. */
  function Heading(ctx: PromptContext, windowT: Option<string -> string>): string {
    Tr(windowT, "promptContextEmail") + "\n" + Tr(windowT, "promptContextSubject") + " " + Show(ctx.subject) + "\n"
  }

  /** One labelled line per identity field: `${t(label)} ${value}`, each with its newline. */
  function IdentityBlock(keys: seq<string>, values: seq<Option<string>>, windowT: Option<string -> string>): string
    requires |keys| == |values|
  {
    if keys == [] then "" else Tr(windowT, keys[0]) + " " + Show(values[0]) + "\n" + IdentityBlock(keys[1..], values[1..], windowT)
  }

  /** The rest of the template: the stripped message, the language hint, the instructions and the format hint. */
  function Closing(ctx: PromptContext, userInstructions: string, stripHtmlFn: Stripper, windowT: Option<string -> string>): string {
    Tr(windowT, "promptContextMessage") + " " + stripHtmlFn(ctx.emailBody) + "\n"
    + Tr(windowT, "promptContextLanguageDetect") + "\n"
    + "\n"
    + Tr(windowT, "promptContextInstructions") + " " + userInstructions + "\n"
    + "\n"
    + Tr(windowT, "promptContextFormat")
  }

  /** `buildPrompt` of the Aria client: the template with the three receiver lines. */
  function BuildPromptAria(ctx: PromptContext, userInstructions: string, stripHtmlFn: Stripper,
                           windowT: Option<string -> string>): string
    requires |ctx.identity| == 3
  {
    Heading(ctx, windowT) + (SenderInfo(ctx.extensionSettings, ctx.sender, windowT)
    + (IdentityBlock(AriaIdentityKeys, ctx.identity, windowT) + Closing(ctx, userInstructions, stripHtmlFn, windowT)))
  }

  /** `buildPrompt` of the AI Mail client: the template with the user's name and organisation. */
  function BuildPromptMail(ctx: PromptContext, userInstructions: string, stripHtmlFn: Stripper,
                           windowT: Option<string -> string>): string
    requires |ctx.identity| == 2
  {
    Heading(ctx, windowT) + (SenderInfo(ctx.extensionSettings, ctx.sender, windowT)
    + (IdentityBlock(MailIdentityKeys, ctx.identity, windowT) + Closing(ctx, userInstructions, stripHtmlFn, windowT)))
  }

  /** The sender line, when it is included. */
  function SenderLines(ctx: PromptContext, windowT: Option<string -> string>): (r: seq<string>)
    ensures |r| == 1 <==> IncludesSender(ctx.extensionSettings, ctx.sender)
    ensures |r| <= 1
  {
    if IncludesSender(ctx.extensionSettings, ctx.sender) then [Tr(windowT, "promptContextSender") + " " + ctx.sender.value] else []
  }

  function IdentityLines(keys: seq<string>, values: seq<Option<string>>, windowT: Option<string -> string>): (r: seq<string>)
    requires |keys| == |values|
    ensures |r| == |keys|
  {
    seq(|keys|, i requires 0 <= i < |keys| => Tr(windowT, keys[i]) + " " + Show(values[i]))
  }

  /**
   * Both prompts, line by line: the heading, the subject, the sender line when
   * it is included, one labelled line per identity field, the stripped
   * message, the language hint, a blank line, the instructions, a blank line
   * and the format hint.
   */
  function PromptLines(ctx: PromptContext, identityKeys: seq<string>, userInstructions: string,
                       stripHtmlFn: Stripper, windowT: Option<string -> string>): (r: seq<string>)
    requires |identityKeys| == |ctx.identity|
    ensures |r| == 8 + |identityKeys| + (if IncludesSender(ctx.extensionSettings, ctx.sender) then 1 else 0)
  {
    [Tr(windowT, "promptContextEmail"), Tr(windowT, "promptContextSubject") + " " + Show(ctx.subject)]
    + SenderLines(ctx, windowT)
    + IdentityLines(identityKeys, ctx.identity, windowT)
    + [Tr(windowT, "promptContextMessage") + " " + stripHtmlFn(ctx.emailBody),
       Tr(windowT, "promptContextLanguageDetect"),
       "",
       Tr(windowT, "promptContextInstructions") + " " + userInstructions,
       "",
       Tr(windowT, "promptContextFormat")]
  }

  /** Each line followed by a newline. */
  function Terminated(lines: seq<string>): string {
    if lines == [] then "" else lines[0] + "\n" + Terminated(lines[1..])
  }

  lemma {:induction false} JoinTerminated(a: seq<string>, b: seq<string>)
    requires b != []
    ensures Join(a + b, "\n") == Terminated(a) + Join(b, "\n")
    decreases |a|
  {
    if a == [] {
      assert a + b == b;
    } else {
      assert a + b == [a[0]] + (a[1..] + b);
      JoinTerminated(a[1..], b);
      JoinCons(a[0], a[1..] + b, "\n");
    }
  }

  lemma {:induction false} TerminatedAppend(a: seq<string>, b: seq<string>)
    ensures Terminated(a + b) == Terminated(a) + Terminated(b)
    decreases |a|
  {
    if a == [] {
      assert a + b == b;
    } else {
      assert (a + b)[1..] == a[1..] + b;
      TerminatedAppend(a[1..], b);
    }
  }

  lemma {:induction false} IdentityBlockLines(keys: seq<string>, values: seq<Option<string>>, windowT: Option<string -> string>)
    requires |keys| == |values|
    ensures IdentityBlock(keys, values, windowT) == Terminated(IdentityLines(keys, values, windowT))
    decreases |keys|
  {
    if keys != [] {
      IdentityBlockLines(keys[1..], values[1..], windowT);
      assert IdentityLines(keys, values, windowT)[1..] == IdentityLines(keys[1..], values[1..], windowT);
    }
  }

  /** Six lines, the third and fifth blank, joined by newlines. */
  lemma JoinSix(m: string, l: string, i: string, f: string)
    ensures Join([m, l, "", i, "", f], "\n") == m + "\n" + l + "\n" + "\n" + i + "\n" + "\n" + f
  {
    JoinCons("", [f], "\n");
    assert [""] + [f] == ["", f];
    JoinCons(i, ["", f], "\n");
    assert [i] + ["", f] == [i, "", f];
    JoinCons("", [i, "", f], "\n");
    assert [""] + [i, "", f] == ["", i, "", f];
    JoinCons(l, ["", i, "", f], "\n");
    assert [l] + ["", i, "", f] == [l, "", i, "", f];
    JoinCons(m, [l, "", i, "", f], "\n");
    assert [m] + [l, "", i, "", f] == [m, l, "", i, "", f];
  }

  /** Joining four runs of lines, the last non-empty: every line before the last run keeps its newline. */
  lemma JoinRuns(head: seq<string>, sender: seq<string>, ids: seq<string>, tail: seq<string>)
    requires tail != []
    ensures Join(head + sender + ids + tail, "\n") == Terminated(head) + Terminated(sender) + Terminated(ids) + Join(tail, "\n")
  {
    JoinTerminated(head + sender + ids, tail);
    TerminatedAppend(head + sender, ids);
    TerminatedAppend(head, sender);
  }

  lemma HeadingLines(ctx: PromptContext, windowT: Option<string -> string>)
    ensures Terminated([Tr(windowT, "promptContextEmail"), Tr(windowT, "promptContextSubject") + " " + Show(ctx.subject)])
         == Heading(ctx, windowT)
  {
    TerminatedTwo(Tr(windowT, "promptContextEmail"), Tr(windowT, "promptContextSubject") + " " + Show(ctx.subject));
  }

  lemma TerminatedTwo(a: string, b: string)
    ensures Terminated([a, b]) == a + "\n" + b + "\n"
  {
    assert [a, b][1..] == [b];
    assert [b][1..] == [];
    assert Terminated([b]) == b + "\n" + "";
    assert b + "\n" + "" == b + "\n";
  }

  lemma ClosingLines(ctx: PromptContext, userInstructions: string, stripHtmlFn: Stripper, windowT: Option<string -> string>)
    ensures Join([Tr(windowT, "promptContextMessage") + " " + stripHtmlFn(ctx.emailBody),
                  Tr(windowT, "promptContextLanguageDetect"), "",
                  Tr(windowT, "promptContextInstructions") + " " + userInstructions, "",
                  Tr(windowT, "promptContextFormat")], "\n")
         == Closing(ctx, userInstructions, stripHtmlFn, windowT)
  {
    JoinSix(Tr(windowT, "promptContextMessage") + " " + stripHtmlFn(ctx.emailBody),
            Tr(windowT, "promptContextLanguageDetect"),
            Tr(windowT, "promptContextInstructions") + " " + userInstructions,
            Tr(windowT, "promptContextFormat"));
  }

  lemma SenderLinesText(ctx: PromptContext, windowT: Option<string -> string>)
    ensures Terminated(SenderLines(ctx, windowT)) == SenderInfo(ctx.extensionSettings, ctx.sender, windowT)
  {
  }

  /** The joined lines are the heading, the sender line, the identity block and the closing, in that order. */
  lemma PromptJoin(ctx: PromptContext, identityKeys: seq<string>, userInstructions: string,
                   stripHtmlFn: Stripper, windowT: Option<string -> string>)
    requires |identityKeys| == |ctx.identity|
    ensures Join(PromptLines(ctx, identityKeys, userInstructions, stripHtmlFn, windowT), "\n")
         == Heading(ctx, windowT) + (SenderInfo(ctx.extensionSettings, ctx.sender, windowT)
            + (IdentityBlock(identityKeys, ctx.identity, windowT) + Closing(ctx, userInstructions, stripHtmlFn, windowT)))
  {
    var head := [Tr(windowT, "promptContextEmail"), Tr(windowT, "promptContextSubject") + " " + Show(ctx.subject)];
    var tail := [Tr(windowT, "promptContextMessage") + " " + stripHtmlFn(ctx.emailBody),
                 Tr(windowT, "promptContextLanguageDetect"), "",
                 Tr(windowT, "promptContextInstructions") + " " + userInstructions, "",
                 Tr(windowT, "promptContextFormat")];
    JoinRuns(head, SenderLines(ctx, windowT), IdentityLines(identityKeys, ctx.identity, windowT), tail);
    HeadingLines(ctx, windowT);
    SenderLinesText(ctx, windowT);
    IdentityBlockLines(identityKeys, ctx.identity, windowT);
    ClosingLines(ctx, userInstructions, stripHtmlFn, windowT);
    Regroup(Heading(ctx, windowT), SenderInfo(ctx.extensionSettings, ctx.sender, windowT),
            IdentityBlock(identityKeys, ctx.identity, windowT), Closing(ctx, userInstructions, stripHtmlFn, windowT));
  }

  lemma Regroup(a: string, b: string, c: string, d: string)
    ensures a + b + c + d == a + (b + (c + d))
  {
  }

  /** The Aria prompt is its lines joined by newlines. */
  lemma BuildPromptAriaLines(ctx: PromptContext, userInstructions: string, stripHtmlFn: Stripper,
                             windowT: Option<string -> string>)
    requires |ctx.identity| == 3
    ensures BuildPromptAria(ctx, userInstructions, stripHtmlFn, windowT)
         == Join(PromptLines(ctx, AriaIdentityKeys, userInstructions, stripHtmlFn, windowT), "\n")
  {
    PromptJoin(ctx, AriaIdentityKeys, userInstructions, stripHtmlFn, windowT);
  }

  /** The AI Mail prompt is its lines joined by newlines. */
  lemma BuildPromptMailLines(ctx: PromptContext, userInstructions: string, stripHtmlFn: Stripper,
                             windowT: Option<string -> string>)
    requires |ctx.identity| == 2
    ensures BuildPromptMail(ctx, userInstructions, stripHtmlFn, windowT)
         == Join(PromptLines(ctx, MailIdentityKeys, userInstructions, stripHtmlFn, windowT), "\n")
  {
    PromptJoin(ctx, MailIdentityKeys, userInstructions, stripHtmlFn, windowT);
  }

  /** With no extension settings the sender line is left out, and nothing else depends on them. */
  lemma WithoutSender(ctx: PromptContext, userInstructions: string, stripHtmlFn: Stripper,
                      windowT: Option<string -> string>)
    requires |ctx.identity| == 3
    ensures BuildPromptAria(ctx.(extensionSettings := None), userInstructions, stripHtmlFn, windowT)
         == Heading(ctx, windowT) + (IdentityBlock(AriaIdentityKeys, ctx.identity, windowT) + Closing(ctx, userInstructions, stripHtmlFn, windowT))
  {
    var off := ctx.(extensionSettings := None);
    var rest := IdentityBlock(AriaIdentityKeys, ctx.identity, windowT) + Closing(ctx, userInstructions, stripHtmlFn, windowT);
    calc {
      BuildPromptAria(off, userInstructions, stripHtmlFn, windowT);
      Heading(off, windowT) + (SenderInfo(None, ctx.sender, windowT)
        + (IdentityBlock(AriaIdentityKeys, off.identity, windowT) + Closing(off, userInstructions, stripHtmlFn, windowT)));
      { assert off.subject == ctx.subject && off.identity == ctx.identity && off.emailBody == ctx.emailBody; }
      Heading(ctx, windowT) + (SenderInfo(None, ctx.sender, windowT) + rest);
      { assert SenderInfo(None, ctx.sender, windowT) == ""; assert "" + rest == rest; }
      Heading(ctx, windowT) + rest;
    }
  }

  lemma SplitAt(a: string, b: string)
    ensures (a + b)[..|a|] == a && (a + b)[|a|..] == b
  {
  }

  /**
   * Turning `includeSender` on only inserts the sender line after the subject:
   * the prompt without it is the same text with that line left out.
   */
  lemma SenderLineOnlyDifference(ctx: PromptContext, userInstructions: string, stripHtmlFn: Stripper,
                                 windowT: Option<string -> string>)
    requires |ctx.identity| == 3
    ensures var off := BuildPromptAria(ctx.(extensionSettings := None), userInstructions, stripHtmlFn, windowT);
      var h := |Heading(ctx, windowT)|;
      && |off| >= h
      && BuildPromptAria(ctx, userInstructions, stripHtmlFn, windowT)
         == off[..h] + SenderInfo(ctx.extensionSettings, ctx.sender, windowT) + off[h..]
  {
    var head := Heading(ctx, windowT);
    var rest := IdentityBlock(AriaIdentityKeys, ctx.identity, windowT) + Closing(ctx, userInstructions, stripHtmlFn, windowT);
    WithoutSender(ctx, userInstructions, stripHtmlFn, windowT);
    SplitAt(head, rest);
  }
}
