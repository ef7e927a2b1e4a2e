/**
 * How the AI Mail Assistant finds the mail it works on and writes its answer
 * back: the active mail tab, the plain-text body of a message, the composer and
 * viewer contexts with their defaults, the failure rule of `getEmailContext`,
 * the whitespace clean-up of `stripHtml` (see `StripHtml`), and the rule that
 * merges generated text into a draft.
 *
 * Every Thunderbird call is a parameter: a value for what it returned, `None`
 * where it returned nothing or threw and the code treats both alike.
 */
module EmailContext {
  import opened Js
  import opened JsStrings

  /** A tab as `tabs.query` / `mailTabs.getCurrent` describe it. */
  datatype Tab = Tab(id: int, mailTab: bool)

  /** One entry of `full.parts`; a missing body is the empty string (both are falsy). */
  datatype Part = Part(contentType: string, body: string)

  /** The header fields of a message the code reads. */
  datatype MessageHeader = MessageHeader(id: int, subject: string, author: string)

  /** `compose.getComposeDetails`: absent fields are `None`. */
  datatype ComposeDetails = ComposeDetails(
    signature: Option<string>, from: Option<string>, inReplyTo: Option<int>,
    body: Option<string>, subject: Option<string>, to: seq<string>)

  /** Where a context was found: a compose window (with its tab and window) or the message viewer. */
  datatype Origin = Composer(tabId: int, windowId: int) | Viewer

  datatype Context = Context(
    messageId: Option<int>, emailBody: string, subject: string, sender: string,
    userName: string, userOrganization: string, origin: Origin)

  datatype Identity = Identity(userName: string, userOrganization: string)

  // ---------------------------------------------------------------------------
  // getActiveMailTab
  // ---------------------------------------------------------------------------

  /**
   * `getActiveMailTab`: the current mail tab when there is one, else the first
   * active tab of the current window, but only if it is a mail tab.
   */
  function ActiveMailTab(current: Option<Tab>, activeTabs: seq<Tab>): (r: Option<Tab>)
    ensures current.Some? ==> r == current
    ensures current.None? ==> (r.Some? <==> |activeTabs| > 0 && activeTabs[0].mailTab)
    ensures current.None? && r.Some? ==> r.value == activeTabs[0]
  {
    if current.Some? then current
    else if |activeTabs| == 0 then None
    else if activeTabs[0].mailTab then Some(activeTabs[0])
    else None
  }

  // ---------------------------------------------------------------------------
  // Part selection
  // ---------------------------------------------------------------------------

  predicate IsPlainWithBody(p: Part) {
    p.contentType == "text/plain" && p.body != ""
  }

  /** The first part whose type is `text/plain` and whose body is non-empty, or `''`. */
  function FirstPlainText(parts: seq<Part>): (body: string)
    ensures body == "" <==> forall j :: 0 <= j < |parts| ==> !IsPlainWithBody(parts[j])
    ensures body != "" ==> exists i :: 0 <= i < |parts| && IsPlainWithBody(parts[i]) && parts[i].body == body
  {
    if parts == [] then ""
    else if IsPlainWithBody(parts[0]) then parts[0].body
    else
      var rest := FirstPlainText(parts[1..]);
      assert forall j :: 1 <= j < |parts| ==> parts[j] == parts[1..][j - 1];
      if rest != "" then
        var i :| 0 <= i < |parts[1..]| && IsPlainWithBody(parts[1..][i]) && parts[1..][i].body == rest;
        assert parts[i + 1] == parts[1..][i];
        rest
      else rest
  }

  /** The first qualifying part is the one selected: no earlier part can win. */
  lemma {:induction false} FirstPlainTextAt(parts: seq<Part>, i: nat)
    requires i < |parts| && IsPlainWithBody(parts[i])
    requires forall j :: 0 <= j < i ==> !IsPlainWithBody(parts[j])
    ensures FirstPlainText(parts) == parts[i].body
  {
    if i > 0 {
      assert forall j :: 0 <= j < i - 1 ==> parts[1..][j] == parts[j + 1];
      FirstPlainTextAt(parts[1..], i - 1);
    }
  }

  /** The `for (let part of Object.values(full.parts))` loop with its `break`. */
  method SelectPlainBody(parts: seq<Part>) returns (body: string)
    ensures body == FirstPlainText(parts)
  {
    body := "";
    var i := 0;
    while i < |parts|
      invariant 0 <= i <= |parts|
      invariant forall j :: 0 <= j < i ==> !IsPlainWithBody(parts[j])
    {
      if parts[i].contentType == "text/plain" && parts[i].body != "" {
        body := parts[i].body;
        FirstPlainTextAt(parts, i);
        return;
      }
      i := i + 1;
    }
  }

  // ---------------------------------------------------------------------------
  // getUserIdentity and the user-name fallbacks
  // ---------------------------------------------------------------------------

  /** The background page's answer to `getUserIdentity`; absent fields are `None`. */
  datatype IdentityResponse = IdentityResponse(userName: Option<string>, userOrganization: Option<string>)

  /** `getUserIdentity`: the answer with `''` defaults, or two empty strings when the message fails. */
  function UserIdentity(response: Option<IdentityResponse>): (r: Identity)
    ensures response.None? ==> r == Identity("", "")
    ensures response.Some? && response.value.userName.Some? ==> r.userName == response.value.userName.value
  {
    match response
    case None => Identity("", "")
    case Some(a) => Identity(a.userName.GetOr(""), a.userOrganization.GetOr(""))
  }

  /** `from.split('<')[0].trim()` */
  function FromName(from: string): (r: string)
    ensures Trimmed(r) && '<' !in r
  {
    TrimKeepsCharacters(Split(from, '<')[0]);
    Trim(Split(from, '<')[0])
  }

  /** The name part of a `From` header is the trimmed text before its first `<`. */
  lemma FromNameIsBeforeBracket(from: string)
    ensures FromName(from) == Trim(if '<' in from then from[..IndexOf(from, '<')] else from)
  {
    SplitHead(from, '<');
  }

  /**
   * What `nameMatch` and `orgMatch` capture in the signature once it is stripped
   * of HTML; the regular expressions are a parameter of the model.
   */
  datatype SignatureMatch = SignatureMatch(name: Option<string>, organization: Option<string>)

  /**
   * The fallback chain for the user's name and organisation: the identity;
   * then, with no name yet and a signature, what the signature shows; then,
   * with still no name, the name part of `From` when it is non-empty.
   */
  method ResolveUser(identity: Identity, details: ComposeDetails, signatureNames: string -> SignatureMatch)
    returns (userName: string, userOrganization: string)
    ensures identity.userName != "" ==> userName == identity.userName && userOrganization == identity.userOrganization
    ensures userName == "" ==> identity.userName == "" && (details.from.None? || FromName(details.from.value) == "")
    ensures identity.userName == "" && (details.signature.None? || details.signature.value == "")
            && details.from.Some? && details.from.value != "" && FromName(details.from.value) != "" ==>
              userName == FromName(details.from.value) && userOrganization == identity.userOrganization
    ensures userName == UserNameOf(identity, details, signatureNames)
    ensures userOrganization == UserOrgOf(identity, details, signatureNames)
  {
    userName, userOrganization := identity.userName, identity.userOrganization;
    if userName == "" && details.signature.Some? && details.signature.value != "" {
      var m := signatureNames(details.signature.value);
      if m.name.Some? {
        userName := m.name.value;
      }
      if m.organization.Some? {
        userOrganization := m.organization.value;
      }
    }
    if userName == "" && details.from.Some? && details.from.value != "" {
      var fromName := FromName(details.from.value);
      if fromName != "" {
        userName := fromName;
      }
    }
  }

  /** The user name the chain ends with, as a value. */
  function UserNameOf(identity: Identity, details: ComposeDetails, signatureNames: string -> SignatureMatch): string {
    var afterSignature :=
      if identity.userName == "" && details.signature.Some? && details.signature.value != ""
         && signatureNames(details.signature.value).name.Some?
      then signatureNames(details.signature.value).name.value
      else identity.userName;
    if afterSignature == "" && details.from.Some? && details.from.value != "" && FromName(details.from.value) != ""
    then FromName(details.from.value)
    else afterSignature
  }

  /**
   * The organisation the chain ends with, as a value: the signature's match
   * when the identity has no name and a signature is present, else the
   * identity's organisation; `From` never supplies one.
   */
  function UserOrgOf(identity: Identity, details: ComposeDetails, signatureNames: string -> SignatureMatch): string {
    if identity.userName == "" && details.signature.Some? && details.signature.value != ""
       && signatureNames(details.signature.value).organization.Some?
    then signatureNames(details.signature.value).organization.value
    else identity.userOrganization
  }

  /**
   * The signature's organisation replaces the identity's whenever the signature
   * is consulted, whether or not it also supplies a name; otherwise the
   * identity's organisation is kept.
   */
  lemma UserOrgFromSignature(identity: Identity, details: ComposeDetails, signatureNames: string -> SignatureMatch)
    ensures identity.userName != "" ==> UserOrgOf(identity, details, signatureNames) == identity.userOrganization
    ensures identity.userName == "" && details.signature.Some? && details.signature.value != ""
            && signatureNames(details.signature.value).organization.Some? ==>
              UserOrgOf(identity, details, signatureNames) == signatureNames(details.signature.value).organization.value
    ensures (details.signature.None? || details.signature.value == "") ==>
              UserOrgOf(identity, details, signatureNames) == identity.userOrganization
  {
  }

  /** A non-empty name from any source in the chain is never replaced by a later one. */
  lemma UserNameFirstNonEmptyWins(identity: Identity, details: ComposeDetails, signatureNames: string -> SignatureMatch)
    ensures identity.userName != "" ==> UserNameOf(identity, details, signatureNames) == identity.userName
    ensures UserNameOf(identity, details, signatureNames) == "" ==>
      identity.userName == "" && (details.from.None? || FromName(details.from.value) == "")
  {
  }

  // ---------------------------------------------------------------------------
  // getComposerContext, getViewerContext, getEmailContext
  // ---------------------------------------------------------------------------

  /**
   * `getComposerContext`. `activeTabIds` are the ids of the window's active
   * tabs; `reply(id)` is the replied-to message with its parts, `None` when
   * loading it fails (the code then treats the draft as new).
   */
  method ComposerContext(
    windowId: int, activeTabIds: seq<int>, details: ComposeDetails, response: Option<IdentityResponse>,
    signatureNames: string -> SignatureMatch, reply: int -> Option<(MessageHeader, seq<Part>)>)
    returns (ctx: Option<Context>)
    ensures ctx.None? <==> |activeTabIds| == 0
    ensures ctx.Some? ==>
      && ctx.value.origin == Composer(activeTabIds[0], windowId)
      && ctx.value.userName == UserNameOf(UserIdentity(response), details, signatureNames)
      && ctx.value.userOrganization == UserOrgOf(UserIdentity(response), details, signatureNames)
    ensures ctx.Some? && IsReply(details, reply) ==>
      var h, parts := reply(details.inReplyTo.value).value.0, reply(details.inReplyTo.value).value.1;
      ctx.value.messageId == Some(h.id) && ctx.value.emailBody == FirstPlainText(parts)
      && ctx.value.subject == h.subject && ctx.value.sender == h.author
    ensures ctx.Some? && !IsReply(details, reply) ==>
      && ctx.value.messageId == None
      && ctx.value.emailBody == details.body.GetOr("")
      && ctx.value.subject == details.subject.GetOr("")
      && ctx.value.sender == (if |details.to| > 0 then details.to[0] else "")
  {
    if |activeTabIds| == 0 {
      return None;
    }
    var tabId := activeTabIds[0];
    var userName, userOrganization := ResolveUser(UserIdentity(response), details, signatureNames);
    if details.inReplyTo.Some? && details.inReplyTo.value != 0 {
      var loaded := reply(details.inReplyTo.value);
      if loaded.Some? {
        var (h, parts) := loaded.value;
        var body := SelectPlainBody(parts);
        return Some(Context(Some(h.id), body, h.subject, h.author, userName, userOrganization, Composer(tabId, windowId)));
      }
    }
    var sender := if |details.to| > 0 then details.to[0] else "";
    ctx := Some(Context(None, details.body.GetOr(""), details.subject.GetOr(""), sender,
                        userName, userOrganization, Composer(tabId, windowId)));
  }

  /** The draft answers a message and that message could be loaded. */
  predicate IsReply(details: ComposeDetails, reply: int -> Option<(MessageHeader, seq<Part>)>) {
    details.inReplyTo.Some? && details.inReplyTo.value != 0 && reply(details.inReplyTo.value).Some?
  }

  /**
   * `getViewerContext`. `displayed(tabId)` is the displayed message (`None` when
   * there is none or the call fails), `full(id)` its parts (`None` on failure).
   */
  method ViewerContext(
    mailTab: Option<Tab>, displayed: int -> Option<MessageHeader>, full: int -> Option<seq<Part>>,
    response: Option<IdentityResponse>)
    returns (ctx: Option<Context>)
    ensures ctx.Some? <==> mailTab.Some? && displayed(mailTab.value.id).Some? && full(displayed(mailTab.value.id).value.id).Some?
    ensures ctx.Some? ==>
      var m := displayed(mailTab.value.id).value;
      && ctx.value == Context(Some(m.id), FirstPlainText(full(m.id).value), m.subject, m.author,
                              UserIdentity(response).userName, UserIdentity(response).userOrganization, Viewer)
  {
    if mailTab.None? {
      return None;
    }
    var message := displayed(mailTab.value.id);
    if message.None? {
      return None;
    }
    var parts := full(message.value.id);
    if parts.None? {
      return None;
    }
    var body := SelectPlainBody(parts.value);
    var identity := UserIdentity(response);
    ctx := Some(Context(Some(message.value.id), body, message.value.subject, message.value.author,
                        identity.userName, identity.userOrganization, Viewer));
  }

  const NoContextMessage := "No message or reply draft open. Please open an email or reply first."

  /**
   * `getEmailContext`: the composer context when the current window is a
   * compose window and one is found, else the viewer context; it throws when
   * neither is obtained. `windowType` is `None` when `windows.getCurrent` fails.
   */
  function GetEmailContext(windowType: Option<string>, composer: Option<Context>, viewer: Option<Context>)
    : (r: Result<Context, string>)
    ensures r.Failure? <==> !(windowType == Some("messageCompose") && composer.Some?) && viewer.None?
    ensures r.Failure? ==> r.error == NoContextMessage
    ensures r.Success? ==> r.value == (if windowType == Some("messageCompose") && composer.Some? then composer.value else viewer.value)
  {
    if windowType == Some("messageCompose") && composer.Some? then Success(composer.value)
    else if viewer.Some? then Success(viewer.value)
    else Failure(NoContextMessage)
  }

  // ---------------------------------------------------------------------------
  // insertTextAtCursor
  // ---------------------------------------------------------------------------

  /**
   * The body a composer insert writes. With `clearEmailAfterSubmit` the text
   * replaces the draft; otherwise it is appended, after a blank line when the
   * current body has any non-whitespace content. A missing body is `''`.
   */
  function MergeBody(current: Option<string>, text: string, clearAfterSubmit: bool): (r: string)
    ensures clearAfterSubmit ==> r == text
    ensures !clearAfterSubmit ==> r == current.GetOr("") + (if IsBlank(current.GetOr("")) then "" else "\n\n") + text
  {
    var body := current.GetOr("");
    if clearAfterSubmit then text
    else
      var separator := if Trim(body) != "" then "\n\n" else "";
      body + separator + text
  }

  /**
   * Appending keeps the whole draft in front and the whole text at the end, and
   * puts nothing between them but the separator; a separator appears exactly
   * when the draft has content other than whitespace.
   */
  lemma MergeKeepsDraft(current: string, text: string)
    ensures var r := MergeBody(Some(current), text, false);
      && r[..|current|] == current
      && r[|r| - |text|..] == text
      && (|r| == |current| + |text| + 2 <==> !AllWs(current))
      && (|r| == |current| + |text| <==> AllWs(current))
  {
    BlankIffAllWs(current);
  }

  /** `settings.extension || {}` then `.clearEmailAfterSubmit`, as JavaScript truthiness. */
  function ClearAfterSubmit(extension: Option<Json>): bool {
    TruthyOpt(Get(Some(Or(extension, JObj(map[]))), "clearEmailAfterSubmit"))
  }

  /** What an insert does to Thunderbird: overwrite a compose body, or open a reply with the text. */
  datatype Insertion = SetComposeBody(tabId: int, body: string) | BeginReply(messageId: int, body: string)

  /** A tab id as a condition: `null` and 0 are falsy. */
  predicate TabIdTruthy(tabId: Option<int>) {
    tabId.Some? && tabId.value != 0
  }

  /**
   * What an insert consults, each call as its answer or as the message it
   * throws: `window` is the type of `windows.getCurrent()`,
   * `windowActiveTabIds` the ids `tabs.query` finds active in it,
   * `composeBody` the body `compose.getComposeDetails` gives for a tab,
   * `extension` the stored `extension` entry, `setComposeError` what
   * `compose.setComposeDetails` throws, if it does, `mailTab` what
   * `getActiveMailTab` settles with, `displayed` what
   * `messageDisplay.getDisplayedMessage` gives for a tab, and
   * `beginReplyError` what `compose.beginReply` throws, if it does.
   */
  datatype InsertEnv = InsertEnv(
    window: Result<string, string>, windowActiveTabIds: Result<seq<int>, string>,
    composeBody: int -> Result<Option<string>, string>, extension: Result<Option<Json>, string>,
    setComposeError: Option<string>, mailTab: Result<Option<Tab>, string>,
    displayed: int -> Result<Option<MessageHeader>, string>, beginReplyError: Option<string>)

  const NoComposeTab := "No compose tab found"
  const NoMessageOpen := "No message or reply draft open."

  /**
   * `insertTextAtCursor(text, context, tabId)`. In the composer every call
   * sits in a `try` whose `catch` rethrows, and in the viewer none is caught,
   * so a call that throws fails the insert with its own message.
   */
  function InsertTextAtCursor(text: string, context: string, tabId: Option<int>, env: InsertEnv)
    : (r: Result<Insertion, string>)
    ensures context == "composer" ==>
      (r.Success? <==>
        && ComposeTabId(tabId, env).Success? && TabIdTruthy(ComposeTabId(tabId, env).value)
        && env.composeBody(ComposeTabId(tabId, env).value.value).Success?
        && env.extension.Success? && env.setComposeError.None?)
      && (r.Success? ==> r.value == SetComposeBody(ComposeTabId(tabId, env).value.value,
            MergeBody(env.composeBody(ComposeTabId(tabId, env).value.value).value, text,
                      ClearAfterSubmit(env.extension.value))))
      && (ComposeTabId(tabId, env).Success? && !TabIdTruthy(ComposeTabId(tabId, env).value) ==>
            r == Failure(NoComposeTab))
      && (ComposeTabId(tabId, env).Failure? ==> r == Failure(ComposeTabId(tabId, env).error))
    ensures context != "composer" ==>
      (r.Success? <==>
        && env.mailTab.Success? && env.mailTab.value.Some?
        && env.displayed(env.mailTab.value.value.id).Success? && env.displayed(env.mailTab.value.value.id).value.Some?
        && env.beginReplyError.None?)
      && (r.Success? ==> r.value == BeginReply(env.displayed(env.mailTab.value.value.id).value.value.id, text))
      && (env.mailTab == Success(None) ==> r == Failure(NoMessageOpen))
      && (env.mailTab.Failure? ==> r == Failure(env.mailTab.error))
  {
    if context == "composer" then
      match ComposeTabId(tabId, env)
      case Failure(e) => Failure(e)
      case Success(id) =>
        if !TabIdTruthy(id) then Failure(NoComposeTab)
        else match env.composeBody(id.value)
          case Failure(e) => Failure(e)
          case Success(body) =>
            match env.extension
            case Failure(e) => Failure(e)
            case Success(extension) =>
              if env.setComposeError.Some? then Failure(env.setComposeError.value)
              else Success(SetComposeBody(id.value, MergeBody(body, text, ClearAfterSubmit(extension))))
    else
      match env.mailTab
      case Failure(e) => Failure(e)
      case Success(None) => Failure(NoMessageOpen)
      case Success(Some(tab)) =>
        match env.displayed(tab.id)
        case Failure(e) => Failure(e)
        case Success(None) => Failure(NoMessageOpen)
        case Success(Some(m)) =>
          if env.beginReplyError.Some? then Failure(env.beginReplyError.value) else Success(BeginReply(m.id, text))
  }

  /**
   * The compose tab an insert targets: the given id when it is truthy, else
   * the current compose window's first active tab, else the given id again;
   * a throwing `windows.getCurrent` or `tabs.query` fails the lookup.
   */
  function ComposeTabId(tabId: Option<int>, env: InsertEnv): (r: Result<Option<int>, string>)
    ensures TabIdTruthy(tabId) ==> r == Success(tabId)
    ensures !TabIdTruthy(tabId) && env.window.Failure? ==> r == Failure(env.window.error)
    ensures !TabIdTruthy(tabId) && env.window == Success("messageCompose") ==>
      match env.windowActiveTabIds
      case Failure(e) => r == Failure(e)
      case Success(ids) => r == Success(if |ids| > 0 then Some(ids[0]) else tabId)
    ensures !TabIdTruthy(tabId) && env.window.Success? && env.window.value != "messageCompose" ==> r == Success(tabId)
  {
    if TabIdTruthy(tabId) then Success(tabId)
    else match env.window
      case Failure(e) => Failure(e)
      case Success(windowType) =>
        if windowType != "messageCompose" then Success(tabId)
        else match env.windowActiveTabIds
          case Failure(e) => Failure(e)
          case Success(ids) => Success(if |ids| > 0 then Some(ids[0]) else tabId)
  }

  /** Outside a compose window, an insert with no tab id or with tab id 0 fails and writes nothing. */
  lemma NoComposeTabNoWrite(text: string, env: InsertEnv)
    requires env.window.Success? && env.window.value != "messageCompose"
    ensures InsertTextAtCursor(text, "composer", None, env) == Failure(NoComposeTab)
    ensures InsertTextAtCursor(text, "composer", Some(0), env) == Failure(NoComposeTab)
  {
  }

  /**
   * With a truthy tab id, the first of `getComposeDetails`, the storage read
   * and `setComposeDetails` to throw fails the insert with its message, which
   * the `catch` logs and rethrows.
   */
  lemma ComposerErrorsPassThrough(text: string, tabId: int, env: InsertEnv)
    requires tabId != 0
    ensures var r := InsertTextAtCursor(text, "composer", Some(tabId), env);
      && (env.composeBody(tabId).Failure? ==> r == Failure(env.composeBody(tabId).error))
      && (env.composeBody(tabId).Success? && env.extension.Failure? ==> r == Failure(env.extension.error))
      && (env.composeBody(tabId).Success? && env.extension.Success? && env.setComposeError.Some? ==>
            r == Failure(env.setComposeError.value))
  {
  }

  /**
   * In the viewer, a throwing `getDisplayedMessage` or `beginReply` fails the
   * insert with its message, and no displayed message fails it with the
   * fixed text.
   */
  lemma ViewerErrorsPassThrough(text: string, tab: Tab, env: InsertEnv)
    requires env.mailTab == Success(Some(tab))
    ensures var r := InsertTextAtCursor(text, "viewer", None, env);
      && (env.displayed(tab.id).Failure? ==> r == Failure(env.displayed(tab.id).error))
      && (env.displayed(tab.id) == Success(None) ==> r == Failure(NoMessageOpen))
      && (env.displayed(tab.id).Success? && env.displayed(tab.id).value.Some? && env.beginReplyError.Some? ==>
            r == Failure(env.beginReplyError.value))
  {
  }
}
