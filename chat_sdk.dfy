/**
 * The chat client: how one inbound transport payload becomes one chat message
 * (or none), the follow-up message once an attachment has been fetched, and the
 * lifecycle of the client's SDK instance. The SDK's own operations, the clock and
 * the id generator are parameters.
 */
module ChatSdk {
  import opened Wrappers
  import opened Text
  import opened Js
  import Config

  const AdaptiveCardType: string := "application/vnd.microsoft.card.adaptive"

  datatype Origin = User | Agent
  datatype AgentType = Bot | Human

  /** The file details a message carries; the fields keep whatever the payload held. */
  datatype FileMeta = FileMeta(name: JsValue, fileType: JsValue, size: JsValue, url: JsValue, id: JsValue)

  /** One quick-reply button. */
  datatype Action = Action(actionType: JsValue, title: JsValue, value: JsValue)

  /** A chat message as the widget stores it. */
  datatype Message = Message(
    id: JsValue,
    from: Origin,
    text: JsValue,
    timestamp: int,
    agentName: JsValue,
    agentType: Option<AgentType>,
    downloading: Option<bool>,
    uploading: Option<bool>,
    fileMetadata: Option<FileMeta>,
    suggestedActions: Option<seq<Action>>,
    adaptiveCard: JsValue)

  /**
   * What the payload callback does with one payload: it hands one message to the
   * handler (and, when the attachment still has to be fetched, asks for the download
   * of `fetch`, which starts only if the handler returns), skips an empty system
   * message, or stops on a TypeError that the callback's own `catch` swallows.
   */
  datatype Outcome = Emitted(msg: Message, fetch: Option<JsValue>) | SkippedSystem | Failed

  // ---- sender and text ----

  /** `payload?.sender?.role?.toLowerCase() === "user" ? "user" : "agent"`; None when the call throws. */
  function OriginOf(payload: JsValue): (r: Option<Origin>)
    ensures var role := Get(Get(payload, "sender"), "role");
            r.None? <==> !Nullish(role) && !role.Str?
    ensures var role := Get(Get(payload, "sender"), "role");
            r == Some(User) <==> role.Str? && Lower(role.s) == "user"
  {
    match CallLower(Get(Get(payload, "sender"), "role"))
    case None => None
    case Some(v) => if v == Str("user") then Some(User) else Some(Agent)
  }

  /** The four places a payload may carry its text, in the order they are tried. */
  function TextSources(payload: JsValue): seq<JsValue> {
    [Get(payload, "content"), Get(Get(payload, "message"), "content"),
     Get(payload, "text"), Get(Get(payload, "messagePayload"), "text")]
  }

  /** The first truthy value of `values`, else `fallback`: a chain of `||`. */
  function FirstTruthy(values: seq<JsValue>, fallback: JsValue): (r: JsValue)
    ensures (exists i :: 0 <= i < |values| && Truthy(values[i]) && r == values[i]
               && forall j :: 0 <= j < i ==> !Truthy(values[j]))
            || ((forall j :: 0 <= j < |values| ==> !Truthy(values[j])) && r == fallback)
  {
    if values == [] then fallback
    else if Truthy(values[0]) then values[0]
    else
      var r := FirstTruthy(values[1..], fallback);
      assert forall j :: 1 <= j < |values| ==> values[j] == values[1..][j - 1];
      r
  }

  /**
   * The text before any structured parsing: the first truthy of the four text fields,
   * tried in order, else `""`.
   */
  function RawText(payload: JsValue): (r: JsValue)
    ensures forall i :: 0 <= i < |TextSources(payload)| && Truthy(TextSources(payload)[i])
              && (forall j :: 0 <= j < i ==> !Truthy(TextSources(payload)[j]))
              ==> r == TextSources(payload)[i]
    ensures (forall j :: 0 <= j < |TextSources(payload)| ==> !Truthy(TextSources(payload)[j])) ==> r == Str("")
  {
    FirstTruthy(TextSources(payload), Str(""))
  }

  // ---- structured content ----

  /** The button for one element of `suggestedActions.actions`. */
  function ActionOf(a: JsValue): Action {
    Action(Or(Get(a, "type"), Str("imBack")),
           Or(Or(Get(a, "title"), Get(a, "text")), Get(a, "value")),
           Or(Get(a, "value"), Get(a, "text")))
  }

  /** `actions.map(...)`; None when an element is null or undefined, since reading its fields throws. */
  function MapActions(items: seq<JsValue>): (r: Option<seq<Action>>)
    ensures r.None? <==> exists i :: 0 <= i < |items| && Nullish(items[i])
    ensures r.Some? ==> |r.value| == |items| && forall i :: 0 <= i < |items| ==> r.value[i] == ActionOf(items[i])
  {
    if items == [] then Some([])
    else if Nullish(items[0]) then None
    else
      match MapActions(items[1..])
      case None =>
        assert forall i :: 1 <= i < |items| ==> items[i] == items[1..][i - 1];
        None
      case Some(rest) =>
        assert forall i :: 1 <= i < |items| ==> items[i] == items[1..][i - 1];
        Some([ActionOf(items[0])] + rest)
  }

  /** The text, quick replies and adaptive card after the structured-content step. */
  datatype Structured = Structured(text: JsValue, actions: Option<seq<Action>>, card: JsValue)

  /** Text that the structured-content step tries to parse: a string that starts with `{`. */
  predicate LooksStructured(text: JsValue) {
    text.Str? && text.s != [] && text.s[0] == '{'
  }

  /** The actions array of a parsed object, when `suggestedActions.actions` is an array. */
  predicate HasActionArray(parsed: JsValue) {
    Get(Get(parsed, "suggestedActions"), "actions").Arr?
  }

  function ActionItems(parsed: JsValue): seq<JsValue>
    requires HasActionArray(parsed)
  {
    Get(Get(parsed, "suggestedActions"), "actions").items
  }

  /**
   * The first attempt of the structured step on a parsed value: quick replies. None
   * when mapping an action throws; the text is then left as it was.
   */
  function QuickReplies(text: JsValue, parsed: JsValue): (r: Option<(JsValue, Option<seq<Action>>)>)
    ensures !HasActionArray(parsed) ==> r == Some((text, None))
    ensures HasActionArray(parsed) ==>
              (r.None? <==> MapActions(ActionItems(parsed)).None?)
    ensures HasActionArray(parsed) && r.Some? ==>
              r.value == (Or(Get(parsed, "text"), Str("")), MapActions(ActionItems(parsed)))
  {
    if !HasActionArray(parsed) then Some((text, None))
    else
      match MapActions(ActionItems(parsed))
      case None => None
      case Some(actions) => Some((Or(Get(parsed, "text"), Str("")), Some(actions)))
  }

  /** `parsed.text || attachment.content?.body?.[0]?.text || ""` */
  function CardText(parsed: JsValue, content: JsValue): (r: JsValue)
    ensures Truthy(Get(parsed, "text")) ==> r == Get(parsed, "text")
    ensures !Truthy(Get(parsed, "text")) && Truthy(Get(At(Get(content, "body"), 0), "text")) ==>
              r == Get(At(Get(content, "body"), 0), "text")
    ensures !Truthy(Get(parsed, "text")) && !Truthy(Get(At(Get(content, "body"), 0), "text")) ==> r == Str("")
  {
    Or(Get(parsed, "text"), Or(Get(At(Get(content, "body"), 0), "text"), Str("")))
  }

  /** The first parsed attachment, when `parsed.attachments` is a non-empty array. */
  function FirstAttachment(v: JsValue): JsValue {
    var atts := Get(v, "attachments");
    if IsNonEmptyArray(atts) then atts.items[0] else Undefined
  }

  /**
   * The structured-content step: a string starting with `{` is given to `JSON.parse`.
   * Quick replies are taken first; an adaptive-card attachment then sets the card and
   * the text. Any exception (a failed parse, a null action, a null first attachment)
   * is caught, keeping what had been assigned before it.
   */
  function ParseStructured(text: JsValue, parse: string -> Option<JsValue>): (r: Structured)
    ensures !LooksStructured(text) ==> r == Structured(text, None, Undefined)
    ensures LooksStructured(text) && parse(text.s).None? ==> r == Structured(text, None, Undefined)
    ensures r.card != Undefined ==> LooksStructured(text) && parse(text.s).Some?
  {
    if !LooksStructured(text) then Structured(text, None, Undefined)
    else
      match parse(text.s)
      case None => Structured(text, None, Undefined)
      case Some(parsed) =>
        if Nullish(parsed) then Structured(text, None, Undefined)
        else
          match QuickReplies(text, parsed)
          case None => Structured(text, None, Undefined)
          case Some(step) =>
            var atts := Get(parsed, "attachments");
            if !(Truthy(atts) && IsNonEmptyArray(atts)) then Structured(step.0, step.1, Undefined)
            else
              var att := atts.items[0];
              if Nullish(att) then Structured(step.0, step.1, Undefined)
              else if Get(att, "contentType") == Str(AdaptiveCardType) then
                var content := Get(att, "content");
                Structured(CardText(parsed, content), step.1, content)
              else Structured(step.0, step.1, Undefined)
  }

  // ---- file metadata ----

  /** Where a message's file details came from. */
  datatype FileSource = NoFile | FromMetadata(meta: FileMeta) | FromAttachment(meta: FileMeta) | FileThrew

  /** The details built from `payload.fileMetadata`. */
  function MetadataFile(info: JsValue): FileMeta {
    FileMeta(Or(Or(Get(info, "name"), Get(info, "fileName")), Str("file")),
             Or(Or(Get(info, "type"), Get(info, "contentType")), Str("application/octet-stream")),
             Or(Get(info, "size"), Num(0)),
             Or(Get(info, "url"), Str("")),
             Get(info, "id"))
  }

  /** The details built from the first entry of `payload.attachments`. */
  function AttachmentFile(att: JsValue): FileMeta {
    FileMeta(Or(Or(Get(att, "name"), Get(att, "fileName")), Str("file")),
             Or(Or(Get(att, "contentType"), Get(att, "type")), Str("application/octet-stream")),
             Or(Get(att, "size"), Num(0)),
             Or(Get(att, "contentUrl"), Get(att, "url")),
             Undefined)
  }

  /**
   * File details: `payload.fileMetadata` wins; otherwise the first attachment, unless it
   * is an adaptive card. A null first attachment makes reading its type throw.
   */
  function FileOf(payload: JsValue): (r: FileSource)
    ensures Truthy(Get(payload, "fileMetadata")) ==> r == FromMetadata(MetadataFile(Get(payload, "fileMetadata")))
    ensures !Truthy(Get(payload, "fileMetadata")) ==>
              var atts := Get(payload, "attachments");
              if !IsNonEmptyArray(atts) then r == NoFile
              else if Nullish(atts.items[0]) then r == FileThrew
              else if Get(atts.items[0], "contentType") == Str(AdaptiveCardType) then r == NoFile
              else r == FromAttachment(AttachmentFile(atts.items[0]))
  {
    var info := Get(payload, "fileMetadata");
    if Truthy(info) then FromMetadata(MetadataFile(info))
    else
      var atts := Get(payload, "attachments");
      if Truthy(atts) && IsNonEmptyArray(atts) then
        var att := atts.items[0];
        if Nullish(att) then FileThrew
        else if Get(att, "contentType") != Str(AdaptiveCardType) then FromAttachment(AttachmentFile(att))
        else NoFile
      else NoFile
  }

  function MetaOf(f: FileSource): Option<FileMeta> {
    match f
    case FromMetadata(m) => Some(m)
    case FromAttachment(m) => Some(m)
    case _ => None
  }

  // ---- agent details ----

  /**
   * `tags.find(t => t.startsWith("agentName:"))?.split(":")[1]`: the text after the first
   * `:` of the first such tag, `undefined` when there is none, and None when an element
   * before it is not a string (calling `startsWith` on it throws).
   */
  function AgentTag(tags: seq<JsValue>): (r: Option<JsValue>)
    ensures r.Some? && r.value.Str? ==>
              exists i :: 0 <= i < |tags| && tags[i].Str? && StartsWith(tags[i].s, "agentName:")
                          && |Split(tags[i].s, ':')| >= 2 && r.value == Str(Split(tags[i].s, ':')[1])
    ensures r == Some(Undefined) <==>
              forall i :: 0 <= i < |tags| ==> tags[i].Str? && !StartsWith(tags[i].s, "agentName:")
  {
    if tags == [] then Some(Undefined)
    else if !tags[0].Str? then None
    else if StartsWith(tags[0].s, "agentName:") then
      AgentTagPieces(tags[0].s);
      Some(Str(Split(tags[0].s, ':')[1]))
    else
      var r := AgentTag(tags[1..]);
      assert forall i :: 1 <= i < |tags| ==> tags[i] == tags[1..][i - 1];
      r
  }

  /** A tag that starts with `agentName:` splits into at least two pieces at `:`. */
  lemma AgentTagPieces(t: string)
    requires StartsWith(t, "agentName:")
    ensures |Split(t, ':')| >= 2
  {
    assert t == "agentName" + [':'] + t[10..];
    SplitCons("agentName", ':', t[10..]);
  }

  /**
   * The agent's name: `sender.displayName || sender.name || agentName || <tag>`,
   * the tag part being `null` when `tags` is not an array. None when the tag search throws.
   */
  function AgentNameOf(payload: JsValue): (r: Option<JsValue>)
    ensures var sender := Get(payload, "sender");
            Truthy(Get(sender, "displayName")) ==> r == Some(Get(sender, "displayName"))
    ensures var sender := Get(payload, "sender");
            !Truthy(Get(sender, "displayName")) && Truthy(Get(sender, "name")) ==> r == Some(Get(sender, "name"))
    ensures var sender := Get(payload, "sender");
            !Truthy(Get(sender, "displayName")) && !Truthy(Get(sender, "name")) && Truthy(Get(payload, "agentName")) ==>
              r == Some(Get(payload, "agentName"))
    ensures var sender := Get(payload, "sender");
            var tags := Get(payload, "tags");
            !Truthy(Get(sender, "displayName")) && !Truthy(Get(sender, "name")) && !Truthy(Get(payload, "agentName")) ==>
              r == (if tags.Arr? then AgentTag(tags.items) else Some(Null))
  {
    var sender := Get(payload, "sender");
    var named := Or(Or(Get(sender, "displayName"), Get(sender, "name")), Get(payload, "agentName"));
    if Truthy(named) then Some(named)
    else
      var tags := Get(payload, "tags");
      if !tags.Arr? then Some(Null) else AgentTag(tags.items)
  }

  /** A bot: the sender or message type says "bot", the tags contain "bot", or no name was found. */
  function IsBot(payload: JsValue, agentName: JsValue): (b: bool)
    ensures LowerOrEmpty(Get(Get(payload, "sender"), "type")) == "bot" ==> b
    ensures LowerOrEmpty(Get(payload, "messageType")) == "bot" ==> b
    ensures Get(payload, "tags").Arr? && Str("bot") in Get(payload, "tags").items ==> b
    ensures !Truthy(agentName) ==> b
    ensures b ==> LowerOrEmpty(Get(Get(payload, "sender"), "type")) == "bot"
                  || LowerOrEmpty(Get(payload, "messageType")) == "bot"
                  || (Get(payload, "tags").Arr? && Str("bot") in Get(payload, "tags").items)
                  || !Truthy(agentName)
  {
    LowerOrEmpty(Get(Get(payload, "sender"), "type")) == "bot"
    || LowerOrEmpty(Get(payload, "messageType")) == "bot"
    || (Get(payload, "tags").Arr? && Str("bot") in Get(payload, "tags").items)
    || !Truthy(agentName)
  }

  /** `payload?.messageId || payload?.id || createId()` */
  function MessageId(payload: JsValue, freshId: string): (r: JsValue)
    ensures Truthy(Get(payload, "messageId")) ==> r == Get(payload, "messageId")
    ensures !Truthy(Get(payload, "messageId")) && Truthy(Get(payload, "id")) ==> r == Get(payload, "id")
    ensures !Truthy(Get(payload, "messageId")) && !Truthy(Get(payload, "id")) ==> r == Str(freshId)
    ensures freshId != "" ==> Truthy(r)
  {
    Or(Or(Get(payload, "messageId"), Get(payload, "id")), Str(freshId))
  }

  /**
   * The skip test `!text && !fileMetadata && payload?.messageType?.toLowerCase() === "system"`:
   * Some(true) to skip, None when the lower-casing throws (it runs only when the first two hold).
   */
  function SkipTest(text: JsValue, file: Option<FileMeta>, payload: JsValue): (r: Option<bool>)
    ensures r == Some(true) <==> !Truthy(text) && file.None? && Get(payload, "messageType").Str?
                                 && Lower(Get(payload, "messageType").s) == "system"
    ensures r.None? <==> !Truthy(text) && file.None? && !Nullish(Get(payload, "messageType"))
                         && !Get(payload, "messageType").Str?
  {
    if Truthy(text) || file.Some? then Some(false)
    else
      match CallLower(Get(payload, "messageType"))
      case None => None
      case Some(v) => Some(v == Str("system"))
  }

  // ---- the payload callback ----

  /**
   * The payload callback of `onNewMessage`: one payload gives one message, a skipped
   * system message, or a caught failure. `now` is the clock and `freshId` the
   * generated id.
   */
  function Normalise(payload: JsValue, parse: string -> Option<JsValue>, now: int, freshId: string): (o: Outcome)
    ensures o.Emitted? ==> OriginOf(payload).Some? && o.msg.from == OriginOf(payload).value
    ensures o.Emitted? ==> o.msg.id == MessageId(payload, freshId) && o.msg.timestamp == now
    ensures o.Emitted? ==> o.msg.uploading.None?
  {
    match OriginOf(payload)
    case None => Failed
    case Some(from) =>
      var st := ParseStructured(RawText(payload), parse);
      var file := FileOf(payload);
      if file.FileThrew? then Failed
      else
        var meta := MetaOf(file);
        match SkipTest(st.text, meta, payload)
        case None => Failed
        case Some(skip) =>
          if skip then SkippedSystem
          else
            match AgentNameOf(payload)
            case None => Failed
            case Some(agentName) =>
              var agentType := if IsBot(payload, agentName) then Bot else Human;
              var needsDownload := file.FromMetadata? && !Truthy(file.meta.url);
              var msg := Message(MessageId(payload, freshId), from, st.text, now, agentName, Some(agentType),
                                 if needsDownload then Some(true) else None, None,
                                 meta, st.actions, st.card);
              Emitted(msg, if needsDownload then Some(Get(payload, "fileMetadata")) else None)
  }

  // ---- properties of the callback ----

  /** The origin is "user" exactly when the role lower-cases to "user"; every other emitted message is from the agent. */
  lemma OriginIsUserIff(payload: JsValue, parse: string -> Option<JsValue>, now: int, freshId: string)
    requires Normalise(payload, parse, now, freshId).Emitted?
    ensures var role := Get(Get(payload, "sender"), "role");
            Normalise(payload, parse, now, freshId).msg.from == User <==> role.Str? && Lower(role.s) == "user"
  {
  }

  /** A role that is neither nullish nor a string makes the callback fail without emitting anything. */
  lemma BadRoleFails(payload: JsValue, parse: string -> Option<JsValue>, now: int, freshId: string)
    requires var role := Get(Get(payload, "sender"), "role"); !Nullish(role) && !role.Str?
    ensures Normalise(payload, parse, now, freshId) == Failed
  {
  }

  /** Plain text (not starting with `{`) is the first truthy text field, unchanged. */
  lemma PlainTextKept(payload: JsValue, parse: string -> Option<JsValue>, now: int, freshId: string)
    requires !LooksStructured(RawText(payload))
    requires Normalise(payload, parse, now, freshId).Emitted?
    ensures var m := Normalise(payload, parse, now, freshId).msg;
            m.text == RawText(payload) && m.suggestedActions.None? && m.adaptiveCard == Undefined
  {
  }

  /** Text starting with `{` that does not parse is kept verbatim, without actions or card. */
  lemma FailedParseKeepsText(payload: JsValue, parse: string -> Option<JsValue>, now: int, freshId: string)
    requires LooksStructured(RawText(payload)) && parse(RawText(payload).s).None?
    requires Normalise(payload, parse, now, freshId).Emitted?
    ensures var m := Normalise(payload, parse, now, freshId).msg;
            m.text == RawText(payload) && m.suggestedActions.None? && m.adaptiveCard == Undefined
  {
  }

  /** A failed parse never makes the callback fail: whether it emits is decided without it. */
  lemma ParseFailureHarmless(payload: JsValue, parse: string -> Option<JsValue>, now: int, freshId: string)
    requires LooksStructured(RawText(payload)) && parse(RawText(payload).s).None?
    requires OriginOf(payload).Some? && !FileOf(payload).FileThrew? && AgentNameOf(payload).Some?
    ensures Normalise(payload, parse, now, freshId).Emitted?
  {
  }

  /**
   * Quick replies: when `suggestedActions.actions` is an array without null elements and
   * there is no adaptive-card attachment, each action is mapped with its fallbacks and the
   * text becomes `parsed.text || ""`.
   */
  lemma QuickRepliesApplied(payload: JsValue, parse: string -> Option<JsValue>, now: int, freshId: string)
    requires LooksStructured(RawText(payload)) && parse(RawText(payload).s).Some?
    requires var parsed := parse(RawText(payload).s).value;
             !Nullish(parsed) && HasActionArray(parsed)
             && (forall i :: 0 <= i < |ActionItems(parsed)| ==> !Nullish(ActionItems(parsed)[i]))
             && !IsNonEmptyArray(Get(parsed, "attachments"))
    requires Normalise(payload, parse, now, freshId).Emitted?
    ensures var parsed := parse(RawText(payload).s).value;
            var m := Normalise(payload, parse, now, freshId).msg;
            && m.text == Or(Get(parsed, "text"), Str(""))
            && m.suggestedActions.Some?
            && |m.suggestedActions.value| == |ActionItems(parsed)|
            && (forall i :: 0 <= i < |ActionItems(parsed)| ==>
                  var a := ActionItems(parsed)[i];
                  m.suggestedActions.value[i]
                    == Action(Or(Get(a, "type"), Str("imBack")),
                              Or(Or(Get(a, "title"), Get(a, "text")), Get(a, "value")),
                              Or(Get(a, "value"), Get(a, "text"))))
  {
    var parsed := parse(RawText(payload).s).value;
    var m := Normalise(payload, parse, now, freshId).msg;
    assert m.suggestedActions == MapActions(ActionItems(parsed));
  }

  /**
   * An adaptive card: when the first parsed attachment has the card content type, the
   * card is its `content` and the text `parsed.text || content.body[0].text || ""`.
   */
  lemma AdaptiveCardApplied(payload: JsValue, parse: string -> Option<JsValue>, now: int, freshId: string)
    requires LooksStructured(RawText(payload)) && parse(RawText(payload).s).Some?
    requires var parsed := parse(RawText(payload).s).value;
             !Nullish(parsed) && QuickReplies(RawText(payload), parsed).Some?
             && IsNonEmptyArray(Get(parsed, "attachments"))
             && !Nullish(FirstAttachment(parsed))
             && Get(FirstAttachment(parsed), "contentType") == Str(AdaptiveCardType)
    requires Normalise(payload, parse, now, freshId).Emitted?
    ensures var parsed := parse(RawText(payload).s).value;
            var content := Get(FirstAttachment(parsed), "content");
            var m := Normalise(payload, parse, now, freshId).msg;
            m.adaptiveCard == content
            && m.text == Or(Get(parsed, "text"), Or(Get(At(Get(content, "body"), 0), "text"), Str("")))
  {
    CardStep(RawText(payload), parse);
  }

  /** The structured step on a parsed value whose first attachment is an adaptive card. */
  lemma CardStep(text: JsValue, parse: string -> Option<JsValue>)
    requires LooksStructured(text) && parse(text.s).Some?
    requires var parsed := parse(text.s).value;
             !Nullish(parsed) && QuickReplies(text, parsed).Some?
             && IsNonEmptyArray(Get(parsed, "attachments"))
             && !Nullish(FirstAttachment(parsed))
             && Get(FirstAttachment(parsed), "contentType") == Str(AdaptiveCardType)
    ensures var parsed := parse(text.s).value;
            var content := Get(FirstAttachment(parsed), "content");
            ParseStructured(text, parse).card == content
            && ParseStructured(text, parse).text == CardText(parsed, content)
  {
  }

  /** `payload.fileMetadata` wins over the attachments, and its defaults are "file", octet-stream and 0. */
  lemma MetadataWins(payload: JsValue, parse: string -> Option<JsValue>, now: int, freshId: string)
    requires Truthy(Get(payload, "fileMetadata"))
    requires Normalise(payload, parse, now, freshId).Emitted?
    ensures var info := Get(payload, "fileMetadata");
            var f := Normalise(payload, parse, now, freshId).msg.fileMetadata;
            f.Some?
            && f.value.name == FirstTruthy([Get(info, "name"), Get(info, "fileName")], Str("file"))
            && f.value.fileType == FirstTruthy([Get(info, "type"), Get(info, "contentType")], Str("application/octet-stream"))
            && f.value.size == FirstTruthy([Get(info, "size")], Num(0))
  {
  }

  /** An adaptive-card attachment is never taken as a file. */
  lemma CardAttachmentIsNoFile(payload: JsValue, parse: string -> Option<JsValue>, now: int, freshId: string)
    requires !Truthy(Get(payload, "fileMetadata"))
    requires IsNonEmptyArray(Get(payload, "attachments"))
    requires Get(FirstAttachment(payload), "contentType") == Str(AdaptiveCardType)
    requires Normalise(payload, parse, now, freshId).Emitted?
    ensures Normalise(payload, parse, now, freshId).msg.fileMetadata.None?
  {
  }

  /**
   * A payload is skipped exactly when its final text is falsy, it has no file and its
   * message type lower-cases to "system" (given the sender's role can be read).
   */
  lemma SkipIff(payload: JsValue, parse: string -> Option<JsValue>, now: int, freshId: string)
    requires OriginOf(payload).Some? && !FileOf(payload).FileThrew?
    ensures var text := ParseStructured(RawText(payload), parse).text;
            var mt := Get(payload, "messageType");
            (Normalise(payload, parse, now, freshId) == SkippedSystem)
              <==> (!Truthy(text) && MetaOf(FileOf(payload)).None? && mt.Str? && Lower(mt.s) == "system")
  {
  }

  /** The agent type is "bot" exactly when one of the four bot signs holds. */
  lemma AgentTypeRule(payload: JsValue, parse: string -> Option<JsValue>, now: int, freshId: string)
    requires Normalise(payload, parse, now, freshId).Emitted?
    ensures var m := Normalise(payload, parse, now, freshId).msg;
            AgentNameOf(payload) == Some(m.agentName)
            && ((m.agentType == Some(Bot))
                  <==> (|| LowerOrEmpty(Get(Get(payload, "sender"), "type")) == "bot"
                        || LowerOrEmpty(Get(payload, "messageType")) == "bot"
                        || (Get(payload, "tags").Arr? && Str("bot") in Get(payload, "tags").items)
                        || !Truthy(m.agentName)))
            && (m.agentType == Some(Human) <==> m.agentType != Some(Bot))
  {
  }

  /**
   * A download is started exactly when the details came from `payload.fileMetadata` and
   * their url is falsy; the message is then flagged as downloading.
   */
  lemma DownloadIff(payload: JsValue, parse: string -> Option<JsValue>, now: int, freshId: string)
    requires Normalise(payload, parse, now, freshId).Emitted?
    ensures var o := Normalise(payload, parse, now, freshId);
            (o.fetch.Some? <==> Truthy(Get(payload, "fileMetadata")) && !Truthy(Get(Get(payload, "fileMetadata"), "url")))
            && (o.fetch.Some? ==> o.fetch.value == Get(payload, "fileMetadata") && o.msg.downloading == Some(true))
            && (o.fetch.None? ==> o.msg.downloading.None?)
  {
  }

  // ---- the follow-up once the attachment is fetched ----

  /** A fetched attachment: its size and MIME type. */
  datatype Blob = Blob(size: nat, blobType: string)

  /**
   * The follow-up message once the download finishes: nothing for a null blob; otherwise
   * the same message, no longer downloading, with the blob's size, type (or the saved
   * one) and object URL.
   */
  function Hydrate(msg: Message, blob: Option<Blob>, blobUrl: string, now: int): (r: Option<Message>)
    requires msg.fileMetadata.Some?
    ensures blob.None? <==> r.None?
    ensures r.Some? ==>
              && r.value.id == msg.id && r.value.from == msg.from && r.value.text == msg.text
              && r.value.agentName == msg.agentName && r.value.agentType == msg.agentType
              && r.value.suggestedActions == msg.suggestedActions && r.value.adaptiveCard == msg.adaptiveCard
              && r.value.downloading == Some(false) && r.value.timestamp == now
              && r.value.uploading == msg.uploading
              && r.value.fileMetadata.Some?
              && r.value.fileMetadata.value.name == msg.fileMetadata.value.name
              && r.value.fileMetadata.value.id == msg.fileMetadata.value.id
              && r.value.fileMetadata.value.size == Num(blob.value.size)
              && r.value.fileMetadata.value.url == Str(blobUrl)
              && (blob.value.blobType != [] ==> r.value.fileMetadata.value.fileType == Str(blob.value.blobType))
              && (blob.value.blobType == [] ==> r.value.fileMetadata.value.fileType == msg.fileMetadata.value.fileType)
  {
    match blob
    case None => None
    case Some(b) =>
      var saved := msg.fileMetadata.value;
      Some(msg.(timestamp := now, downloading := Some(false),
                fileMetadata := Some(FileMeta(saved.name, Or(Str(b.blobType), saved.fileType),
                                              Num(b.size), Str(blobUrl), saved.id))))
  }

  /** Every emitted message that starts a download can be hydrated. */
  lemma FetchHasFile(payload: JsValue, parse: string -> Option<JsValue>, now: int, freshId: string)
    requires Normalise(payload, parse, now, freshId).Emitted?
    requires Normalise(payload, parse, now, freshId).fetch.Some?
    ensures Normalise(payload, parse, now, freshId).msg.fileMetadata.Some?
  {
  }

  // ---- the SDK's download result ----

  /** What the SDK's download returns: a blob, an object holding one in `data`, or something else. */
  datatype SdkValue = BlobValue(blob: Blob) | Wrapped(data: SdkValue) | Plain(v: JsValue)

  /** `result?.data || result`, kept only when it is a Blob. */
  function BlobOf(result: SdkValue): (r: Option<Blob>)
    ensures r.Some? <==> result.BlobValue? || (result.Wrapped? && result.data.BlobValue?)
    ensures result.BlobValue? ==> r == Some(result.blob)
    ensures result.Wrapped? && result.data.BlobValue? ==> r == Some(result.data.blob)
  {
    match result
    case BlobValue(b) => Some(b)
    case Wrapped(d) => if d.BlobValue? then Some(d.blob) else None
    case Plain(_) => None
  }

  // ---- the client and its SDK instance ----

  /** The SDK instance: none, created but not yet initialised, or initialised. */
  datatype SdkState = NoSdk | Created | Initialised

  /** The outcome of an SDK call made by the client. */
  datatype Status = Ok | Threw

  class ChatSdkClient {
    var sdk: SdkState
    var chatConfig: JsValue

    constructor ()
      ensures sdk == NoSdk && chatConfig == Null
    {
      sdk := NoSdk;
      chatConfig := Null;
    }

    /**
     * `ensureSdk`: an existing instance is reused; otherwise an invalid configuration
     * throws before anything changes, and a valid one creates the instance, initialises
     * it and reads its live-chat configuration, either of which may throw.
     */
    method EnsureSdk(config: Config.OmnichannelConfig, initialize: Status, liveChatConfig: Option<JsValue>)
      returns (status: Status)
      modifies this
      ensures old(sdk) != NoSdk ==> status == Ok && sdk == old(sdk) && chatConfig == old(chatConfig)
      ensures old(sdk) == NoSdk && !config.isValid ==>
                status == Threw && sdk == NoSdk && chatConfig == old(chatConfig)
      ensures old(sdk) == NoSdk && config.isValid && initialize == Threw ==>
                status == Threw && sdk == Created && chatConfig == old(chatConfig)
      ensures old(sdk) == NoSdk && config.isValid && initialize == Ok ==>
                sdk == Initialised
                && (liveChatConfig.None? ==> status == Threw && chatConfig == old(chatConfig))
                && (liveChatConfig.Some? ==> status == Ok && chatConfig == liveChatConfig.value)
    {
      if sdk != NoSdk {
        return Ok;
      }
      if !config.isValid {
        return Threw;
      }
      sdk := Created;
      if initialize == Threw {
        return Threw;
      }
      sdk := Initialised;
      if liveChatConfig.None? {
        return Threw;
      }
      chatConfig := liveChatConfig.value;
      status := Ok;
    }

    /** `ensureSdk` with a failed initialisation undone, so that the next call tries again. */
    method EnsureSdkRetrying(config: Config.OmnichannelConfig, initialize: Status, liveChatConfig: Option<JsValue>)
      returns (status: Status)
      modifies this
      ensures old(sdk) != NoSdk ==> status == Ok && sdk == old(sdk) && chatConfig == old(chatConfig)
      ensures old(sdk) == NoSdk && (!config.isValid || initialize == Threw) ==>
                status == Threw && sdk == NoSdk && chatConfig == old(chatConfig)
      ensures old(sdk) == NoSdk && config.isValid && initialize == Ok ==>
                sdk == Initialised
                && (liveChatConfig.None? ==> status == Threw && chatConfig == old(chatConfig))
                && (liveChatConfig.Some? ==> status == Ok && chatConfig == liveChatConfig.value)
      ensures old(sdk) != Created ==> sdk != Created
    {
      if sdk != NoSdk {
        return Ok;
      }
      if !config.isValid || initialize == Threw {
        return Threw;
      }
      sdk := Initialised;
      if liveChatConfig.None? {
        return Threw;
      }
      chatConfig := liveChatConfig.value;
      status := Ok;
    }

    /**
     * `endChat`: nothing happens without an instance; otherwise the SDK's `endChat` is
     * called and, whether it succeeds or throws, the instance is dropped.
     */
    method EndChat(sdkEnd: Status) returns (status: Status)
      modifies this
      ensures old(sdk) == NoSdk ==> status == Ok && sdk == NoSdk
      ensures old(sdk) != NoSdk ==> status == sdkEnd
      ensures sdk == NoSdk && chatConfig == old(chatConfig)
    {
      if sdk == NoSdk {
        return Ok;
      }
      status := sdkEnd;
      sdk := NoSdk;
    }

    /**
     * `downloadFileAttachment`: null without an instance or when the SDK throws;
     * otherwise the blob in the SDK's result, if there is one.
     */
    method DownloadFileAttachment(result: Option<SdkValue>) returns (blob: Option<Blob>)
      ensures sdk == NoSdk ==> blob.None?
      ensures sdk != NoSdk && result.None? ==> blob.None?
      ensures sdk != NoSdk && result.Some? ==> blob == BlobOf(result.value)
    {
      if sdk == NoSdk {
        return None;
      }
      match result
      case None => blob := None;
      case Some(v) => blob := BlobOf(v);
    }

    /** `onNewMessage` and `onTyping` subscribe only when an instance exists. */
    method Subscribe() returns (subscribed: bool)
      ensures subscribed <==> sdk != NoSdk
    {
      subscribed := sdk != NoSdk;
    }
  }

  /**
   * A failed `initialize` is never retried: the half-built instance stays, and the next
   * `ensureSdk` hands it out as if it were ready.
   */
  method InitFailureIsNotRetried(c: ChatSdkClient, config: Config.OmnichannelConfig, liveChatConfig: Option<JsValue>)
    returns (first: Status, second: Status)
    requires c.sdk == NoSdk && config.isValid
    modifies c
    ensures first == Threw && second == Ok && c.sdk == Created
  {
    first := c.EnsureSdk(config, Threw, liveChatConfig);
    second := c.EnsureSdk(config, Ok, liveChatConfig);
  }

  /** With the failed instance dropped, the next call initialises a fresh one. */
  method InitFailureIsRetried(c: ChatSdkClient, config: Config.OmnichannelConfig, liveChatConfig: JsValue)
    returns (first: Status, second: Status)
    requires c.sdk == NoSdk && config.isValid
    modifies c
    ensures first == Threw && second == Ok && c.sdk == Initialised && c.chatConfig == liveChatConfig
  {
    first := c.EnsureSdkRetrying(config, Threw, Some(liveChatConfig));
    second := c.EnsureSdkRetrying(config, Ok, Some(liveChatConfig));
  }

  /** A blob from the SDK's result becomes exactly one follow-up message; none otherwise. */
  lemma HydrationOnlyWithBlob(msg: Message, result: SdkValue, blobUrl: string, now: int)
    requires msg.fileMetadata.Some?
    ensures var hydrated := Hydrate(msg, BlobOf(result), blobUrl, now).Some?;
            hydrated <==> result.BlobValue? || (result.Wrapped? && result.data.BlobValue?)
  {
  }

  // ---- emailTranscript ----

  /** The request body: the address, plus the attachment message when one is given. */
  function EmailBody(emailAddress: string, attachmentMessage: Option<string>): (body: JsValue)
    ensures body.Obj?
    ensures Get(body, "emailAddress") == Str(emailAddress)
    ensures Present(attachmentMessage) ==> Get(body, "attachmentMessage") == Str(attachmentMessage.value)
    ensures !Present(attachmentMessage) ==> (Get(body, "attachmentMessage") == Undefined && |body.props| == 1)
  {
    var address := [Prop("emailAddress", Str(emailAddress))];
    assert Lookup(address, "emailAddress") == Str(emailAddress);
    assert Lookup(address[..0], "attachmentMessage") == Undefined;
    if Present(attachmentMessage) then
      var props := address + [Prop("attachmentMessage", Str(attachmentMessage.value))];
      assert props[..1] == address;
      Obj(props)
    else Obj(address)
  }

  predicate Present(value: Option<string>) {
    value.Some? && value.value != []
  }
}
