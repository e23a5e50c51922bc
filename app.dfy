/**
 * The chat widget's session controller: the component state that the event handlers
 * update step by step. Each handler is one method. The outcome of every call into the
 * chat client (start, send, upload, end) is a parameter, and so are the fresh ids and
 * the clock.
 */
module App {
  import opened Wrappers
  import opened Text
  import opened Js
  import opened ChatSdk
  import opened Transcript
  import opened AppText

  /** The connection status the widget shows. */
  datatype ConnStatus = Idle | Connecting | Connected

  const SendFailed: string := "Message failed to send."
  const UploadFailed: string := "Failed to upload file. Please try again."

  const StartErrorPrefix: string := "Connection failed: "
  const StartErrorSuffix: string := ". Please verify your Organization ID, URL, and Widget ID are correct."
  const StartFallbackReason: string := "Could not start chat"

  /**
   * The error shown when starting fails: `err?.message || err?.toString()` is `reason`,
   * with a fixed text when that is empty.
   */
  function StartError(reason: string): (e: string)
    ensures |StartErrorPrefix| + |StartErrorSuffix| < |e|
    ensures e[..|StartErrorPrefix|] == StartErrorPrefix && e[|e| - |StartErrorSuffix|..] == StartErrorSuffix
    ensures reason != [] ==> e[|StartErrorPrefix|..|e| - |StartErrorSuffix|] == reason
    ensures reason == [] ==> e[|StartErrorPrefix|..|e| - |StartErrorSuffix|] == StartFallbackReason
  {
    var middle := if reason != [] then reason else StartFallbackReason;
    var e := StartErrorPrefix + middle + StartErrorSuffix;
    assert e[..|StartErrorPrefix|] == StartErrorPrefix;
    assert e[|StartErrorPrefix|..|e| - |StartErrorSuffix|] == middle;
    assert e[|e| - |StartErrorSuffix|..] == StartErrorSuffix;
    e
  }

  /** The user message appended before the client is asked to send it. */
  function UserMessage(id: string, text: JsValue, now: int): (m: Message)
    ensures m.id == Str(id) && m.from == User && m.text == text && m.timestamp == now
    ensures m.uploading.None? && m.fileMetadata.None? && m.agentType.None?
  {
    Message(Str(id), User, text, now, Undefined, None, None, None, None, None, Undefined)
  }

  /**
   * The message appended when an upload starts: the text still in the input, the
   * file's details with a preview URL for images only, and the uploading flag set.
   */
  function UploadMessage(id: string, text: string, f: FileInfo, previewUrl: string, now: int): (m: Message)
    ensures m.id == Str(id) && m.from == User && m.text == Str(text) && m.uploading == Some(true)
    ensures m.fileMetadata.Some? && m.fileMetadata.value.name == Str(f.name)
            && m.fileMetadata.value.fileType == Str(f.fileType) && m.fileMetadata.value.size == Num(f.size)
    ensures m.fileMetadata.value.url == (if StartsWith(f.fileType, "image/") then Str(previewUrl) else Undefined)
  {
    var url := if StartsWith(f.fileType, "image/") then Str(previewUrl) else Undefined;
    Message(Str(id), User, Str(text), now, Undefined, None, None, Some(true),
            Some(FileMeta(Str(f.name), Str(f.fileType), Num(f.size), url, Undefined)), None, Undefined)
  }

  /** A setter called only when there is a new value: the new one if any, else the old one. */
  function Updated<T>(newer: Option<T>, older: Option<T>): (r: Option<T>)
    ensures newer.Some? ==> r == newer
    ensures newer.None? ==> r == older
  {
    if newer.Some? then newer else older
  }

  /** A known wait is a whole number of minutes. */
  predicate WholeMinutes(w: Option<nat>) {
    w.Some? ==> w.value % 60 == 0
  }

  /** A tracked agent name passed the name filter and comes with a type. */
  predicate AgentTracked(name: Option<JsValue>, t: Option<AgentType>) {
    name.Some? ==> NameFilter(name.value) == Some(true) && t.Some?
  }

  /** `message.agentType || "bot"` */
  function AgentTypeOrBot(t: Option<AgentType>): (r: AgentType)
    ensures t.Some? ==> r == t.value
    ensures t.None? ==> r == Bot
  {
    if t.Some? then t.value else Bot
  }

  class ChatApp {
    var messages: seq<Message>
    var input: string
    var status: ConnStatus
    var typing: bool
    var error: string
    var autoConnecting: bool
    var isClosing: bool
    var endingChat: bool
    var showEndChatConfirm: bool
    var queuePosition: Option<nat>
    var avgWaitTime: Option<nat>
    var currentAgentName: Option<JsValue>
    var currentAgentType: Option<AgentType>
    var suggestions: seq<string>
    /** `isConfigValid`: computed once from the configuration. */
    const configValid: bool

    /**
     * What every handler preserves: the wait is a whole number of minutes, a tracked
     * agent name passed the filter and comes with a type, a closing widget never
     * auto-connects, and ending the chat marks the widget as closing.
     */
    predicate Valid()
      reads this
    {
      WholeMinutes(avgWaitTime) && AgentTracked(currentAgentName, currentAgentType)
      && (isClosing ==> !autoConnecting)
      && (endingChat ==> isClosing)
    }

    /** The state on mount. */
    constructor (configValid: bool)
      ensures Valid() && this.configValid == configValid
      ensures messages == [] && input == [] && status == Idle && !typing && error == []
      ensures autoConnecting && !isClosing && !endingChat && !showEndChatConfirm
      ensures queuePosition.None? && avgWaitTime.None?
      ensures currentAgentName.None? && currentAgentType.None? && suggestions == []
    {
      this.configValid := configValid;
      messages := [];
      input := [];
      status := Idle;
      typing := false;
      error := [];
      autoConnecting := true;
      isClosing := false;
      endingChat := false;
      showEndChatConfirm := false;
      queuePosition := None;
      avgWaitTime := None;
      currentAgentName := None;
      currentAgentType := None;
      suggestions := [];
    }

    /** The condition under which the mount effect schedules `start`. */
    predicate ShouldAutoConnect()
      reads this
    {
      configValid && status == Idle && autoConnecting && !isClosing
    }

    /** The input box changes. */
    method SetInput(text: string)
      requires Valid()
      modifies this
      ensures Valid() && input == text
      ensures messages == old(messages) && status == old(status) && typing == old(typing) && error == old(error)
      ensures autoConnecting == old(autoConnecting) && isClosing == old(isClosing) && endingChat == old(endingChat)
      ensures showEndChatConfirm == old(showEndChatConfirm) && suggestions == old(suggestions)
      ensures queuePosition == old(queuePosition) && avgWaitTime == old(avgWaitTime)
      ensures currentAgentName == old(currentAgentName) && currentAgentType == old(currentAgentType)
    {
      input := text;
    }

    /** The first half of `start`: the error is cleared and the widget is connecting. */
    method StartBegin()
      requires Valid()
      modifies this
      ensures Valid() && error == [] && status == Connecting
      ensures messages == old(messages) && input == old(input) && typing == old(typing)
      ensures autoConnecting == old(autoConnecting) && isClosing == old(isClosing) && endingChat == old(endingChat)
      ensures showEndChatConfirm == old(showEndChatConfirm) && suggestions == old(suggestions)
      ensures queuePosition == old(queuePosition) && avgWaitTime == old(avgWaitTime)
      ensures currentAgentName == old(currentAgentName) && currentAgentType == old(currentAgentType)
    {
      error := [];
      status := Connecting;
    }

    /**
     * The second half of `start`, once `startChat` settles: on success the transcript is
     * cleared and the widget is connected; on failure it is idle with the error shown and
     * auto-connect switched off.
     */
    method StartEnd(outcome: Status, reason: string)
      requires Valid()
      modifies this
      ensures Valid()
      ensures outcome == Ok ==> messages == [] && status == Connected && error == old(error)
                                && autoConnecting == old(autoConnecting)
      ensures outcome == Threw ==> messages == old(messages) && status == Idle && error == StartError(reason)
                                   && !autoConnecting
      ensures input == old(input) && typing == old(typing)
      ensures isClosing == old(isClosing) && endingChat == old(endingChat)
      ensures showEndChatConfirm == old(showEndChatConfirm) && suggestions == old(suggestions)
      ensures queuePosition == old(queuePosition) && avgWaitTime == old(avgWaitTime)
      ensures currentAgentName == old(currentAgentName) && currentAgentType == old(currentAgentType)
    {
      if outcome == Ok {
        messages := [];
        status := Connected;
      } else {
        error := StartError(reason);
        status := Idle;
        autoConnecting := false;
      }
    }

    /** `start`, its two halves run back to back. */
    method Start(outcome: Status, reason: string)
      requires Valid()
      modifies this
      ensures Valid()
      ensures outcome == Ok ==> messages == [] && status == Connected && error == []
                                && autoConnecting == old(autoConnecting)
      ensures outcome == Threw ==> messages == old(messages) && status == Idle && error == StartError(reason)
                                   && !autoConnecting
      ensures input == old(input) && typing == old(typing)
      ensures isClosing == old(isClosing) && endingChat == old(endingChat)
      ensures showEndChatConfirm == old(showEndChatConfirm) && suggestions == old(suggestions)
      ensures queuePosition == old(queuePosition) && avgWaitTime == old(avgWaitTime)
      ensures currentAgentName == old(currentAgentName) && currentAgentType == old(currentAgentType)
    {
      StartBegin();
      StartEnd(outcome, reason);
    }

    /** The auto-connect timer fires: `start` runs when the mount effect's condition held. */
    method AutoConnect(outcome: Status, reason: string) returns (started: bool)
      requires Valid()
      modifies this
      ensures Valid()
      ensures started == old(ShouldAutoConnect())
      ensures !started ==> messages == old(messages) && status == old(status) && error == old(error)
                           && autoConnecting == old(autoConnecting)
      ensures started && outcome == Ok ==> messages == [] && status == Connected && error == []
      ensures started && outcome == Threw ==> messages == old(messages) && status == Idle
                                              && error == StartError(reason) && !autoConnecting
      ensures input == old(input) && typing == old(typing)
      ensures isClosing == old(isClosing) && endingChat == old(endingChat)
      ensures showEndChatConfirm == old(showEndChatConfirm) && suggestions == old(suggestions)
      ensures queuePosition == old(queuePosition) && avgWaitTime == old(avgWaitTime)
      ensures currentAgentName == old(currentAgentName) && currentAgentType == old(currentAgentType)
    {
      started := ShouldAutoConnect();
      if started {
        Start(outcome, reason);
      }
    }

    /** The end-chat button asks for confirmation. */
    method RequestEndChat()
      requires Valid()
      modifies this
      ensures Valid() && showEndChatConfirm
      ensures messages == old(messages) && input == old(input) && status == old(status) && typing == old(typing)
      ensures error == old(error) && autoConnecting == old(autoConnecting) && isClosing == old(isClosing)
      ensures endingChat == old(endingChat) && suggestions == old(suggestions)
      ensures queuePosition == old(queuePosition) && avgWaitTime == old(avgWaitTime)
      ensures currentAgentName == old(currentAgentName) && currentAgentType == old(currentAgentType)
    {
      showEndChatConfirm := true;
    }

    /** The confirmation is dismissed. */
    method CancelEndChat()
      requires Valid()
      modifies this
      ensures Valid() && !showEndChatConfirm
      ensures messages == old(messages) && input == old(input) && status == old(status) && typing == old(typing)
      ensures error == old(error) && autoConnecting == old(autoConnecting) && isClosing == old(isClosing)
      ensures endingChat == old(endingChat) && suggestions == old(suggestions)
      ensures queuePosition == old(queuePosition) && avgWaitTime == old(avgWaitTime)
      ensures currentAgentName == old(currentAgentName) && currentAgentType == old(currentAgentType)
    {
      showEndChatConfirm := false;
    }

    /**
     * `confirmEndChat`: whether the client's `endChat` succeeds or throws, the session is
     * reset and the widget is closing; `endChat` is posted to the parent only when the
     * widget is framed.
     */
    method ConfirmEndChat(framed: bool, endOutcome: Status) returns (postedEndChat: bool)
      requires Valid()
      modifies this
      ensures Valid()
      ensures !showEndChatConfirm && endingChat && isClosing && !autoConnecting
      ensures !typing && status == Idle && messages == []
      ensures currentAgentName.None? && currentAgentType == Some(Bot)
      ensures queuePosition.None? && avgWaitTime.None? && suggestions == []
      ensures input == [] && error == []
      ensures postedEndChat == framed
    {
      showEndChatConfirm := false;
      endingChat := true;
      isClosing := true;
      autoConnecting := false;
      typing := false;
      status := Idle;
      // The client's endChat runs here; an exception from it is caught and logged.
      ClearSession();
      postedEndChat := framed;
    }

    /** The reset after `endChat`: transcript, agent, queue, suggestions, input and error. */
    method ClearSession()
      requires Valid()
      modifies this
      ensures Valid()
      ensures messages == [] && currentAgentName.None? && currentAgentType == Some(Bot)
      ensures queuePosition.None? && avgWaitTime.None? && suggestions == [] && input == [] && error == []
      ensures status == old(status) && typing == old(typing)
      ensures autoConnecting == old(autoConnecting) && isClosing == old(isClosing) && endingChat == old(endingChat)
      ensures showEndChatConfirm == old(showEndChatConfirm)
    {
      messages := [];
      currentAgentName := None;
      currentAgentType := Some(Bot);
      queuePosition := None;
      avgWaitTime := None;
      suggestions := [];
      input := [];
      error := [];
    }

    /** `stop`: the typing indicator goes and, whatever `endChat` does, the widget is idle. */
    method Stop(endOutcome: Status)
      requires Valid()
      modifies this
      ensures Valid() && !typing && status == Idle
      ensures messages == old(messages) && input == old(input) && error == old(error)
      ensures autoConnecting == old(autoConnecting) && isClosing == old(isClosing) && endingChat == old(endingChat)
      ensures showEndChatConfirm == old(showEndChatConfirm) && suggestions == old(suggestions)
      ensures queuePosition == old(queuePosition) && avgWaitTime == old(avgWaitTime)
      ensures currentAgentName == old(currentAgentName) && currentAgentType == old(currentAgentType)
    {
      typing := false;
      status := Idle;
    }

    /**
     * `send`: a trimmed-empty input changes nothing. Otherwise exactly one user message
     * with the trimmed text is appended and the input cleared; when sending fails the
     * message stays, the error is shown and the typing indicator goes.
     */
    method Send(outcome: Status, freshId: string, now: int) returns (sent: bool)
      requires Valid()
      modifies this
      ensures Valid()
      ensures sent <==> Trim(old(input)) != []
      ensures !sent ==> messages == old(messages) && input == old(input) && typing == old(typing)
                        && error == old(error)
      ensures sent ==> messages == old(messages) + [UserMessage(freshId, Str(Trim(old(input))), now)]
                       && input == []
      ensures sent && outcome == Ok ==> typing && error == old(error)
      ensures sent && outcome == Threw ==> !typing && error == SendFailed
      ensures status == old(status) && autoConnecting == old(autoConnecting) && isClosing == old(isClosing)
      ensures endingChat == old(endingChat) && showEndChatConfirm == old(showEndChatConfirm)
      ensures suggestions == old(suggestions)
      ensures queuePosition == old(queuePosition) && avgWaitTime == old(avgWaitTime)
      ensures currentAgentName == old(currentAgentName) && currentAgentType == old(currentAgentType)
    {
      var text := Trim(input);
      if text == [] {
        return false;
      }
      AppendUserMessage(UserMessage(freshId, Str(text), now));
      if outcome == Threw {
        error := SendFailed;
        typing := false;
      }
      sent := true;
    }

    /** The optimistic part of `send`: the message is appended, the input cleared, the indicator shown. */
    method AppendUserMessage(m: Message)
      requires Valid()
      modifies this
      ensures Valid()
      ensures messages == old(messages) + [m] && input == [] && typing
      ensures status == old(status) && error == old(error)
      ensures autoConnecting == old(autoConnecting) && isClosing == old(isClosing) && endingChat == old(endingChat)
      ensures showEndChatConfirm == old(showEndChatConfirm) && suggestions == old(suggestions)
      ensures queuePosition == old(queuePosition) && avgWaitTime == old(avgWaitTime)
      ensures currentAgentName == old(currentAgentName) && currentAgentType == old(currentAgentType)
    {
      messages := messages + [m];
      input := [];
      typing := true;
    }

    /** `onSubmit`: sends only while connected. */
    method OnSubmit(outcome: Status, freshId: string, now: int) returns (sent: bool)
      requires Valid()
      modifies this
      ensures Valid()
      ensures sent <==> old(status) == Connected && Trim(old(input)) != []
      ensures !sent ==> messages == old(messages) && input == old(input) && typing == old(typing)
                        && error == old(error)
      ensures sent ==> messages == old(messages) + [UserMessage(freshId, Str(Trim(old(input))), now)]
                       && input == []
      ensures sent && outcome == Ok ==> typing && error == old(error)
      ensures sent && outcome == Threw ==> !typing && error == SendFailed
      ensures status == old(status) && autoConnecting == old(autoConnecting) && isClosing == old(isClosing)
      ensures endingChat == old(endingChat) && showEndChatConfirm == old(showEndChatConfirm)
      ensures suggestions == old(suggestions)
      ensures queuePosition == old(queuePosition) && avgWaitTime == old(avgWaitTime)
      ensures currentAgentName == old(currentAgentName) && currentAgentType == old(currentAgentType)
    {
      if status == Connected {
        sent := Send(outcome, freshId, now);
      } else {
        sent := false;
      }
    }

    /**
     * A card submission: one user message with the summary of `data` is appended and the
     * typing indicator shown; when sending fails the error is shown and the indicator goes.
     */
    method SubmitAdaptiveCard(data: JsValue, actionTitle: Option<string>, outcome: Status, freshId: string, now: int)
      requires Valid()
      modifies this
      ensures Valid()
      ensures messages == old(messages) + [UserMessage(freshId, FormatAdaptiveSubmission(data, actionTitle), now)]
      ensures Truthy(messages[|messages| - 1].text)
      ensures outcome == Ok ==> typing && error == old(error)
      ensures outcome == Threw ==> !typing && error == SendFailed
      ensures input == old(input) && status == old(status) && autoConnecting == old(autoConnecting)
      ensures isClosing == old(isClosing) && endingChat == old(endingChat)
      ensures showEndChatConfirm == old(showEndChatConfirm) && suggestions == old(suggestions)
      ensures queuePosition == old(queuePosition) && avgWaitTime == old(avgWaitTime)
      ensures currentAgentName == old(currentAgentName) && currentAgentType == old(currentAgentType)
    {
      messages := messages + [UserMessage(freshId, FormatAdaptiveSubmission(data, actionTitle), now)];
      typing := true;
      if outcome == Threw {
        error := SendFailed;
        typing := false;
      }
    }

    /**
     * The start of `handleFileUpload`: the uploading message with the trimmed input as
     * its text is appended and the input cleared. The upload's own id is returned.
     */
    method BeginUpload(f: FileInfo, freshId: string, previewUrl: string, now: int) returns (id: JsValue)
      requires Valid()
      modifies this
      ensures Valid() && id == Str(freshId)
      ensures messages == old(messages) + [UploadMessage(freshId, Trim(old(input)), f, previewUrl, now)]
      ensures input == []
      ensures status == old(status) && typing == old(typing) && error == old(error)
      ensures autoConnecting == old(autoConnecting) && isClosing == old(isClosing) && endingChat == old(endingChat)
      ensures showEndChatConfirm == old(showEndChatConfirm) && suggestions == old(suggestions)
      ensures queuePosition == old(queuePosition) && avgWaitTime == old(avgWaitTime)
      ensures currentAgentName == old(currentAgentName) && currentAgentType == old(currentAgentType)
    {
      messages := messages + [UploadMessage(freshId, Trim(input), f, previewUrl, now)];
      input := [];
      id := Str(freshId);
    }

    /**
     * The end of `handleFileUpload`, once the upload settles: success clears the uploading
     * flag of the messages with the upload's id; failure shows the error and removes them.
     */
    method FinishUpload(id: JsValue, outcome: Status)
      requires Valid()
      modifies this
      ensures Valid()
      ensures outcome == Ok ==> messages == FlipUploaded(old(messages), id) && error == old(error)
      ensures outcome == Threw ==> messages == RemoveId(old(messages), id) && error == UploadFailed
      ensures input == old(input) && status == old(status) && typing == old(typing)
      ensures autoConnecting == old(autoConnecting) && isClosing == old(isClosing) && endingChat == old(endingChat)
      ensures showEndChatConfirm == old(showEndChatConfirm) && suggestions == old(suggestions)
      ensures queuePosition == old(queuePosition) && avgWaitTime == old(avgWaitTime)
      ensures currentAgentName == old(currentAgentName) && currentAgentType == old(currentAgentType)
    {
      if outcome == Ok {
        messages := FlipUploaded(messages, id);
      } else {
        error := UploadFailed;
        messages := RemoveId(messages, id);
      }
    }

    /**
     * A file picked with the camera or the file input: a rejected file only shows its
     * reason, an accepted one starts the upload. `fromCamera` selects the image checks.
     */
    method FileChosen(f: FileInfo, fromCamera: bool, freshId: string, previewUrl: string, now: int)
      returns (upload: Option<JsValue>)
      requires Valid()
      modifies this
      ensures Valid()
      ensures var v := if fromCamera then CheckImage(f) else CheckDocument(f);
              (v.Rejected? ==> upload.None? && messages == old(messages) && input == old(input)
                               && error == v.reason)
              && (v.Accepted? ==> upload == Some(Str(freshId)) && error == old(error) && input == []
                                  && messages == old(messages) + [UploadMessage(freshId, Trim(old(input)), f, previewUrl, now)])
      ensures status == old(status) && typing == old(typing)
      ensures autoConnecting == old(autoConnecting) && isClosing == old(isClosing) && endingChat == old(endingChat)
      ensures showEndChatConfirm == old(showEndChatConfirm) && suggestions == old(suggestions)
      ensures queuePosition == old(queuePosition) && avgWaitTime == old(avgWaitTime)
      ensures currentAgentName == old(currentAgentName) && currentAgentType == old(currentAgentType)
    {
      var v := if fromCamera then CheckImage(f) else CheckDocument(f);
      if v.Rejected? {
        error := v.reason;
        return None;
      }
      var id := BeginUpload(f, freshId, previewUrl, now);
      upload := Some(id);
    }

    /**
     * The new-message handler. The queue fields take whatever the lower-cased text
     * matches; the message is upserted by id and the typing indicator goes. For an
     * agent's message the agent name and type are tracked when the name passes the
     * filter, and the queue fields are reset. `threw` is set where the source throws:
     * a text without `toLowerCase` (nothing changes), or an agent name without
     * `includes` (after the upsert, so the agent fields and the reset are skipped).
     */
    method HandleMessage(m: Message) returns (threw: bool)
      requires Valid()
      modifies this
      ensures Valid()
      ensures LoweredText(m.text).None? ==>
                threw && messages == old(messages) && typing == old(typing)
                && queuePosition == old(queuePosition) && avgWaitTime == old(avgWaitTime)
                && currentAgentName == old(currentAgentName) && currentAgentType == old(currentAgentType)
      ensures LoweredText(m.text).Some? ==>
                var u := QueueUpdateOf(LoweredText(m.text).value);
                && messages == Upserted(old(messages), m) && !typing
                && (threw <==> m.from == Agent && NameFilter(m.agentName).None?)
                && (m.from == User || threw ==>
                      queuePosition == Updated(u.position, old(queuePosition))
                      && avgWaitTime == Updated(u.waitSeconds, old(avgWaitTime)))
                && (m.from == Agent && !threw ==> queuePosition.None? && avgWaitTime.None?)
                && (m.from == Agent && NameFilter(m.agentName) == Some(true) ==>
                      currentAgentName == Some(m.agentName) && currentAgentType == Some(AgentTypeOrBot(m.agentType)))
                && (!(m.from == Agent && NameFilter(m.agentName) == Some(true)) ==>
                      currentAgentName == old(currentAgentName) && currentAgentType == old(currentAgentType))
      ensures input == old(input) && status == old(status) && error == old(error)
      ensures autoConnecting == old(autoConnecting) && isClosing == old(isClosing) && endingChat == old(endingChat)
      ensures showEndChatConfirm == old(showEndChatConfirm) && suggestions == old(suggestions)
    {
      var lowered := LoweredText(m.text);
      if lowered.None? {
        return true;
      }
      var u := QueueUpdateOf(lowered.value);
      WaitIsWholeMinutes(lowered.value);
      ApplyQueueUpdate(u);
      Upsert(m);
      typing := false;
      threw := false;
      if m.from == Agent {
        threw := TrackAgent(m);
      }
    }

    /** The queue fields take the position and the wait the text mentions, and keep theirs otherwise. */
    method ApplyQueueUpdate(u: QueueUpdate)
      requires Valid() && WholeMinutes(u.waitSeconds)
      modifies this
      ensures Valid()
      ensures queuePosition == Updated(u.position, old(queuePosition))
      ensures avgWaitTime == Updated(u.waitSeconds, old(avgWaitTime))
      ensures messages == old(messages) && input == old(input) && status == old(status)
      ensures typing == old(typing) && error == old(error)
      ensures autoConnecting == old(autoConnecting) && isClosing == old(isClosing) && endingChat == old(endingChat)
      ensures showEndChatConfirm == old(showEndChatConfirm) && suggestions == old(suggestions)
      ensures currentAgentName == old(currentAgentName) && currentAgentType == old(currentAgentType)
    {
      queuePosition := Updated(u.position, queuePosition);
      avgWaitTime := Updated(u.waitSeconds, avgWaitTime);
    }

    /**
     * An agent's message: the name filter throws on a value without `includes`; a name it
     * accepts becomes the current agent; either way, when it does not throw, the queue
     * fields are cleared.
     */
    method TrackAgent(m: Message) returns (threw: bool)
      requires Valid()
      modifies this
      ensures Valid()
      ensures threw <==> NameFilter(m.agentName).None?
      ensures threw ==> queuePosition == old(queuePosition) && avgWaitTime == old(avgWaitTime)
      ensures !threw ==> queuePosition.None? && avgWaitTime.None?
      ensures NameFilter(m.agentName) == Some(true) ==>
                currentAgentName == Some(m.agentName) && currentAgentType == Some(AgentTypeOrBot(m.agentType))
      ensures NameFilter(m.agentName) != Some(true) ==>
                currentAgentName == old(currentAgentName) && currentAgentType == old(currentAgentType)
      ensures messages == old(messages) && input == old(input) && status == old(status)
      ensures typing == old(typing) && error == old(error)
      ensures autoConnecting == old(autoConnecting) && isClosing == old(isClosing) && endingChat == old(endingChat)
      ensures showEndChatConfirm == old(showEndChatConfirm) && suggestions == old(suggestions)
    {
      var ok := NameFilter(m.agentName);
      if ok.None? {
        return true;
      }
      if ok.value {
        currentAgentName := Some(m.agentName);
        currentAgentType := Some(AgentTypeOrBot(m.agentType));
      }
      queuePosition := None;
      avgWaitTime := None;
      threw := false;
    }

    /** `setMessages` with the upsert: `findIndex`, then an overwrite of a copy or an append. */
    method Upsert(m: Message)
      modifies this
      ensures messages == Upserted(old(messages), m)
      ensures input == old(input) && status == old(status) && typing == old(typing) && error == old(error)
      ensures autoConnecting == old(autoConnecting) && isClosing == old(isClosing) && endingChat == old(endingChat)
      ensures showEndChatConfirm == old(showEndChatConfirm) && suggestions == old(suggestions)
      ensures queuePosition == old(queuePosition) && avgWaitTime == old(avgWaitTime)
      ensures currentAgentName == old(currentAgentName) && currentAgentType == old(currentAgentType)
    {
      var index := FindIndex(messages, m.id);
      if index != -1 {
        messages := messages[index := m];
      } else {
        messages := messages + [m];
      }
    }

    /** The typing handler: the indicator shows exactly when `payload?.typingIndicator?.state` is "typing". */
    method OnTyping(payload: JsValue)
      requires Valid()
      modifies this
      ensures Valid()
      ensures typing <==> Get(Get(payload, "typingIndicator"), "state") == Str("typing")
      ensures messages == old(messages) && input == old(input) && status == old(status) && error == old(error)
      ensures autoConnecting == old(autoConnecting) && isClosing == old(isClosing) && endingChat == old(endingChat)
      ensures showEndChatConfirm == old(showEndChatConfirm) && suggestions == old(suggestions)
      ensures queuePosition == old(queuePosition) && avgWaitTime == old(avgWaitTime)
      ensures currentAgentName == old(currentAgentName) && currentAgentType == old(currentAgentType)
    {
      typing := Get(Get(payload, "typingIndicator"), "state") == Str("typing");
    }
  }

  /**
   * An upload whose id no earlier message has: when it succeeds, its own message, and no
   * other, loses the uploading flag.
   */
  method UploadSucceeds(app: ChatApp, f: FileInfo, freshId: string, previewUrl: string, now: int)
    requires app.Valid() && IndexOfId(app.messages, Str(freshId)).None?
    modifies app
    ensures app.Valid()
    ensures app.messages == old(app.messages)
                            + [UploadMessage(freshId, Trim(old(app.input)), f, previewUrl, now).(uploading := Some(false))]
  {
    var before := app.messages;
    var m := UploadMessage(freshId, Trim(app.input), f, previewUrl, now);
    var id := app.BeginUpload(f, freshId, previewUrl, now);
    FlipOwnId(before, m, []);
    assert before + [m] + [] == before + [m];
    assert before + [m.(uploading := Some(false))] + [] == before + [m.(uploading := Some(false))];
    app.FinishUpload(id, Ok);
  }

  /** ... and when it fails, exactly its own message is removed and the error is shown. */
  method UploadFails(app: ChatApp, f: FileInfo, freshId: string, previewUrl: string, now: int)
    requires app.Valid() && IndexOfId(app.messages, Str(freshId)).None?
    modifies app
    ensures app.Valid()
    ensures app.messages == old(app.messages) && app.error == UploadFailed
  {
    var before := app.messages;
    var m := UploadMessage(freshId, Trim(app.input), f, previewUrl, now);
    var id := app.BeginUpload(f, freshId, previewUrl, now);
    RemoveOwnId(before, m, []);
    assert before + [m] + [] == before + [m];
    assert before + [] == before;
    app.FinishUpload(id, Threw);
  }

  /** A message with a new id, readable as text, is appended. */
  method ReceiveOne(app: ChatApp, r: Message)
    requires app.Valid() && LoweredText(r.text).Some? && IndexOfId(app.messages, r.id).None?
    modifies app
    ensures app.Valid()
    ensures app.messages == old(app.messages) + [r]
  {
    var threw := app.HandleMessage(r);
  }

  /** Messages whose ids are new, each readable as text, are appended in the order they arrive. */
  method ReceiveFresh(app: ChatApp, replies: seq<Message>)
    requires app.Valid()
    requires forall j :: 0 <= j < |replies| ==> LoweredText(replies[j].text).Some?
    requires forall j :: 0 <= j < |replies| ==> IndexOfId(app.messages + replies[..j], replies[j].id).None?
    modifies app
    ensures app.Valid()
    ensures app.messages == old(app.messages) + replies
  {
    var start := app.messages;
    var k := 0;
    while k < |replies|
      invariant 0 <= k <= |replies|
      invariant app.Valid()
      invariant app.messages == start + replies[..k]
    {
      var r := replies[k];
      ReceiveOne(app, r);
      assert replies[..k + 1] == replies[..k] + [r];
      k := k + 1;
    }
    assert replies[..k] == replies;
  }

  /**
   * Messages from the agent arriving while an upload is in flight do not disturb it:
   * when it succeeds afterwards, its own message alone loses the uploading flag.
   */
  method UploadSucceedsAcrossReplies(app: ChatApp, f: FileInfo, freshId: string, previewUrl: string, now: int,
                                     replies: seq<Message>)
    requires app.Valid() && IndexOfId(app.messages, Str(freshId)).None?
    requires forall j :: 0 <= j < |replies| ==> replies[j].id != Str(freshId)
    requires forall j :: 0 <= j < |replies| ==> LoweredText(replies[j].text).Some?
    requires forall j :: 0 <= j < |replies| ==>
               IndexOfId(app.messages, replies[j].id).None? && IndexOfId(replies[..j], replies[j].id).None?
    modifies app
    ensures app.Valid()
    ensures app.messages == old(app.messages)
                            + [UploadMessage(freshId, Trim(old(app.input)), f, previewUrl, now).(uploading := Some(false))]
                            + replies
  {
    var before := app.messages;
    var m := UploadMessage(freshId, Trim(app.input), f, previewUrl, now);
    var id := app.BeginUpload(f, freshId, previewUrl, now);
    forall j | 0 <= j < |replies| ensures IndexOfId(app.messages + replies[..j], replies[j].id).None? {
      NoMatchInPrefix(before, m, replies, j);
    }
    ReceiveFresh(app, replies);
    FlipOwnId(before, m, replies);
    app.FinishUpload(id, Ok);
  }

  /** A reply with an id seen neither before, nor in the upload, nor in earlier replies is appended. */
  lemma NoMatchInPrefix(before: seq<Message>, m: Message, replies: seq<Message>, k: nat)
    requires k < |replies|
    requires replies[k].id != m.id && IndexOfId(before, replies[k].id).None?
    requires IndexOfId(replies[..k], replies[k].id).None?
    ensures IndexOfId(before + [m] + replies[..k], replies[k].id).None?
  {
    var xs := before + [m] + replies[..k];
    forall j | 0 <= j < |xs| ensures xs[j].id != replies[k].id {
      if j < |before| {
        assert xs[j] == before[j];
      } else if j > |before| {
        assert xs[j] == replies[..k][j - |before| - 1];
      }
    }
  }

  /** Where `handleMessage` throws: text that cannot be lowered, or an agent name the filter cannot read. */
  predicate HandlerThrows(m: Message) {
    LoweredText(m.text).None? || (m.from == Agent && NameFilter(m.agentName).None?)
  }

  /**
   * The client's payload callback around the widget's handler: an emitted message is
   * handed to `handleMessage`, and the requested download starts only if that call
   * returns, since a throw is caught by the callback's own `try`.
   */
  method Deliver(app: ChatApp, o: Outcome) returns (fetch: Option<JsValue>)
    requires app.Valid()
    modifies app
    ensures app.Valid()
    ensures fetch.Some? <==> o.Emitted? && o.fetch.Some? && !HandlerThrows(o.msg)
    ensures fetch.Some? ==> fetch == o.fetch
    ensures !o.Emitted? ==> unchanged(app)
    ensures o.Emitted? && LoweredText(o.msg.text).Some? ==> app.messages == Upserted(old(app.messages), o.msg)
    ensures o.Emitted? && LoweredText(o.msg.text).None? ==> app.messages == old(app.messages)
  {
    fetch := None;
    if o.Emitted? {
      var threw := app.HandleMessage(o.msg);
      if !threw {
        fetch := o.fetch;
      }
    }
  }

  /**
   * An agent message whose file still has to be fetched, but whose agent name the
   * filter cannot read, is added flagged as downloading; the handler then throws,
   * so no download starts and no follow-up message ever clears the flag.
   */
  method ThrowingHandlerLeavesDownloading(app: ChatApp, o: Outcome) returns (fetch: Option<JsValue>)
    requires app.Valid() && o.Emitted? && o.fetch.Some? && o.msg.downloading == Some(true)
    requires o.msg.from == Agent && LoweredText(o.msg.text).Some? && NameFilter(o.msg.agentName).None?
    requires IndexOfId(app.messages, o.msg.id).None?
    modifies app
    ensures fetch.None?
    ensures app.messages == old(app.messages) + [o.msg]
    ensures app.messages[|app.messages| - 1].downloading == Some(true)
  {
    fetch := Deliver(app, o);
  }

  /**
   * No guard keeps a late message out after the chat ended: a hydrated attachment
   * arriving after `confirmEndChat` lands in the emptied transcript as its only message.
   */
  method LateHydrationAfterEnd(app: ChatApp, framed: bool, endOutcome: Status, m: Message)
    requires app.Valid() && m.from == Agent && LoweredText(m.text).Some? && NameFilter(m.agentName).Some?
    modifies app
    ensures app.Valid()
    ensures app.messages == [m] && app.status == Idle && app.isClosing
  {
    var posted := app.ConfirmEndChat(framed, endOutcome);
    var threw := app.HandleMessage(m);
  }
}
