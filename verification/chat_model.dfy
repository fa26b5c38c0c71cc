/**
 * The chat sidebar's state as a value, and the transition each handler
 * performs on it. The `ChatSidebar` class applies exactly these transitions
 * to its fields; the lemmas here state what the transitions promise, in
 * particular the ownership discipline of preview handles: allocated when an
 * image is attached, released only by a remove, handed over (not released)
 * to the timeline on send.
 */
module ChatModel {
  import opened Options
  import opened Text
  import opened Attachments

  datatype Role = User | Assistant

  /** One timeline entry. `id` is the `Date.now()`-based number (its decimal
      rendering is injective, so the number stands for the id string);
      `attachments` is `None` where the source leaves it `undefined`. */
  datatype Message = Message(id: nat, content: string, role: Role, timestamp: nat,
                             attachments: Option<seq<AttachedFile>>)

  /** One entry of `clipboardData.items`: its `type`, and what `getAsFile()`
      returns for it. */
  datatype ClipboardItem = ClipboardItem(kind: string, file: Option<File>)

  /** The component's three pieces of state. */
  datatype ChatState = ChatState(messages: seq<Message>, input: string, pending: seq<AttachedFile>)

  const GreetingId: nat := 1
  const Greeting: string := "Hello! I'm your AI assistant. How can I help you today?"

  /** The canned assistant replies, one of which is picked per send. */
  const Responses: seq<string> := [
    "I understand your message. How can I help you further?",
    "That's an interesting question! Let me think about that...",
    "I'm here to assist you with your development needs.",
    "Thanks for your message! What would you like to work on?",
    "I can help you with coding, debugging, or planning your project."
  ]

  /** The state on mount: a single assistant greeting, empty input, nothing
      pending. `now` is the clock reading of `new Date()`. */
  function Initial(now: nat): (st: ChatState)
    ensures |st.messages| == 1
    ensures st.messages[0].role == Assistant && st.messages[0].content == Greeting
    ensures st.messages[0].id == GreetingId && st.messages[0].attachments.None?
    ensures st.input == "" && st.pending == []
  {
    ChatState([Message(GreetingId, Greeting, Assistant, now, None)], "", [])
  }

  // ----- send ---------------------------------------------------------------

  /** The negation of the early-return guard of `handleSendMessage`, and the
      enabled state of the send button. */
  predicate ShouldSend(input: string, pending: seq<AttachedFile>)
    ensures |pending| > 0 ==> ShouldSend(input, pending)
    ensures IsBlank(input) && pending == [] ==> !ShouldSend(input, pending)
  {
    Trim(input) != "" || |pending| > 0
  }

  /** A send goes ahead exactly when the input has a non-whitespace
      character or something is pending. */
  lemma ShouldSendIff(input: string, pending: seq<AttachedFile>)
    ensures ShouldSend(input, pending) <==> !IsBlank(input) || pending != []
    ensures !ShouldSend(input, pending) <==> (forall i :: 0 <= i < |input| ==> IsJsWhitespace(input[i])) && pending == []
  {
    TrimEmptyIffBlank(input);
  }

  /** The user message appended by a send: the raw (untrimmed) input, and a
      copy of the pending list only when it is non-empty. */
  function UserMessage(now: nat, stamp: nat, input: string, pending: seq<AttachedFile>): (m: Message)
    ensures m.role == User && m.content == input && m.id == now && m.timestamp == stamp
    ensures m.attachments.None? <==> pending == []
    ensures m.attachments.Some? ==> m.attachments.value == pending
  {
    Message(now, input, User, stamp, if |pending| > 0 then Some(pending) else None)
  }

  /** `handleSendMessage` (without its timer): guarded, it appends the user
      message and clears the input and the pending list. */
  function Send(st: ChatState, now: nat, stamp: nat): (r: ChatState)
    ensures !ShouldSend(st.input, st.pending) ==> r == st
    ensures ShouldSend(st.input, st.pending) ==>
      |r.messages| == |st.messages| + 1 && r.messages[..|st.messages|] == st.messages &&
      r.messages[|st.messages|] == UserMessage(now, stamp, st.input, st.pending)
    ensures ShouldSend(st.input, st.pending) ==> r.input == "" && r.pending == []
  {
    if !ShouldSend(st.input, st.pending) then st
    else ChatState(st.messages + [UserMessage(now, stamp, st.input, st.pending)], "", [])
  }

  // ----- delayed reply --------------------------------------------------------

  /** The timer callback of `handleSendMessage`: one assistant message whose
      content is canned reply `choice` (the `Math.random` pick), with id one
      past the clock reading `now`. */
  function Reply(st: ChatState, now: nat, stamp: nat, choice: nat): (r: ChatState)
    requires choice < |Responses|
    ensures r.input == st.input && r.pending == st.pending
    ensures |r.messages| == |st.messages| + 1 && r.messages[..|st.messages|] == st.messages
    ensures r.messages[|st.messages|].role == Assistant
    ensures r.messages[|st.messages|].content in Responses
    ensures r.messages[|st.messages|].content == Responses[choice]
    ensures r.messages[|st.messages|].id == now + 1 && r.messages[|st.messages|].timestamp == stamp
    ensures r.messages[|st.messages|].attachments.None?
  {
    st.(messages := st.messages + [Message(now + 1, Responses[choice], Assistant, stamp, None)])
  }

  // ----- attach from the file picker ------------------------------------------

  /** `files?.[0]`: the first chosen file, if the list exists and is non-empty. */
  function ChosenFile(files: Option<seq<File>>): (f: Option<File>)
    ensures f.Some? <==> files.Some? && |files.value| > 0
    ensures f.Some? ==> f.value == files.value[0]
  {
    if files.Some? && |files.value| > 0 then Some(files.value[0]) else None
  }

  /** Whether the file-picker path allocates a preview handle. */
  predicate PickAllocates(files: Option<seq<File>>) {
    ChosenFile(files).Some? && IsImageType(ChosenFile(files).value.mimeType)
  }

  /** The `onchange` body of `handleAttachFile`. `h` is the handle
      `URL.createObjectURL` would return; it is used only for an image. */
  function AttachChosen(st: ChatState, files: Option<seq<File>>, now: nat, h: Handle): (r: ChatState)
    ensures ChosenFile(files).None? ==> r == st
    ensures r.messages == st.messages && r.input == st.input
    ensures ChosenFile(files).Some? ==>
      |r.pending| == |st.pending| + 1 && r.pending[..|st.pending|] == st.pending &&
      r.pending[|st.pending|] == PickedAttachment(ChosenFile(files).value, now, h)
    ensures ChosenFile(files).Some? ==> (r.pending[|st.pending|].url.Some? <==> PickAllocates(files))
  {
    match ChosenFile(files)
    case None => st
    case Some(f) => st.(pending := st.pending + [PickedAttachment(f, now, h)])
  }

  // ----- attach from paste ----------------------------------------------------

  /** Index of the first clipboard item whose type starts with "image/". */
  function FirstImageIndex(items: seq<ClipboardItem>): (r: Option<nat>)
    ensures r.None? <==> forall j :: 0 <= j < |items| ==> !IsImageType(items[j].kind)
    ensures r.Some? ==> r.value < |items| && IsImageType(items[r.value].kind)
    ensures r.Some? ==> forall j :: 0 <= j < r.value ==> !IsImageType(items[j].kind)
  {
    if items == [] then None
    else if IsImageType(items[0].kind) then Some(0)
    else match FirstImageIndex(items[1..])
      case None => None
      case Some(k) => Some(k + 1)
  }

  /** The file a paste attaches: that of the FIRST image item, if that item
      yields one; later image items are never looked at. */
  function PastedFile(clipboard: Option<seq<ClipboardItem>>): (f: Option<File>)
    ensures f.Some? ==> clipboard.Some? && FirstImageIndex(clipboard.value).Some?
    ensures f.Some? ==> clipboard.value[FirstImageIndex(clipboard.value).value].file == f
    ensures clipboard.Some? && FirstImageIndex(clipboard.value).Some? ==>
      f == clipboard.value[FirstImageIndex(clipboard.value).value].file
  {
    if clipboard.None? then None
    else match FirstImageIndex(clipboard.value)
      case None => None
      case Some(k) => clipboard.value[k].file
  }

  /** What `handlePaste` does to the state. `h` is the handle
      `URL.createObjectURL` would return; a pasted image always gets one. */
  function Paste(st: ChatState, clipboard: Option<seq<ClipboardItem>>, now: nat, h: Handle): (r: ChatState)
    ensures PastedFile(clipboard).None? ==> r == st
    ensures r.messages == st.messages && r.input == st.input
    ensures |st.pending| <= |r.pending| <= |st.pending| + 1 && r.pending[..|st.pending|] == st.pending
    ensures PastedFile(clipboard).Some? ==>
      |r.pending| == |st.pending| + 1 &&
      r.pending[|st.pending|] == PastedAttachment(PastedFile(clipboard).value, now, h)
  {
    match PastedFile(clipboard)
    case None => st
    case Some(f) => st.(pending := st.pending + [PastedAttachment(f, now, h)])
  }

  // ----- remove ---------------------------------------------------------------

  /** `removeAttachedFile(id)`'s effect on the state (the revoke is a side
      effect, given by `Released`). */
  function Remove(st: ChatState, id: nat): (r: ChatState)
    ensures r.messages == st.messages && r.input == st.input
    ensures r.pending == FilterOut(st.pending, id)
    ensures forall a :: a in r.pending <==> a in st.pending && a.id != id
    ensures Find(st.pending, id).None? ==> r == st
  {
    st.(pending := FilterOut(st.pending, id))
  }

  /** Removing twice with the same id: the second is a no-op that releases
      nothing. */
  lemma RemoveTwice(st: ChatState, id: nat)
    ensures Remove(Remove(st, id), id) == Remove(st, id)
    ensures Released(Remove(st, id).pending, id).None?
  {
    FilterOutIdempotent(st.pending, id);
  }

  // ----- ownership of preview handles ---------------------------------------

  function AttachmentHandles(m: Message): set<Handle> {
    if m.attachments.Some? then Handles(m.attachments.value) else {}
  }

  /** Handles held by sent messages. */
  function TimelineHandles(msgs: seq<Message>): set<Handle> {
    set m, h | m in msgs && h in AttachmentHandles(m) :: h
  }

  lemma TimelineHandlesAppend(msgs: seq<Message>, m: Message)
    ensures TimelineHandles(msgs + [m]) == TimelineHandles(msgs) + AttachmentHandles(m)
  {
    assert forall x :: x in msgs + [m] <==> x in msgs || x == m;
  }

  /** Every referenced handle is live; pending entries and sent messages
      never share one; no two pending entries share one. */
  predicate Owned(st: ChatState, live: set<Handle>) {
    Handles(st.pending) <= live && TimelineHandles(st.messages) <= live &&
    Handles(st.pending) !! TimelineHandles(st.messages) &&
    DistinctHandles(st.pending)
  }

  lemma InitialOwned(now: nat)
    ensures Owned(Initial(now), {})
  {
    assert Initial(now).messages == [Message(GreetingId, Greeting, Assistant, now, None)];
  }

  /** A send releases nothing: the pending handles move into the timeline
      and stay live. */
  lemma SendTransfersHandles(st: ChatState, now: nat, stamp: nat, live: set<Handle>)
    requires Owned(st, live)
    ensures Owned(Send(st, now, stamp), live)
    ensures TimelineHandles(Send(st, now, stamp).messages) + Handles(Send(st, now, stamp).pending)
         == TimelineHandles(st.messages) + Handles(st.pending)
    ensures ShouldSend(st.input, st.pending) ==>
      TimelineHandles(Send(st, now, stamp).messages) == TimelineHandles(st.messages) + Handles(st.pending)
  {
    if ShouldSend(st.input, st.pending) {
      var m := UserMessage(now, stamp, st.input, st.pending);
      TimelineHandlesAppend(st.messages, m);
      assert Send(st, now, stamp).messages == st.messages + [m];
      assert Handles([]) == {};
    }
  }

  /** The reply carries no attachments, so handle ownership is untouched. */
  lemma ReplyKeepsHandles(st: ChatState, now: nat, stamp: nat, choice: nat, live: set<Handle>)
    requires choice < |Responses|
    requires Owned(st, live)
    ensures Owned(Reply(st, now, stamp, choice), live)
    ensures TimelineHandles(Reply(st, now, stamp, choice).messages) == TimelineHandles(st.messages)
  {
    TimelineHandlesAppend(st.messages, Message(now + 1, Responses[choice], Assistant, stamp, None));
  }

  /** A file-picker add stays owned once its fresh handle (if it takes one)
      is live. */
  lemma AttachChosenKeepsHandles(st: ChatState, files: Option<seq<File>>, now: nat, h: Handle, live: set<Handle>)
    requires Owned(st, live) && h !in live
    ensures Owned(AttachChosen(st, files, now, h), if PickAllocates(files) then live + {h} else live)
    ensures Handles(AttachChosen(st, files, now, h).pending)
         == Handles(st.pending) + (if PickAllocates(files) then {h} else {})
  {
    if ChosenFile(files).Some? {
      AppendHandles(st.pending, PickedAttachment(ChosenFile(files).value, now, h));
    }
  }

  /** A paste stays owned once its fresh handle is live. */
  lemma PasteKeepsHandles(st: ChatState, clipboard: Option<seq<ClipboardItem>>, now: nat, h: Handle, live: set<Handle>)
    requires Owned(st, live) && h !in live
    ensures Owned(Paste(st, clipboard, now, h), if PastedFile(clipboard).Some? then live + {h} else live)
    ensures Handles(Paste(st, clipboard, now, h).pending)
         == Handles(st.pending) + (if PastedFile(clipboard).Some? then {h} else {})
  {
    if PastedFile(clipboard).Some? {
      AppendHandles(st.pending, PastedAttachment(PastedFile(clipboard).value, now, h));
    }
  }

  /** A remove releases at most the first match's handle, which is live and
      referenced by nothing that remains; ownership holds after it. */
  lemma RemoveReleasesFirstMatch(st: ChatState, id: nat, live: set<Handle>)
    requires Owned(st, live)
    ensures Released(st.pending, id).Some? ==> Released(st.pending, id).value in live
    ensures Released(st.pending, id).Some? ==>
      Released(st.pending, id).value !in Handles(Remove(st, id).pending) + TimelineHandles(st.messages)
    ensures Owned(Remove(st, id), if Released(st.pending, id).Some? then live - {Released(st.pending, id).value} else live)
  {
    FilterOutDistinct(st.pending, id);
    if Released(st.pending, id).Some? {
      ReleasedNotRetained(st.pending, id);
    }
  }
}
