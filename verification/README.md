# Chat sidebar and admin panel — a Dafny model

This project models the two stateful components of a small React front end.

**The chat sidebar** (`src/components/chat-sidebar.tsx`) holds three pieces of state:
- the message timeline, seeded with one assistant greeting;
- the text of the input box;
- the list of pending attachments.

Its handlers:
- send the input as a user message, guarded against blank input with nothing attached;
- deliver one canned assistant reply from a timer;
- send on Enter without Shift;
- attach a pasted image or a file picked in the file dialog;
- remove a pending attachment.

Image attachments hold a preview handle, which is a blob URL from `URL.createObjectURL`.

**The admin panel** (`src/components/admin-panel.tsx`) holds four boolean feature flags and an open/closed flag. It shows a three-line summary derived from the flags.

## Structure

- `options.dfy`: `Options`, the `Option` type. It stands for `undefined` and for a missing entry.
- `text.dfy`: `Text`, JavaScript's `trim` and the `"image/"` prefix test.
  - `TrimEmptyIffBlank` proves that the send guard's `!input.trim()` means "input is all whitespace".
- `attachments.dfy`: `Attachments`, the attachment records.
  - It also holds the two ways an attachment is built (picker and paste).
  - It models the sequence updaters `find` and `filter` on the pending list, and which handle a remove revokes.
  - Lemmas: filtering keeps order and distinct handles, and the revoked handle is held by no entry that remains.
- `chat_model.dfy`: `ChatModel`, the sidebar state as a value (`ChatState`) with one transition function per handler.
  - `Owned(state, live)` is the handle-ownership discipline:
    - every handle held by a pending entry or a sent message is live;
    - pending entries and sent messages never share a handle;
    - no two pending entries share a handle.
  - A lemma per transition shows how the discipline is kept:
    - a fresh handle is allocated only on an image add;
    - a handle is released only by a remove;
    - on send, handles are handed to the timeline and not released.
- `object_urls.dfy`: `ObjectUrls.UrlRegistry`, the browser's blob-URL table.
  - It has a live set, an issue counter, and a ghost log of revoke calls.
- `chat_sidebar.dfy`: `Sidebar.ChatSidebar`, the component as a class.
  - Its fields are `messages`, `input` and `attachedFiles`.
  - Its methods apply exactly the `ChatModel` transitions, stated as `State() == Transition(old(State()), …)`.
  - `handlePaste` keeps its scanning loop with an early `break`.
  - The object invariant `Valid()` includes ownership, and it also says that no handle is ever revoked twice.
- `admin_panel.dfy`: `Admin`, the flag record, `Toggle`, the summary labels, and the `AdminPanel` class.

Foreign effects are parameters:
- `now` is the `Date.now()` reading used as an id.
  - A number stands for its decimal string, because that rendering is injective.
  - The reply's id is `now + 1`.
- `stamp` is the `new Date()` reading used as a timestamp.
- `choice < 5` is the `Math.random` pick.
- The clipboard items are given as a sequence of `(type, getAsFile() result)` pairs.
- The picked files are given as an optional sequence.

The timer is modelled by `DeliverReply`. A ghost counter `scheduledReplies` records the replies that a send has scheduled but that have not yet been delivered.

The component has no limit on the number of attachments. It appends one canned reply per send and never cancels a scheduled reply.

Ids are `Date.now()` readings, so two attachments added in the same millisecond share an id. `removeAttachedFile` then drops every entry with that id but revokes only the first one's handle. The handles of the later matches stay live and are no longer referenced. `Attachments.CollisionLeaksLaterHandle` states this. The model keeps this behaviour as written.

## Model

| member | source | states |
|---|---|---|
| Text.TrimStart | src/components/chat-sidebar.tsx:41 | the result is the suffix of the input after a run of whitespace, and starts with a non-whitespace character if non-empty |
| Text.TrimEnd | src/components/chat-sidebar.tsx:41 | the result is the prefix of the input before a trailing run of whitespace, and ends with a non-whitespace character if non-empty |
| Text.Trim | src/components/chat-sidebar.tsx:41 | `trim()` yields a string no longer than the input that neither starts nor ends with whitespace, and is empty for an all-whitespace input |
| Text.LeadingBlanks | src/components/chat-sidebar.tsx:41 | the length of the input's leading whitespace run: everything before it is whitespace, the character at it is not |
| Text.TrimStartDropsLeading | src/components/chat-sidebar.tsx:41 | trimming the start removes exactly the leading whitespace run |
| Text.TrimIsSlice | src/components/chat-sidebar.tsx:41 | `trim()` (start, then end) yields the contiguous slice of the input that begins right after its leading whitespace run and is followed only by whitespace |
| Text.IsImageType | src/components/chat-sidebar.tsx:92 | a type is an image type iff its first six characters are `image/` |
| Text.TrimEmptyIffBlank | src/components/chat-sidebar.tsx:41 | `trim()` gives the empty string exactly when every character is whitespace |
| Attachments.PickedAttachment | src/components/chat-sidebar.tsx:120-126 | a picked file keeps its name, size and type, and has a preview handle iff its type starts with `image/` |
| Attachments.PastedAttachment | src/components/chat-sidebar.tsx:97-103 | a pasted file always has a preview handle; an empty name becomes `pasted-image.png`, a non-empty one is kept |
| Attachments.FirstMatch | src/components/chat-sidebar.tsx:136 | `find` locates the first entry with the id, or none exists |
| Attachments.Find | src/components/chat-sidebar.tsx:136 | `find` returns the entry at the first index with the id, and nothing iff no entry has it |
| Attachments.FilterOut | src/components/chat-sidebar.tsx:140 | `filter` keeps exactly the entries with another id, is the identity when the id is absent, and shrinks the list when it is present |
| Attachments.FilterOutAppend | src/components/chat-sidebar.tsx:140 | filtering distributes over concatenation, so the kept entries keep their order |
| Attachments.FilterOutIdempotent | src/components/chat-sidebar.tsx:134-142 | after a filter the id is gone: filtering again changes nothing and `find` finds nothing |
| Attachments.Released | src/components/chat-sidebar.tsx:136-139 | the revoked handle is exactly the url of the first entry with the id (none if that entry has no url); nothing is revoked for an absent id |
| Attachments.FilterOutDistinct | src/components/chat-sidebar.tsx:140 | filtering keeps preview handles pairwise distinct |
| Attachments.ReleasedNotRetained | src/components/chat-sidebar.tsx:136-140 | the revoked handle is held by no entry the remove keeps |
| Attachments.CollisionLeaksLaterHandle | src/components/chat-sidebar.tsx:134-142 | with duplicate ids, a later match's handle is neither revoked nor held by any remaining entry |
| ChatModel.Initial | src/components/chat-sidebar.tsx:29-38 | the initial timeline is the single assistant greeting with id 1; input and pending are empty |
| ChatModel.InitialOwned | src/components/chat-sidebar.tsx:29-38 | the initial state satisfies the ownership discipline with no live handles |
| ChatModel.ShouldSend | src/components/chat-sidebar.tsx:41 | a send is blocked for all-whitespace input with nothing pending, and always allowed when something is pending |
| ChatModel.ShouldSendIff | src/components/chat-sidebar.tsx:41 | a send proceeds iff the input has a non-whitespace character or the pending list is non-empty |
| ChatModel.UserMessage | src/components/chat-sidebar.tsx:43-49 | the user message carries the raw input, and the pending list exactly when that list is non-empty (absent otherwise) |
| ChatModel.Send | src/components/chat-sidebar.tsx:40-54 | a guarded send changes nothing; otherwise exactly one user message is appended after the unchanged earlier ones, and input and pending are cleared |
| ChatModel.SendTransfersHandles | src/components/chat-sidebar.tsx:48-53 | a send releases no handle: pending handles move into the timeline, and ownership still holds with the same live set |
| ChatModel.Reply | src/components/chat-sidebar.tsx:56-74 | the delayed reply appends one assistant message with one of the five canned texts and no attachments; earlier messages, input and pending are unchanged |
| ChatModel.ReplyKeepsHandles | src/components/chat-sidebar.tsx:67-73 | the reply holds no handle, so ownership and timeline handles are unchanged |
| ChatModel.ChosenFile | src/components/chat-sidebar.tsx:118 | `files?.[0]` is the first file when the list exists and is non-empty, otherwise nothing |
| ChatModel.AttachChosen | src/components/chat-sidebar.tsx:117-129 | a picked file adds one entry at the end, with the others unchanged; it has a handle iff its type is an image type; no file changes nothing |
| ChatModel.AttachChosenKeepsHandles | src/components/chat-sidebar.tsx:125-128 | a picker add keeps ownership, with the fresh handle added to the live set exactly when one was allocated |
| ChatModel.FirstImageIndex | src/components/chat-sidebar.tsx:88-92 | locates the first clipboard item whose type starts with `image/`, or shows that there is none |
| ChatModel.PastedFile | src/components/chat-sidebar.tsx:88-109 | a paste attaches exactly the file the first image item yields, and nothing when there is no image item or it yields no file |
| ChatModel.Paste | src/components/chat-sidebar.tsx:84-110 | a paste adds at most one entry, at the end, and it has a handle; without an image file nothing changes; messages and input never change |
| ChatModel.PasteKeepsHandles | src/components/chat-sidebar.tsx:102-105 | a paste keeps ownership, with the fresh handle live exactly when a file was attached |
| ChatModel.Remove | src/components/chat-sidebar.tsx:134-142 | the new pending list is `FilterOut` of the old one: a remove keeps exactly the entries with another id, leaves messages and input alone, and is a no-op for an absent id |
| ChatModel.RemoveTwice | src/components/chat-sidebar.tsx:134-142 | a second remove of the same id changes nothing and releases nothing |
| ChatModel.RemoveReleasesFirstMatch | src/components/chat-sidebar.tsx:136-140 | the released handle was live and is referenced by nothing afterwards; ownership holds with that handle dropped from the live set |
| ObjectUrls.UrlRegistry.CreateObjectUrl | src/components/chat-sidebar.tsx:102 | the handle returned was never live before and is live afterwards |
| ObjectUrls.UrlRegistry.RevokeObjectUrl | src/components/chat-sidebar.tsx:138 | the handle is no longer live, and the revoke is logged |
| Sidebar.ChatSidebar.constructor | src/components/chat-sidebar.tsx:28-38 | the component starts in the initial state, with no live handles and no reply scheduled |
| Sidebar.ChatSidebar.SetInput | src/components/chat-sidebar.tsx:228 | typing replaces the input and nothing else |
| Sidebar.ChatSidebar.HandleSendMessage | src/components/chat-sidebar.tsx:40-54 | the state becomes `Send` of the old state; one reply is scheduled iff the guard passes; no handle is revoked and every handle stays referenced |
| Sidebar.ChatSidebar.DeliverReply | src/components/chat-sidebar.tsx:56-74 | a scheduled reply becomes `Reply` of the old state and is consumed |
| Sidebar.ChatSidebar.HandleKeyPress | src/components/chat-sidebar.tsx:77-82 | Enter without Shift prevents the default and sends; any other key changes nothing |
| Sidebar.ChatSidebar.HandlePaste | src/components/chat-sidebar.tsx:84-110 | the scanning loop yields `Paste` of the old state, with a fresh handle exactly when a file was attached; the default is prevented iff an image item exists |
| Sidebar.ChatSidebar.AttachChosenFile | src/components/chat-sidebar.tsx:117-129 | the picker callback yields `AttachChosen` of the old state and allocates a handle only for an image |
| Sidebar.ChatSidebar.RemoveAttachedFile | src/components/chat-sidebar.tsx:134-142 | the state becomes `Remove` of the old state; exactly the first match's handle is revoked if it has one, otherwise nothing is revoked; no handle is ever revoked twice |
| Sidebar.RemoveSameIdTwice | src/components/chat-sidebar.tsx:134-142 | two removes of one id in a row release at most one handle |
| Admin.Toggle | src/components/admin-panel.tsx:31-36 | toggling negates exactly the named flag and leaves the other three unchanged |
| Admin.ToggleTwice | src/components/admin-panel.tsx:31-35 | toggling the same flag twice restores the record |
| Admin.TogglesCommute | src/components/admin-panel.tsx:31-35 | toggles of two flags give the same record in either order |
| Admin.ImplementationLabels | src/components/admin-panel.tsx:142-144 | Chat UI is New iff the new-chat-UI flag is on, else Legacy; Search is Advanced iff advanced search is on, else Basic; Debug is Enabled iff debug mode is on, else Disabled |
| Admin.LabelsIgnoreBetaFeatures | src/components/admin-panel.tsx:138-146 | toggling a flag leaves the summary unchanged iff the flag is the beta-features flag |
| Admin.AdminPanel.constructor | src/components/admin-panel.tsx:23-29 | the panel starts closed with new chat UI off, advanced search on, beta features off and debug off |
| Admin.AdminPanel.Open | src/components/admin-panel.tsx:42 | the settings button opens the panel and leaves the flags alone |
| Admin.AdminPanel.Close | src/components/admin-panel.tsx:55-76 | the backdrop and the close button both close the panel and leave the flags alone |
| Admin.AdminPanel.ToggleFeatureFlag | src/components/admin-panel.tsx:31-36 | the named flag is negated, the other flags and the open state are unchanged |

## Left out

- Rendering: JSX, styling, and the UI library components and icons are presentation only.
- `URL.createObjectURL` and `URL.revokeObjectURL` are foreign browser calls. `UrlRegistry` stands for them: a counter for fresh handles, a ghost live set, and a ghost log of revokes.
- DOM and OS input is not modelled:
  - creating the hidden `<input type="file">` and clicking it;
  - the `accept` filter;
  - the `ClipboardEvent`.
  - Their results enter as parameters, and `preventDefault` is the boolean that the handlers return.
- The one-second `setTimeout` delay is not modelled.
  - `DeliverReply` may run between any two handler calls while a reply is scheduled, so a reply may interleave with later handlers in any order.
  - Nothing cancels a scheduled reply, exactly as in the code.
- React's update semantics are not modelled:
  - batching of state updaters;
  - stale closures;
  - development-mode double invocation of updaters, under which the revoke inside the remove updater could run twice.
  - Each handler runs to completion on the current state.
- `Date.now()` and `new Date()` are modelled as natural numbers supplied by the caller, not as clock readings or strings.
- `Math.random` is modelled as a supplied index below five.
- `src/App.tsx` (layout only) and `src/data/prototypeScenarios.ts` (static data used by neither component) are not part of this model.
