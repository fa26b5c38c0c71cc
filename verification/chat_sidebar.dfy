/**
 * The `ChatSidebar` component: its three state fields and its handlers.
 * Foreign effects are parameters: `now` is the `Date.now()` reading used as
 * an id, `stamp` the `new Date()` reading used as a timestamp, `choice` the
 * `Math.random` pick, the clipboard items and the chosen files are what the
 * browser hands over. Preview handles come from the `UrlRegistry`.
 */
module Sidebar {
  import opened Options
  import opened Text
  import opened Attachments
  import opened ChatModel
  import opened ObjectUrls

  class ChatSidebar {
    var messages: seq<Message>
    var input: string
    var attachedFiles: seq<AttachedFile>
    /** Replies scheduled with `setTimeout` and not yet delivered. */
    ghost var scheduledReplies: nat
    const urls: UrlRegistry

    ghost function State(): ChatState
      reads this
    {
      ChatState(messages, input, attachedFiles)
    }

    /** Handle ownership holds, and every revoke so far released a distinct
        handle that is now dead: no handle is ever released twice. */
    ghost predicate Valid()
      reads this, urls
    {
      urls.Valid() && urls.RevokedOnce() && Owned(State(), urls.live)
    }

    constructor (now: nat)
      ensures Valid() && fresh(urls)
      ensures State() == Initial(now) && scheduledReplies == 0
      ensures urls.live == {} && urls.revoked == []
    {
      messages := Initial(now).messages;
      input := "";
      attachedFiles := [];
      scheduledReplies := 0;
      urls := new UrlRegistry();
      InitialOwned(now);
    }

    /** The text box's `onChange`. */
    method SetInput(text: string)
      requires Valid()
      modifies this
      ensures Valid()
      ensures State() == old(State()).(input := text) && scheduledReplies == old(scheduledReplies)
    {
      input := text;
    }

    /** `handleSendMessage`: a blank input with nothing pending changes
        nothing and schedules nothing; otherwise the user message is appended,
        input and pending are cleared without revoking any handle, and one
        reply is scheduled. */
    method HandleSendMessage(now: nat, stamp: nat)
      requires Valid()
      modifies this
      ensures Valid()
      ensures State() == Send(old(State()), now, stamp)
      ensures scheduledReplies == old(scheduledReplies) + if ShouldSend(old(input), old(attachedFiles)) then 1 else 0
      ensures urls.live == old(urls.live) && urls.revoked == old(urls.revoked)
      ensures TimelineHandles(messages) + Handles(attachedFiles) == old(TimelineHandles(messages) + Handles(attachedFiles))
    {
      if !ShouldSend(input, attachedFiles) {
        return;
      }
      ghost var before := State();
      SendTransfersHandles(before, now, stamp, urls.live);
      var userMessage := Message(now, input, User, stamp, if |attachedFiles| > 0 then Some(attachedFiles) else None);
      assert userMessage == UserMessage(now, stamp, before.input, before.pending);
      messages := messages + [userMessage];
      input := "";
      attachedFiles := [];
      scheduledReplies := scheduledReplies + 1;
      assert State() == Send(before, now, stamp);
    }

    /** The `setTimeout` callback scheduled by a send. */
    method DeliverReply(now: nat, stamp: nat, choice: nat)
      requires Valid()
      requires scheduledReplies > 0
      requires choice < |Responses|
      modifies this
      ensures Valid()
      ensures State() == Reply(old(State()), now, stamp, choice)
      ensures scheduledReplies == old(scheduledReplies) - 1
    {
      ghost var before := State();
      var aiMessage := Message(now + 1, Responses[choice], Assistant, stamp, None);
      messages := messages + [aiMessage];
      scheduledReplies := scheduledReplies - 1;
      ReplyKeepsHandles(before, now, stamp, choice, urls.live);
    }

    /** `handleKeyPress`: Enter without Shift sends (and suppresses the
        newline); any other key changes nothing. */
    method HandleKeyPress(key: string, shiftKey: bool, now: nat, stamp: nat) returns (prevented: bool)
      requires Valid()
      modifies this
      ensures Valid()
      ensures prevented <==> key == "Enter" && !shiftKey
      ensures State() == if prevented then Send(old(State()), now, stamp) else old(State())
      ensures scheduledReplies == old(scheduledReplies) + if prevented && ShouldSend(old(input), old(attachedFiles)) then 1 else 0
      ensures urls.live == old(urls.live) && urls.revoked == old(urls.revoked)
    {
      prevented := key == "Enter" && !shiftKey;
      if prevented {
        HandleSendMessage(now, stamp);
      }
    }

    /** `handlePaste`: scans the clipboard items for the first one whose type
        starts with "image/"; if it yields a file, attaches it with a freshly
        allocated preview handle. Returns whether `preventDefault` was called. */
    method HandlePaste(clipboard: Option<seq<ClipboardItem>>, now: nat) returns (prevented: bool)
      requires Valid()
      modifies this, urls
      ensures Valid()
      ensures prevented <==> clipboard.Some? && FirstImageIndex(clipboard.value).Some?
      ensures State() == Paste(old(State()), clipboard, now, old(urls.issued))
      ensures scheduledReplies == old(scheduledReplies) && urls.revoked == old(urls.revoked)
      ensures PastedFile(clipboard).Some? ==> urls.live == old(urls.live) + {old(urls.issued)} && urls.issued == old(urls.issued) + 1
      ensures PastedFile(clipboard).None? ==> urls.live == old(urls.live) && urls.issued == old(urls.issued)
    {
      prevented := false;
      if clipboard.None? {
        return;
      }
      ghost var before := State();
      var items := clipboard.value;
      var i := 0;
      while i < |items|
        invariant 0 <= i <= |items|
        invariant forall j :: 0 <= j < i ==> !IsImageType(items[j].kind)
        invariant !prevented
        invariant State() == before && urls.issued == old(urls.issued) && urls.live == old(urls.live)
      {
        var item := items[i];
        if IsImageType(item.kind) {
          assert FirstImageIndex(items) == Some(i);
          prevented := true;
          var file := item.file;
          assert file == PastedFile(clipboard);
          if file.Some? {
            var url := urls.CreateObjectUrl();
            var attached := AttachedFile(now, if file.value.name != "" then file.value.name else PastedImageName,
                                         file.value.size, file.value.mimeType, Some(url));
            attachedFiles := attachedFiles + [attached];
          }
          break;
        }
        i := i + 1;
      }
      PasteKeepsHandles(before, clipboard, now, old(urls.issued), old(urls.live));
    }

    /** The `onchange` callback of `handleAttachFile`: attaches the first
        chosen file, allocating a preview handle only for an image type. */
    method AttachChosenFile(files: Option<seq<File>>, now: nat)
      requires Valid()
      modifies this, urls
      ensures Valid()
      ensures State() == AttachChosen(old(State()), files, now, old(urls.issued))
      ensures scheduledReplies == old(scheduledReplies) && urls.revoked == old(urls.revoked)
      ensures PickAllocates(files) ==> urls.live == old(urls.live) + {old(urls.issued)} && urls.issued == old(urls.issued) + 1
      ensures !PickAllocates(files) ==> urls.live == old(urls.live) && urls.issued == old(urls.issued)
    {
      ghost var before := State();
      if files.Some? && |files.value| > 0 {
        var file := files.value[0];
        var url: Option<Handle> := None;
        if IsImageType(file.mimeType) {
          var h := urls.CreateObjectUrl();
          url := Some(h);
        }
        attachedFiles := attachedFiles + [AttachedFile(now, file.name, file.size, file.mimeType, url)];
      }
      AttachChosenKeepsHandles(before, files, now, old(urls.issued), old(urls.live));
    }

    /** `removeAttachedFile`: revokes the first match's handle if it has one,
        then drops every entry with the id. */
    method RemoveAttachedFile(fileId: nat)
      requires Valid()
      modifies this, urls
      ensures Valid()
      ensures State() == Remove(old(State()), fileId)
      ensures scheduledReplies == old(scheduledReplies) && urls.issued == old(urls.issued)
      ensures Released(old(attachedFiles), fileId).Some? ==>
        urls.live == old(urls.live) - {Released(old(attachedFiles), fileId).value} &&
        urls.revoked == old(urls.revoked) + [Released(old(attachedFiles), fileId).value]
      ensures Released(old(attachedFiles), fileId).None? ==>
        urls.live == old(urls.live) && urls.revoked == old(urls.revoked)
    {
      ghost var before := State();
      ghost var liveBefore := urls.live;
      RemoveReleasesFirstMatch(before, fileId, liveBefore);
      var fileToRemove := Find(attachedFiles, fileId);
      if fileToRemove.Some? && fileToRemove.value.url.Some? {
        urls.RevokeObjectUrl(fileToRemove.value.url.value);
      }
      attachedFiles := FilterOut(attachedFiles, fileId);
    }
  }
  /** Removing the same id twice in a row: the second call finds nothing, so
      the two together release at most one handle. */
  method RemoveSameIdTwice(chat: ChatSidebar, fileId: nat)
    requires chat.Valid()
    modifies chat, chat.urls
    ensures chat.Valid()
    ensures chat.State() == Remove(old(chat.State()), fileId)
    ensures |chat.urls.revoked| <= |old(chat.urls.revoked)| + 1
  {
    chat.RemoveAttachedFile(fileId);
    RemoveTwice(old(chat.State()), fileId);
    chat.RemoveAttachedFile(fileId);
  }
}
