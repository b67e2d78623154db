/**
 * The rich-text editing form: a Quill editor whose user edits are forwarded as deltas,
 * whose remote deltas and join snapshots are applied under the `isHandlingRemoteContent`
 * guard with the user's selection restored, and whose content is re-synchronised from
 * the shared state only when it differs from the last applied snapshot.
 *
 * The editor engine is abstract: what `setContents` and `updateContents` produce is given
 * by the functions `load` and `apply`, and the selection the engine leaves after a
 * programmatic change is a parameter of each handler.
 */
module DocumentForm {
  import opened Wrappers

  /** One operation of a Quill delta, with its formatting attributes. */
  datatype Op =
    | Insert(text: string, attributes: map<string, string>)
    | Retain(length: nat, attributes: map<string, string>)
    | Delete(length: nat)

  /** A content value as the form receives it: `null`, a string, or an object whose `ops` list may be missing. */
  datatype Content = Null | Str(s: string) | Obj(ops: Option<seq<Op>>)

  /** The editor's document, as Quill holds it. */
  type Doc = seq<Op>

  /** A selection: index and length. */
  datatype Range = Range(index: int, length: int)

  /** Where a Quill change event says the change came from. */
  datatype Source = User | Api

  /** A call into the Quill editor, with the value of the guard at the moment of the call. */
  datatype EditorCall =
    | SetContentsCall(content: Content, guarded: bool)
    | UpdateContentsCall(delta: Content, guarded: bool)
    | SetSelectionCall(range: Range)

  /** What the form hands to the shared session for sending. */
  datatype Outgoing = ContentDelta(delta: Content) | TitleChange(title: string)

  /** The empty delta `{ ops: [] }`. */
  const EmptyDelta: Content := Obj(Some([]))

  /** `content?.ops` is truthy: an object with an `ops` list, empty or not. */
  predicate HasOps(c: Content) {
    c.Obj? && c.ops.Some?
  }

  /** `delta?.ops?.length` is truthy: an object with a non-empty `ops` list. */
  predicate HasNonEmptyOps(c: Content) {
    HasOps(c) && |c.ops.value| > 0
  }

  /** `content` is falsy: `null` or the empty string. */
  predicate IsFalsy(c: Content) {
    c == Null || c == Str("")
  }

  /** What the form loads on mount: the given content when it has `ops`, the empty delta otherwise. */
  function MountContent(c: Content): (r: Content)
    ensures HasOps(r)
    ensures HasOps(c) ==> r == c
    ensures !HasOps(c) ==> r == EmptyDelta
  {
    if HasOps(c) then c else EmptyDelta
  }

  /** What the content-sync step loads: `content || { ops: [] }`. */
  function SyncContent(c: Content): (r: Content)
    ensures r != Null && r != Str("")
    ensures !IsFalsy(c) ==> r == c
    ensures IsFalsy(c) ==> r == EmptyDelta
  {
    if IsFalsy(c) then EmptyDelta else c
  }

  /** The remote-delta filter: an editor exists, the delta has operations and it was not written by this client. */
  predicate AcceptsRemoteDelta(mounted: bool, delta: Content, author: Option<string>, clientId: Option<string>) {
    mounted && HasNonEmptyOps(delta) && author != clientId
  }

  /** A delta authored by this client is never applied, whatever it contains: no self-echo. */
  lemma OwnDeltaRejected(mounted: bool, delta: Content, clientId: Option<string>)
    ensures !AcceptsRemoteDelta(mounted, delta, clientId, clientId)
  {
  }

  /** The state of one mounted document form and the refs it keeps. */
  class Form {
    /** What `setContents` makes of a content value. */
    const load: Content -> Doc
    /** What `updateContents` makes of the document and a delta. */
    const apply: (Doc, Content) -> Doc
    /** The client id the remote-delta listener compares authors with. */
    const clientId: Option<string>
    /** `currentDocIdRef.current`: the document the chat belongs to. */
    const currentDocId: Option<string>

    /** Whether `quillEditorRef.current` holds the editor. */
    var mounted: bool
    /** The editor's document. */
    var contents: Doc
    /** The editor's selection; `None` when it has no focus. */
    var selection: Option<Range>
    /** `isHandlingRemoteContent.current`. */
    var handlingRemote: bool
    /** `lastContent.current`: the content last loaded into the editor. */
    var lastContent: Content
    /** The `chatMessages` state; a join notice may be missing. */
    var chatMessages: seq<Option<string>>
    /** The `localTitle` state. */
    var localTitle: string
    /** Everything handed to the session for sending, in order. */
    var outbox: seq<Outgoing>
    /** Every call made into the editor, in order. */
    var calls: seq<EditorCall>

    /** Between events no remote content is being applied. */
    predicate Valid()
      reads this
    {
      !handlingRemote
    }

    /**
     * The mount effect: create the editor and load the given content if it has `ops`,
     * else the empty delta; the snapshot becomes the given content as it was.
     */
    constructor Mount(content: Content, title: string, loadFn: Content -> Doc, applyFn: (Doc, Content) -> Doc,
                      myId: Option<string>, docId: Option<string>)
      ensures Valid() && mounted
      ensures load == loadFn && apply == applyFn && clientId == myId && currentDocId == docId
      ensures contents == loadFn(MountContent(content)) && lastContent == content
      ensures calls == [SetContentsCall(MountContent(content), false)]
      ensures selection == None && outbox == [] && chatMessages == [] && localTitle == title
    {
      load := loadFn;
      apply := applyFn;
      clientId := myId;
      currentDocId := docId;
      mounted := true;
      selection := None;
      handlingRemote := false;
      chatMessages := [];
      localTitle := title;
      outbox := [];
      calls := [];
      new;
      SetContents(MountContent(content), None);
      lastContent := content;
    }

    /** `quill.setContents`: the engine loads the content, reports an "api" change, and leaves some selection. */
    method SetContents(c: Content, engineSel: Option<Range>)
      modifies this`contents, this`selection, this`calls, this`outbox
      ensures contents == load(c) && selection == engineSel
      ensures calls == old(calls) + [SetContentsCall(c, handlingRemote)]
      ensures outbox == old(outbox)
    {
      contents := load(c);
      selection := engineSel;
      calls := calls + [SetContentsCall(c, handlingRemote)];
      UserContentChange(c, Api);
    }

    /** `quill.updateContents`: the engine applies the delta, reports an "api" change, and leaves some selection. */
    method UpdateContents(delta: Content, engineSel: Option<Range>)
      modifies this`contents, this`selection, this`calls, this`outbox
      ensures contents == apply(old(contents), delta) && selection == engineSel
      ensures calls == old(calls) + [UpdateContentsCall(delta, handlingRemote)]
      ensures outbox == old(outbox)
    {
      contents := apply(contents, delta);
      selection := engineSel;
      calls := calls + [UpdateContentsCall(delta, handlingRemote)];
      UserContentChange(delta, Api);
    }

    /** Put back a selection held before a programmatic change, if there was one. */
    method RestoreSelection(before: Option<Range>)
      modifies this`selection, this`calls
      ensures before.Some? ==> selection == before && calls == old(calls) + [SetSelectionCall(before.value)]
      ensures before.None? ==> selection == old(selection) && calls == old(calls)
    {
      if before.Some? {
        selection := before;
        calls := calls + [SetSelectionCall(before.value)];
      }
    }

    /** handleUserContentChange: only a change typed by the user is forwarded; programmatic ones never are. */
    method UserContentChange(delta: Content, source: Source)
      modifies this`outbox
      ensures source == User ==> outbox == old(outbox) + [ContentDelta(delta)]
      ensures source != User ==> outbox == old(outbox)
    {
      if source != User {
        return;
      }
      outbox := outbox + [ContentDelta(delta)];
    }

    /**
     * The "document-initial-join" listener: a snapshot with `ops` adds the join notice to the
     * chat and is loaded under the guard; it becomes the new snapshot. Nothing is sent.
     */
    method OnInitialJoin(content: Content, msg: Option<string>, engineSel: Option<Range>)
      requires Valid()
      modifies this
      ensures Valid() && mounted == old(mounted) && localTitle == old(localTitle)
      ensures outbox == old(outbox)
      ensures !(old(mounted) && HasOps(content)) ==>
        contents == old(contents) && selection == old(selection) && lastContent == old(lastContent)
        && chatMessages == old(chatMessages) && calls == old(calls)
      ensures old(mounted) && HasOps(content) ==>
        contents == load(content) && selection == engineSel && lastContent == content
        && chatMessages == old(chatMessages) + [msg] && calls == old(calls) + [SetContentsCall(content, true)]
    {
      if !mounted || !HasOps(content) {
        return;
      }
      chatMessages := chatMessages + [msg];
      handlingRemote := true;
      SetContents(content, engineSel);
      handlingRemote := false;
      lastContent := content;
    }

    /** The "chat-message-frontend" listener: a message is added only when it is for the current document. */
    method OnChatMessage(id: Option<string>, msg: Option<string>)
      requires mounted
      modifies this`chatMessages
      ensures id == currentDocId ==> chatMessages == old(chatMessages) + [msg]
      ensures id != currentDocId ==> chatMessages == old(chatMessages)
    {
      if id != currentDocId {
        return;
      }
      chatMessages := chatMessages + [msg];
    }

    /**
     * The "remote-delta-content-change" listener. An accepted delta is applied with the guard
     * set, the guard is cleared, and the selection held before is put back; a rejected one
     * changes nothing. Either way nothing is sent.
     */
    method OnRemoteDelta(delta: Content, author: Option<string>, engineSel: Option<Range>)
      requires Valid()
      modifies this
      ensures Valid() && mounted == old(mounted)
      ensures outbox == old(outbox)
      ensures lastContent == old(lastContent) && chatMessages == old(chatMessages) && localTitle == old(localTitle)
      ensures !AcceptsRemoteDelta(old(mounted), delta, author, clientId) ==>
        contents == old(contents) && selection == old(selection) && calls == old(calls)
      ensures AcceptsRemoteDelta(old(mounted), delta, author, clientId) ==>
        contents == apply(old(contents), delta)
      ensures AcceptsRemoteDelta(old(mounted), delta, author, clientId) && old(selection).Some? ==>
        selection == old(selection)
        && calls == old(calls) + [UpdateContentsCall(delta, true), SetSelectionCall(old(selection).value)]
      ensures AcceptsRemoteDelta(old(mounted), delta, author, clientId) && old(selection).None? ==>
        selection == engineSel && calls == old(calls) + [UpdateContentsCall(delta, true)]
    {
      if !mounted || !HasNonEmptyOps(delta) {
        return;
      }
      if author == clientId {
        return;
      }
      var currentSelection := selection;
      handlingRemote := true;
      UpdateContents(delta, engineSel);
      handlingRemote := false;
      RestoreSelection(currentSelection);
    }

    /**
     * The content-sync effect: when the shared content is not deep-equal to the snapshot (and
     * no remote apply is in progress) it is loaded, `null` or `""` as the empty delta, the
     * selection is kept, and the snapshot becomes the content. Otherwise nothing changes.
     */
    method ContentSync(content: Content, engineSel: Option<Range>)
      requires Valid()
      modifies this
      ensures Valid() && mounted == old(mounted)
      ensures outbox == old(outbox) && chatMessages == old(chatMessages) && localTitle == old(localTitle)
      ensures !old(mounted) || content == old(lastContent) ==>
        contents == old(contents) && selection == old(selection) && calls == old(calls)
        && lastContent == old(lastContent)
      ensures old(mounted) && content != old(lastContent) ==>
        contents == load(SyncContent(content)) && lastContent == content
      ensures old(mounted) && content != old(lastContent) && old(selection).Some? ==>
        selection == old(selection)
        && calls == old(calls) + [SetContentsCall(SyncContent(content), false), SetSelectionCall(old(selection).value)]
      ensures old(mounted) && content != old(lastContent) && old(selection).None? ==>
        selection == engineSel && calls == old(calls) + [SetContentsCall(SyncContent(content), false)]
    {
      if !mounted {
        return;
      }
      var contentChanged := content != lastContent;
      if !handlingRemote && contentChanged {
        var currentSelection := selection;
        SetContents(SyncContent(content), engineSel);
        RestoreSelection(currentSelection);
        lastContent := content;
      }
    }

    /** The "document-title-updated" listener: the confirmed title replaces the local one. */
    method OnTitleUpdated(title: string)
      requires mounted
      modifies this`localTitle
      ensures localTitle == title
    {
      localTitle := title;
    }

    /** handleTitleChange: the local title follows the input and the change is handed over for sending. */
    method HandleTitleChange(newTitle: string)
      modifies this`localTitle, this`outbox
      ensures localTitle == newTitle
      ensures outbox == old(outbox) + [TitleChange(newTitle)]
    {
      localTitle := newTitle;
      outbox := outbox + [TitleChange(newTitle)];
    }

    /** The cleanup of the mount effect: the editor is dropped and the chat is cleared. */
    method Unmount()
      requires Valid()
      modifies this`mounted, this`chatMessages
      ensures Valid() && !mounted && chatMessages == []
    {
      mounted := false;
      chatMessages := [];
    }
  }

  /**
   * Running the content sync twice with the same content ends in the state one run gives:
   * the second run makes no editor call, whatever selection the engine would leave.
   */
  method ContentSyncIdempotent(f: Form, content: Content, sel1: Option<Range>, sel2: Option<Range>)
    requires f.Valid()
    modifies f
    ensures f.Valid() && f.mounted == old(f.mounted)
    ensures f.outbox == old(f.outbox) && f.chatMessages == old(f.chatMessages)
    ensures !old(f.mounted) || content == old(f.lastContent) ==>
      f.contents == old(f.contents) && f.selection == old(f.selection) && f.calls == old(f.calls)
      && f.lastContent == old(f.lastContent)
    ensures old(f.mounted) && content != old(f.lastContent) ==>
      f.contents == f.load(SyncContent(content)) && f.lastContent == content
    ensures old(f.mounted) && content != old(f.lastContent) && old(f.selection).Some? ==>
      f.selection == old(f.selection)
      && f.calls == old(f.calls) + [SetContentsCall(SyncContent(content), false), SetSelectionCall(old(f.selection).value)]
    ensures old(f.mounted) && content != old(f.lastContent) && old(f.selection).None? ==>
      f.selection == sel1 && f.calls == old(f.calls) + [SetContentsCall(SyncContent(content), false)]
  {
    f.ContentSync(content, sel1);
    f.ContentSync(content, sel2);
  }

  /** A user edit is forwarded once; the same delta arriving back with this client as author is not applied. */
  method UserEditIsNotReapplied(f: Form, delta: Content, sel: Option<Range>)
    requires f.Valid()
    modifies f
    ensures f.outbox == old(f.outbox) + [ContentDelta(delta)]
    ensures f.contents == old(f.contents) && f.selection == old(f.selection) && f.calls == old(f.calls)
  {
    f.UserContentChange(delta, User);
    f.OnRemoteDelta(delta, f.clientId, sel);
  }
}
