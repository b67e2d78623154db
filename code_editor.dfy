/**
 * The collaborative code editor: a Monaco editor whose local edits and title changes
 * are sent to the other users of a code document, and whose remote updates are applied
 * under the `isRemoteChange` guard so that the change event they trigger is not sent back.
 */
module CodeEditor {
  import opened Wrappers
  import opened JsText

  /** The text shown when a code document is opened with no stored code. */
  const Welcome: string := "// Welcome! This code document is empty. Enjoy the coding!"

  /**
   * The `codeContent` state: `undefined`; a value without a `code` property, such as the
   * provider's initial `""`; or an object whose `code` is `null` or a string.
   */
  datatype CodeContent = Undefined | NoCodeField | Stored(code: Option<string>)

  /** A field of an incoming event payload, as far as `typeof … === "string"` can tell. */
  datatype Field = Str(s: string) | NotString

  /** A message emitted on the socket. */
  datatype Msg =
    | UpdateCodeContent(id: string, code: string)   // "update-code-content"
    | UpdateCodeTitle(id: string, title: string)    // "update-code-title"

  /** A call into the Monaco editor, with the value of the guard at the moment of the call. */
  datatype EditorCall = SetValue(text: string, guarded: bool)

  /** What a local handler does besides updating local state: nothing, one emit, or a thrown TypeError. */
  datatype Effect = Skip | Emit(msg: Msg) | Throw

  /** The messages an effect appends to the socket's outbox. */
  function Emitted(e: Effect): (ms: seq<Msg>)
    ensures |ms| <= 1
    ensures e.Emit? ==> ms == [e.msg]
    ensures !e.Emit? ==> ms == []
  {
    if e.Emit? then [e.msg] else []
  }

  // ---------------------------------------------------------------------------
  // The initial editor text (mountEditor)
  // ---------------------------------------------------------------------------

  /**
   * The value passed to `setValue` as written: `codeContent.code` is read without a check, so
   * `undefined` content throws, and a missing `code` property is neither `null` nor `''`, so
   * `undefined` itself is passed on (`Success(None)`).
   */
  function InitialLoadValueAsWritten(c: CodeContent): (r: Result<Option<string>, string>)
    ensures r.Failure? <==> c.Undefined?
    ensures r == Success(None) <==> c.NoCodeField?
    ensures c.Stored? && c.code.Some? && c.code.value != "" ==> r == Success(Some(c.code.value))
    ensures c.Stored? && (c.code.None? || c.code.value == "") ==> r == Success(Some(Welcome))
  {
    match c
    case Undefined => Failure("TypeError: Cannot read properties of undefined (reading 'code')")
    case NoCodeField => Success(None)
    case Stored(code) => Success(Some(if code.None? || code.value == "" then Welcome else code.value))
  }

  /** The initial text: the stored code when there is some, the welcome text otherwise; never empty. */
  function InitialLoadValue(c: CodeContent): (r: string)
    ensures r != ""
    ensures r == Welcome <==> (!c.Stored? || c.code.None? || c.code.value == "" || c.code.value == Welcome)
    ensures r != Welcome ==> c == Stored(Some(r))
  {
    if !c.Stored? || c.code.None? || c.code.value == "" then Welcome else c.code.value
  }

  /** The corrected rule agrees with the code as written wherever the latter passes a text to the editor. */
  lemma InitialLoadValueRefines(c: CodeContent)
    requires InitialLoadValueAsWritten(c).Success? && InitialLoadValueAsWritten(c).value.Some?
    ensures InitialLoadValueAsWritten(c).value.value == InitialLoadValue(c)
  {
  }

  /** The case the code as written misses: `codeContent` undefined throws instead of showing the welcome text. */
  lemma UndefinedContentThrows()
    ensures InitialLoadValueAsWritten(Undefined).Failure?
    ensures InitialLoadValue(Undefined) == Welcome
  {
  }

  /** The other case it misses: content without a `code` property loads `undefined` instead of the welcome text. */
  lemma MissingCodeFieldLoadsUndefined()
    ensures InitialLoadValueAsWritten(NoCodeField) == Success(None)
    ensures InitialLoadValue(NoCodeField) == Welcome
  {
  }

  // ---------------------------------------------------------------------------
  // Local edits (handleEditorChange, handleTitleChange)
  // ---------------------------------------------------------------------------

  /** handleEditorChange as written: with the guard clear and a document open it calls `socket.emit`, even on a null socket. */
  function EditorChangeAsWritten(guard: bool, docId: Option<string>, socket: bool, newContent: Option<string>): (e: Effect)
    ensures e == Throw <==> !guard && IsSetId(docId) && !socket
    ensures e.Emit? ==> IsSetId(docId) && e.msg == UpdateCodeContent(docId.value, OrEmpty(newContent))
  {
    if guard || !IsSetId(docId) then Skip
    else if !socket then Throw
    else Emit(UpdateCodeContent(docId.value, OrEmpty(newContent)))
  }

  /**
   * handleEditorChange: a local edit is sent exactly when no remote change is being applied,
   * a document is open and a socket exists; it is sent as one message carrying the open id
   * and the new text, an absent text being sent as `""`.
   */
  function EditorChange(guard: bool, docId: Option<string>, socket: bool, newContent: Option<string>): (e: Effect)
    ensures e != Throw
    ensures e.Emit? <==> !guard && IsSetId(docId) && socket
    ensures e.Emit? ==> e.msg.UpdateCodeContent? && e.msg.id == docId.value && e.msg.id != ""
    ensures e.Emit? && newContent.Some? ==> e.msg.code == newContent.value
    ensures e.Emit? && newContent.None? ==> e.msg.code == ""
  {
    if guard || !IsSetId(docId) || !socket then Skip
    else Emit(UpdateCodeContent(docId.value, OrEmpty(newContent)))
  }

  /** With a socket present the corrected rule is the code as written. */
  lemma EditorChangeRefines(guard: bool, docId: Option<string>, newContent: Option<string>)
    ensures EditorChange(guard, docId, true, newContent) == EditorChangeAsWritten(guard, docId, true, newContent)
  {
  }

  /** The input the code as written mishandles: an open document, no socket, a local edit. */
  lemma NullSocketEditorChangeThrows()
    ensures EditorChangeAsWritten(false, Some("mockdocid"), false, Some("console.log('test');")) == Throw
    ensures EditorChange(false, Some("mockdocid"), false, Some("console.log('test');")) == Skip
  {
  }

  /** handleTitleChange as written: the emit is gated on the document id only, not on the socket. */
  function TitleChangeAsWritten(docId: Option<string>, socket: bool, newTitle: string): (e: Effect)
    ensures e == Throw <==> IsSetId(docId) && !socket
    ensures e.Emit? ==> IsSetId(docId) && e.msg == UpdateCodeTitle(docId.value, newTitle)
  {
    if !IsSetId(docId) then Skip
    else if !socket then Throw
    else Emit(UpdateCodeTitle(docId.value, newTitle))
  }

  /** handleTitleChange: the new title, even `""`, is sent exactly when a document is open and a socket exists. */
  function TitleChange(docId: Option<string>, socket: bool, newTitle: string): (e: Effect)
    ensures e != Throw
    ensures e.Emit? <==> IsSetId(docId) && socket
    ensures e.Emit? ==> e.msg.UpdateCodeTitle? && e.msg.id == docId.value && e.msg.title == newTitle
  {
    if IsSetId(docId) && socket then Emit(UpdateCodeTitle(docId.value, newTitle)) else Skip
  }

  /** With a socket present the corrected rule is the code as written. */
  lemma TitleChangeRefines(docId: Option<string>, newTitle: string)
    ensures TitleChange(docId, true, newTitle) == TitleChangeAsWritten(docId, true, newTitle)
  {
  }

  /** The input the code as written mishandles: an open document, no socket, a title edit. */
  lemma NullSocketTitleChangeThrows()
    ensures TitleChangeAsWritten(Some("mockdocid"), false, "New Title") == Throw
    ensures TitleChange(Some("mockdocid"), false, "New Title") == Skip
  {
  }

  // ---------------------------------------------------------------------------
  // Remote updates (the "code-content-updated" / "code-title-updated" listeners)
  // ---------------------------------------------------------------------------

  /** A remote payload is for this editor when its id is the open document's and its field is a string. */
  predicate AcceptsRemote(docId: Option<string>, id: Option<string>, field: Field) {
    id == docId && field.Str?
  }

  /** The listeners are registered only when there is a socket and an open document. */
  predicate ListenersRegistered(socket: bool, docId: Option<string>) {
    socket && IsSetId(docId)
  }

  /** The state of one mounted code editor component and the context values it uses. */
  class CodeEditorSession {
    /** `isRemoteChange.current`: set only while a remote text is being written into the editor. */
    var guard: bool
    /** `currentCodeDocId`: the open code document, if any. */
    const currentDocId: Option<string>
    /** Whether `socketRef.current` holds a socket. */
    const socket: bool
    /** Whether `editorRef.current` holds the Monaco editor. */
    var mounted: bool
    /** The text in the Monaco editor. */
    var editorText: string
    /** The `codeContent` state. */
    var codeContent: CodeContent
    /** The `codeTitle` state. */
    var title: string
    /** Every message emitted on the socket, in order. */
    var outbox: seq<Msg>
    /** Whether the remote-update listeners are registered. */
    var listening: bool
    /** Every call made into the Monaco editor, in order. */
    var calls: seq<EditorCall>

    /** Between events no remote change is in progress, and the listeners exist only under their guard. */
    predicate Valid()
      reads this
    {
      !guard && (listening ==> ListenersRegistered(socket, currentDocId))
    }

    /** The component is rendered with the context's content, title, document id and socket. */
    constructor (content: CodeContent, codeTitle: string, docId: Option<string>, hasSocket: bool)
      ensures Valid()
      ensures codeContent == content && title == codeTitle && currentDocId == docId && socket == hasSocket
      ensures !mounted && !listening && outbox == [] && calls == []
    {
      guard := false;
      currentDocId := docId;
      socket := hasSocket;
      mounted := false;
      editorText := "";
      codeContent := content;
      title := codeTitle;
      outbox := [];
      listening := false;
      calls := [];
    }

    /** mountEditor: keep the editor and load the stored code, or the welcome text when there is none. */
    method MountEditor()
      requires Valid()
      modifies this
      ensures Valid() && mounted
      ensures editorText == InitialLoadValue(old(codeContent)) && editorText != ""
      ensures calls == old(calls) + [SetValue(editorText, false)]
      ensures outbox == old(outbox) && codeContent == old(codeContent) && title == old(title)
      ensures listening == old(listening)
    {
      mounted := true;
      editorText := InitialLoadValue(codeContent);
      calls := calls + [SetValue(editorText, guard)];
    }

    /** The effect that registers the remote-update listeners: nothing is registered without a socket and an open document. */
    method RegisterListeners()
      requires Valid()
      modifies this`listening
      ensures Valid()
      ensures listening <==> ListenersRegistered(socket, currentDocId)
    {
      listening := socket && IsSetId(currentDocId);
    }

    /** handleEditorChange: the editor's change event, for a local edit or for a programmatic one. */
    method HandleEditorChange(newContent: Option<string>)
      modifies this`outbox
      ensures outbox == old(outbox) + Emitted(EditorChange(guard, currentDocId, socket, newContent))
      ensures guard || !IsSetId(currentDocId) || !socket ==> outbox == old(outbox)
    {
      outbox := outbox + Emitted(EditorChange(guard, currentDocId, socket, newContent));
    }

    /** handleTitleChange: the local title always follows the input; the change is sent when a document is open. */
    method HandleTitleChange(newTitle: string)
      requires Valid()
      modifies this`title, this`outbox
      ensures Valid()
      ensures title == newTitle
      ensures outbox == old(outbox) + Emitted(TitleChange(currentDocId, socket, newTitle))
    {
      title := newTitle;
      outbox := outbox + Emitted(TitleChange(currentDocId, socket, newTitle));
    }

    /**
     * The "code-content-updated" listener. An accepted update is written into the editor with the
     * guard set; the editor's change event fires during that write and finds the guard set, so
     * nothing is sent back. The guard is clear again afterwards.
     */
    method OnCodeContentUpdated(id: Option<string>, code: Field)
      requires Valid()
      modifies this
      ensures Valid()
      ensures outbox == old(outbox)
      ensures title == old(title) && mounted == old(mounted) && listening == old(listening)
      ensures !(old(listening) && AcceptsRemote(currentDocId, id, code)) ==>
        editorText == old(editorText) && codeContent == old(codeContent) && calls == old(calls)
      ensures old(listening) && AcceptsRemote(currentDocId, id, code) ==>
        codeContent == Stored(Some(code.s)) &&
        (mounted ==> editorText == code.s && calls == old(calls) + [SetValue(code.s, true)]) &&
        (!mounted ==> editorText == old(editorText) && calls == old(calls))
    {
      if !listening {
        return;
      }
      if id != currentDocId || !code.Str? {
        return;
      }
      guard := true;
      if mounted {
        editorText := code.s;
        calls := calls + [SetValue(code.s, guard)];
        // The editor reports the programmatic write through its change event.
        HandleEditorChange(Some(code.s));
      }
      guard := false;
      codeContent := Stored(Some(code.s));
    }

    /** The "code-title-updated" listener: the title is replaced only by a string title for the open document. */
    method OnCodeTitleUpdated(id: Option<string>, newTitle: Field)
      requires Valid()
      modifies this`title
      ensures Valid()
      ensures old(listening) && AcceptsRemote(currentDocId, id, newTitle) ==> title == newTitle.s
      ensures !(old(listening) && AcceptsRemote(currentDocId, id, newTitle)) ==> title == old(title)
    {
      if !listening {
        return;
      }
      if id != currentDocId || !newTitle.Str? {
        return;
      }
      title := newTitle.s;
    }
  }

  /**
   * No echo: whatever the session's state, a remote update followed by the change event it
   * triggers leaves the outbox as it was, while a local edit of the same text would be sent.
   */
  method RemoteUpdateIsNotEchoed(s: CodeEditorSession, code: string)
    requires s.Valid() && s.listening && s.mounted
    modifies s
    ensures s.outbox == old(s.outbox)
    ensures s.editorText == code
    ensures s.calls == old(s.calls) + [SetValue(code, true)]
  {
    s.OnCodeContentUpdated(s.currentDocId, Str(code));
  }
}
