# docpool editor synchronisation rules in Dafny

This project models the client-side rules of the docpool collaborative editor front end:

- the code editor's echo suppression, where a remote update is written under the `isRemoteChange` guard;
- the rich-text form's delta reconciliation: only user edits are forwarded, own deltas are dropped, the selection is restored after a remote apply, and content is re-synchronised only when it differs from the last snapshot;
- the document session's state machine and the screen shown for each mode;
- the comment edit session and the comment preview;
- the GraphQL response check.

Each source component is one module:

| module | models |
|---|---|
| `Wrappers` | `Option` and `Result`: absent values and thrown errors |
| `JsText` | `String.prototype.trim`, JavaScript truthiness of ids and strings, and how a status code is written in a template literal |
| `GraphQLResponse` | `src/services/utils.js` |
| `CodeEditor` | `src/code-components/CodeEditor.jsx`: class `CodeEditorSession` |
| `DocumentForm` | `src/document-components/DocumentForm.jsx`: class `Form` |
| `DocumentContext` | `src/document-components/DocumentContext.jsx`: class `DocumentSession` |
| `DocumentEditor` | `src/document-components/DocumentEditor.jsx` |
| `Comments` | `src/view-components/Comments.jsx`: class `CommentsPanel` |

The components that change refs and state step by step are classes. Their fields are the refs and state variables, and their methods are the handlers. `CodeEditorSession.Valid()` and `Form.Valid()` say that no remote apply is in progress between events; `DocumentSession.Valid()` says that the mode is one of `'view'`, `'create'` and `'update'`. `CommentsPanel` has no invariant beyond its field types.

The outside world appears in two ways:

- Outputs are logs held in fields: socket emits (`outbox`), backend requests (`requests`), alerts, confirmation prompts, and calls into the editor engine (`calls`).
- Inputs are parameters: network outcomes, the user's answer to a confirmation, and the selection the engine leaves after a programmatic change.

The Quill engine is abstract. What `setContents` and `updateContents` produce is given by the functions `load` and `apply`, passed when the form is mounted.

Every logged editor call records whether the guard was set when it was made. That is how the model states that remote content is applied inside the guard.

Both editors fire their change event synchronously during a programmatic change:

- Quill's `text-change` has source `"api"`.
- Monaco's `onChange` fires during `setValue`.

The model calls the local-change handler at that point. The contracts then show that the change is not sent back: this is the no-echo property.

Two facts about the code shape the model:

- `DocumentForm.jsx:151-166` applies a remote content delta without checking its document id. It checks only that the editor exists, that the delta is non-empty and that the author differs.
- `DocumentContext.jsx` keeps `title` and `content` as strings: `''` initially, and `content.trim()` in `updateDocument`. So `DocumentSession.content` is a string, while the form works on Quill deltas.

## Model

| member | source | states |
|---|---|---|
| `JsText.Trim` | src/view-components/Comments.jsx:28-29 | the trimmed text is no longer than the input, and neither starts nor ends with white space |
| `JsText.TrimIsSlice` | src/view-components/Comments.jsx:29 | the trimmed text is the slice of the input left between a prefix and a suffix that are entirely white space |
| `JsText.TrimEmptyIffBlank` | src/document-components/DocumentContext.jsx:117 | `!s.trim()` holds exactly when every character of `s` is white space (`AllSpace`); this is the blank test used by the model |
| `JsText.TrimIdempotent` | src/view-components/Comments.jsx:29 | trimming an already trimmed text changes nothing |
| `JsText.IsSetId` | src/code-components/CodeEditor.jsx:57 | an id is truthy exactly when it is present and not `""` |
| `JsText.OrEmpty` | src/code-components/CodeEditor.jsx:62 | `s \|\| ""`: an absent text becomes `""`, a present one is kept |
| `JsText.NatToString` | src/services/utils.js:15 | a status code is written as a non-empty run of decimal digits without a leading zero |
| `JsText.NatToStringRoundTrip` | src/services/utils.js:15 | reading the written digits back gives the status code |
| `JsText.NatToStringInjective` | src/services/utils.js:15 | different status codes are written differently |
| `GraphQLResponse.FirstErrorMessage` | src/services/utils.js:15 | `body.errors?.[0]?.message` is present exactly when there is a first error and it has a message |
| `GraphQLResponse.ValidateGraphQLResponse` | src/services/utils.js:11-20 | it throws exactly when the response is not ok or the body has an `errors` list. The message is the first error's message when present, else `HTTP <status> <statusText>`. Otherwise the body is returned unchanged |
| `GraphQLResponse.StatusMessage` | src/services/utils.js:15 | the fallback message `HTTP ${res.status} ${res.statusText}` |
| `GraphQLResponse.FallbackMessageShape` | src/services/utils.js:15 | without a first error message, the thrown message is `HTTP `, then exactly the status code's decimal digits, a space, and exactly the status text, with nothing else |
| `GraphQLResponse.StatusMessageDeterminesStatus` | src/services/utils.js:15 | two fallback messages with the same status text are equal only when their status codes are equal |
| `GraphQLResponse.ErrorsWithOkStatusThrow` | src/services/utils.js:14-16 | a GraphQL error with an ok status is still thrown, with the server's message |
| `GraphQLResponse.EmptyErrorListThrows` | src/services/utils.js:14-15 | an empty `errors` list is truthy, so the response is rejected, and the message falls back to the status line |
| `CodeEditor.InitialLoadValueAsWritten` | src/code-components/CodeEditor.jsx:44-48 | as written: an undefined `codeContent` throws. A `codeContent` without a `code` property, such as the provider's initial `""`, passes `undefined` to `setValue`. A `null` or `""` code gives the welcome text, and other code is shown as stored |
| `CodeEditor.InitialLoadValue` | src/code-components/CodeEditor.jsx:44-48 | the initial editor text is never empty. It is the welcome text exactly when there is no stored code (or the stored code is that text), and the stored code otherwise |
| `CodeEditor.InitialLoadValueRefines` | src/code-components/CodeEditor.jsx:44-47 | wherever the code as written passes a text to the editor, the corrected rule gives the same text |
| `CodeEditor.UndefinedContentThrows` | src/code-components/CodeEditor.jsx:45 | an undefined `codeContent` throws as written, and gives the welcome text when corrected |
| `CodeEditor.MissingCodeFieldLoadsUndefined` | src/code-components/CodeEditor.jsx:45-48 | a `codeContent` without a `code` property loads `undefined` as written, and gives the welcome text when corrected |
| `CodeEditor.EditorChangeAsWritten` | src/code-components/CodeEditor.jsx:56-64 | as written: the handler throws exactly when the guard is clear, a document is open and there is no socket |
| `CodeEditor.EditorChange` | src/code-components/CodeEditor.jsx:56-64 | a local edit is emitted exactly when the guard is clear, a document id is set and a socket exists. It is one `update-code-content` with the open id and the text, and an absent text is sent as `""` |
| `CodeEditor.EditorChangeRefines` | src/code-components/CodeEditor.jsx:56-64 | with a socket present, the corrected rule is the code as written |
| `CodeEditor.NullSocketEditorChangeThrows` | src/code-components/CodeEditor.jsx:60 | an open document, no socket and a local edit: the code as written throws, the corrected rule skips |
| `CodeEditor.TitleChangeAsWritten` | src/code-components/CodeEditor.jsx:69-80 | as written: the emit is gated on the document id only, so an open document without a socket throws |
| `CodeEditor.TitleChange` | src/code-components/CodeEditor.jsx:69-80 | the new title, `""` included, is emitted as `update-code-title` with the open id exactly when a document is open and a socket exists |
| `CodeEditor.TitleChangeRefines` | src/code-components/CodeEditor.jsx:69-80 | with a socket present, the corrected rule is the code as written |
| `CodeEditor.NullSocketTitleChangeThrows` | src/code-components/CodeEditor.jsx:75 | an open document, no socket and a title edit: the code as written throws, the corrected rule skips |
| `CodeEditor.AcceptsRemote` | src/code-components/CodeEditor.jsx:96 | a remote payload is taken only when its id is the open document's and its field is a string |
| `CodeEditor.ListenersRegistered` | src/code-components/CodeEditor.jsx:88 | listeners exist only with a socket and a truthy document id |
| `CodeEditor.CodeEditorSession.constructor` | src/code-components/CodeEditor.jsx:13-34 | the component starts from the context's content, title, id and socket, with the guard clear, no listeners and nothing emitted |
| `CodeEditor.CodeEditorSession.MountEditor` | src/code-components/CodeEditor.jsx:40-51 | the editor is kept and loaded with the initial text, with the guard clear; nothing is emitted |
| `CodeEditor.CodeEditorSession.RegisterListeners` | src/code-components/CodeEditor.jsx:87-88 | the remote listeners are registered exactly when there is a socket and an open document id; nothing is emitted |
| `CodeEditor.CodeEditorSession.HandleEditorChange` | src/code-components/CodeEditor.jsx:56-64 | the outbox grows by the emit `EditorChange` decides on, and stays unchanged when the guard is set, no id is open or there is no socket |
| `CodeEditor.CodeEditorSession.HandleTitleChange` | src/code-components/CodeEditor.jsx:69-80 | the local title always becomes the input, and the outbox grows by the emit `TitleChange` decides on |
| `CodeEditor.CodeEditorSession.OnCodeContentUpdated` | src/code-components/CodeEditor.jsx:95-103 | an update for another id, with a non-string code, or arriving with no listener changes nothing. An accepted one sets the content state and the editor text to that code, writing it with the guard set. The guard is clear afterwards, and the outbox is unchanged |
| `CodeEditor.CodeEditorSession.OnCodeTitleUpdated` | src/code-components/CodeEditor.jsx:108-111 | the title is replaced only by a string title for the open document |
| `CodeEditor.RemoteUpdateIsNotEchoed` | src/code-components/CodeEditor.jsx:92-103 | a remote update of a mounted, listening editor shows the code, writes it under the guard, and emits nothing |
| `DocumentForm.HasOps` | src/document-components/DocumentForm.jsx:92 | `content?.ops` is truthy: an object with an `ops` list, empty or not |
| `DocumentForm.HasNonEmptyOps` | src/document-components/DocumentForm.jsx:153 | `delta?.ops?.length` is truthy: a non-empty `ops` list |
| `DocumentForm.IsFalsy` | src/document-components/DocumentForm.jsx:221 | the content values that are falsy: `null` and `""` |
| `DocumentForm.AcceptsRemoteDelta` | src/document-components/DocumentForm.jsx:153-155 | a remote delta is applied only with an editor, a non-empty `ops` list and an author other than this client |
| `DocumentForm.MountContent` | src/document-components/DocumentForm.jsx:92-96 | on mount the editor always gets content with `ops`: the given content when it has them, the empty delta otherwise |
| `DocumentForm.SyncContent` | src/document-components/DocumentForm.jsx:221 | `content \|\| { ops: [] }`: a `null` or `""` content is loaded as the empty delta, anything else unchanged |
| `DocumentForm.OwnDeltaRejected` | src/document-components/DocumentForm.jsx:155 | a delta whose author is the handler's client id is never accepted |
| `DocumentForm.Form.Mount` | src/document-components/DocumentForm.jsx:84-98 | the editor is loaded with `MountContent` of the content, outside the guard; the snapshot becomes the given content; no selection, nothing sent |
| `DocumentForm.Form.SetContents` | src/document-components/DocumentForm.jsx:132 | `setContents` loads the content, logs the call with the current guard value, and sends nothing: its `"api"` change event is dropped |
| `DocumentForm.Form.UpdateContents` | src/document-components/DocumentForm.jsx:160 | `updateContents` applies the delta, logs the call with the current guard value, and sends nothing |
| `DocumentForm.Form.RestoreSelection` | src/document-components/DocumentForm.jsx:163-165 | a selection held before is set again with one `setSelection` call; with none held nothing is set |
| `DocumentForm.Form.UserContentChange` | src/document-components/DocumentForm.jsx:113-117 | a change is forwarded exactly when its source is `"user"` |
| `DocumentForm.Form.OnInitialJoin` | src/document-components/DocumentForm.jsx:125-136 | a snapshot without `ops`, or one arriving with no editor, changes nothing. Otherwise the notice joins the chat, the snapshot is loaded with the guard set, and it becomes the new snapshot. Nothing is sent |
| `DocumentForm.Form.OnChatMessage` | src/document-components/DocumentForm.jsx:141-144 | while the listener is registered, a chat message is added exactly when its id is the current document's |
| `DocumentForm.Form.OnRemoteDelta` | src/document-components/DocumentForm.jsx:151-166 | with no editor, no `ops`, an empty `ops` list or this client as author, nothing changes. Otherwise the delta is applied with the guard set, the guard is clear afterwards, and a selection held before is restored. Nothing is sent |
| `DocumentForm.Form.ContentSync` | src/document-components/DocumentForm.jsx:213-229 | content deep-equal to the snapshot changes nothing. Other content is loaded (`null`/`""` as the empty delta) outside the guard, the prior selection is restored, and the snapshot becomes the content |
| `DocumentForm.Form.OnTitleUpdated` | src/document-components/DocumentForm.jsx:175-177 | while the listener is registered, the confirmed title replaces the local title |
| `DocumentForm.Form.HandleTitleChange` | src/document-components/DocumentForm.jsx:240-244 | the local title follows the input and the title is handed over for sending |
| `DocumentForm.Form.Unmount` | src/document-components/DocumentForm.jsx:180-196 | the editor is dropped and the chat is emptied |
| `DocumentForm.ContentSyncIdempotent` | src/document-components/DocumentForm.jsx:217-228 | running the sync twice with the same content ends in exactly the state one run gives: contents, selection, snapshot and editor calls, whatever selection the engine would leave the second time |
| `DocumentForm.UserEditIsNotReapplied` | src/document-components/DocumentForm.jsx:113-166 | a user edit is forwarded once, and the same delta coming back with this client as author leaves the editor untouched |
| `DocumentContext.DefaultCreateVariables` | src/document-components/DocumentContext.jsx:82-87 | a new document is always requested as `"Untitled"`, empty content, `code` false, no comments |
| `DocumentContext.Find` | src/document-components/DocumentContext.jsx:158 | the document found is the first in the list with the id; when none is found, no document in the list has it |
| `DocumentContext.DeletePrompt` | src/document-components/DocumentContext.jsx:160-162 | the confirmation text, quoting the document's title |
| `DocumentContext.DocumentsOutcome` | src/document-components/DocumentContext.jsx:51-70 | a response that is not ok fails with `Status: <status>`; an accepted one yields the body's documents |
| `DocumentContext.DocumentsOutcomeAgreesWithValidation` | src/document-components/DocumentContext.jsx:55-59 | the list fetch accepts exactly the responses `validateGraphQLResponse` accepts, with the same data, and reports the same first error message when there is one |
| `DocumentContext.DocumentSession.constructor` | src/document-components/DocumentContext.jsx:29-42 | initial state: title `''`, content `''`, no documents, `updateId` null, mode `'view'`, and the list is requested |
| `DocumentContext.DocumentSession.GetAllDocuments` | src/document-components/DocumentContext.jsx:51-53 | the document list is requested |
| `DocumentContext.DocumentSession.OnDocumentsResponse` | src/document-components/DocumentContext.jsx:55-69 | an accepted response replaces the list; a rejected one keeps it and alerts the error message |
| `DocumentContext.DocumentSession.ResetState` | src/document-components/DocumentContext.jsx:220-225 | title and content become `''`, `updateId` null, and the list is requested again |
| `DocumentContext.DocumentSession.SwitchToCreateMode` | src/document-components/DocumentContext.jsx:230-233 | cleared fields and mode `'create'` |
| `DocumentContext.DocumentSession.SwitchToViewMode` | src/document-components/DocumentContext.jsx:238-241 | cleared fields and mode `'view'` |
| `DocumentContext.DocumentSession.CreateDocument` | src/document-components/DocumentContext.jsx:80-104 | the default variables are always requested. An accepted response returns to view mode with cleared fields; a rejected one changes no field and alerts once |
| `DocumentContext.DocumentSession.UpdateDocument` | src/document-components/DocumentContext.jsx:114-142 | without a selected document nothing happens. A blank title or content only alerts, with no request. Otherwise the update is requested, and only a successful response returns to view mode |
| `DocumentContext.DocumentSession.DeleteDocument` | src/document-components/DocumentContext.jsx:157-180 | a missing list or document throws before any prompt, leaving every field and log unchanged. Otherwise the user is asked with the title, and the delete is requested only when confirmed. A successful delete returns to view mode |
| `DocumentContext.DocumentSession.LoadDocument` | src/document-components/DocumentContext.jsx:195-212 | the document is requested. An ok response with a document sets title, content and `updateId` from it and mode `'update'`; otherwise nothing changes |
| `DocumentEditor.Label` | src/document-components/DocumentEditor.jsx:22-27 | the labels `+ New Document` and `← Back` |
| `DocumentEditor.OnClick` | src/document-components/DocumentEditor.jsx:22-27 | the new-document button is wired to `switchToCreateMode`, the back button to `switchToViewMode` |
| `DocumentEditor.Render` | src/document-components/DocumentEditor.jsx:17-39 | `'view'` shows exactly the new-document button and the saved list. `'create'`/`'update'` show exactly the back button and the form. Any other mode shows neither button nor panel |
| `DocumentEditor.RenderShowsOnePanel` | src/document-components/DocumentEditor.jsx:33-37 | a panel is shown exactly in the three session modes, and then a button is shown too |
| `DocumentEditor.ClickTopButton` | src/document-components/DocumentEditor.jsx:22-27 | after `switchToCreateMode` the form is shown; after `switchToViewMode` the list is shown; fields are cleared |
| `Comments.Preview` | src/view-components/Comments.jsx:103-105 | texts up to 12 characters are shown unchanged, longer ones as their first 12 characters and `...`, so the preview never exceeds 15 |
| `Comments.PreviewLine` | src/view-components/Comments.jsx:100-108 | the preview line appears exactly when the commented text is non-empty |
| `Comments.PreviewIdempotent` | src/view-components/Comments.jsx:103-105 | previewing a preview changes nothing |
| `Comments.ListComments` | src/view-components/Comments.jsx:52-55 | an empty map shows "No comments yet" and no entries; otherwise one entry per comment id |
| `Comments.RenderEntry` | src/view-components/Comments.jsx:61-98 | exactly the comment being edited shows the edit input with the edit text, the others their comment, each with its preview line |
| `Comments.SaveCall` | src/view-components/Comments.jsx:28-30 | `editComment` is called exactly when an id is being edited and the text is not blank. The call carries the id and the trimmed text, which is non-empty and already trimmed |
| `Comments.CommentsPanel.constructor` | src/view-components/Comments.jsx:12-13 | no comment is being edited and the edit text is `""` |
| `Comments.CommentsPanel.HandleEditStart` | src/view-components/Comments.jsx:20-23 | the edited id is set and the edit text prefilled with the comment's text |
| `Comments.CommentsPanel.HandleEditInput` | src/view-components/Comments.jsx:67 | the edit text follows the input |
| `Comments.CommentsPanel.HandleEditSave` | src/view-components/Comments.jsx:27-33 | the `editComment` call `SaveCall` decides on is made; afterwards the edit id is null and the edit text `""` whether or not a call was made |
| `Comments.EditRoundTrip` | src/view-components/Comments.jsx:20-33 | starting an edit and saving it unchanged sends the comment's trimmed text, unless it is blank |

## Left out

- Network I/O: every `fetch` and GraphQL call. Each request is logged and its outcome is a parameter. A failed `res.json()` and a `null` `data` are not modelled, and status codes are naturals.
- `runCodeApi` and `CodeOutput`: the code execution service, with `btoa`/`atob`.
- Quill and Monaco internals. The engine's document after `setContents`/`updateContents` is given by the abstract functions `load` and `apply`. The selection after a programmatic change is a parameter. The payload of the `"api"` change event is taken to be the applied content; it is never observed, because it is dropped.
- Monaco's `onChange` during `mountEditor`'s `setValue` (CodeEditor.jsx:48) is not modelled. Whether the change subscription exists at that moment depends on the editor wrapper's effect order.
- The Socket.IO transport and the listener `on`/`off` bookkeeping. Registration is a flag. Room joins and leaves are not modelled, including the `leave-document-room` argument at CodeEditor.jsx:124, which reads `.current` of a string id.
- The `code-error` listener and all console logging.
- The `socket-id` listener (DocumentForm.jsx:102-106) and React closure timing. The remote-delta handler compares authors with one fixed client id, the one known to the handler.
- `DocumentForm.Form.Mount`: the form is modelled with a connected socket. DocumentForm.jsx:102-175 registers its listeners with unguarded `socket.on` calls. With a null `socketRef.current`, the mount effect throws after the initial `setContents` and no listener exists. The model has no such state.
- The `[title]` effect (DocumentForm.jsx:249-251) is the same assignment as `Form.OnTitleUpdated` and is not modelled separately.
- Chat and comment panel visibility toggles, and the rendering of Chat, SavedDocuments, account forms, header and footer.
- Comment annotation create, edit, delete and highlight. Comments.jsx only calls the functions it receives as props, and their implementation is not part of this model.
- Throttling of title and content emission. It does not appear in these files.
- `ListComments` gives the set of comment ids, not the order `Object.entries` lists them in.
- `Comments.Preview`: lengths are counted in characters, while JavaScript counts UTF-16 code units. The two differ for characters outside the Basic Multilingual Plane.
- Payload fields are simplified. An event's `code` or `title` is either a string or not. Ids are present strings or absent, so `null` and `undefined` are one value. The source tells them apart with `===`. At DocumentForm.jsx:155 a delta without `author` is applied while `clientId` is still `null`, but `AcceptsRemoteDelta` rejects it. At DocumentForm.jsx:142 a chat message without `id` is dropped while `currentDocIdRef.current` is `null`, but `Form.OnChatMessage` adds it. Quill insert operations carry text only (no embeds), and attribute values are strings.

## Findings

| source | as written | input that shows it | evidently intended | confidence | as-written member | corrected member |
|---|---|---|---|---|---|---|
| src/code-components/CodeEditor.jsx:56-64 | `socket.emit` is called whenever the guard is clear and a document id is set, even when `socketRef.current` is null | guard clear, id `"mockdocid"`, no socket, a local edit: a TypeError is thrown | skip the emit when there is no socket (CodeComponents.test.jsx:386-392) | medium, not executed | `CodeEditor.EditorChangeAsWritten` with `CodeEditor.NullSocketEditorChangeThrows` | `CodeEditor.EditorChange` |
| src/code-components/CodeEditor.jsx:69-80 | the title emit is gated on the document id only | id `"mockdocid"`, no socket, title `"New Title"`: the title is set, then a TypeError is thrown | set the title and skip the emit (CodeComponents.test.jsx:293-299) | medium, not executed | `CodeEditor.TitleChangeAsWritten` with `CodeEditor.NullSocketTitleChangeThrows` | `CodeEditor.TitleChange` |
| src/code-components/CodeEditor.jsx:45-48 | a `codeContent` without a `code` property makes `codeContent.code` `undefined`, which is neither `null` nor `''` | `codeContent` is the provider's initial `""` (CodeContext.jsx:18): `setValue(undefined)` is called instead of showing the welcome text | show the welcome text, as the comment at line 43 says for empty content | medium, not executed | `CodeEditor.InitialLoadValueAsWritten` with `CodeEditor.MissingCodeFieldLoadsUndefined` | `CodeEditor.InitialLoadValue` |
| src/code-components/CodeEditor.jsx:44-47 | `codeContent.code` is read without checking `codeContent` | `codeContent` undefined: a TypeError is thrown on mount | show the welcome text (CodeComponents.test.jsx:128-136) | medium, not executed | `CodeEditor.InitialLoadValueAsWritten` with `CodeEditor.UndefinedContentThrows` | `CodeEditor.InitialLoadValue` |
