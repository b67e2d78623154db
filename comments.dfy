/**
 * The comments panel: the list of comments with a short preview of the text each refers
 * to, and the edit session that lets the user rewrite a comment's text.
 */
module Comments {
  import opened Wrappers
  import opened JsText

  /** How many characters of the commented text the preview keeps. */
  const PreviewLength: nat := 12

  /** One comment of the read model: its text and the document text it refers to. */
  datatype Comment = Comment(comment: string, commentedText: string)

  /** A call of the `editComment` function the panel receives. */
  datatype EditCall = EditCall(id: string, text: string)

  /** What the panel body shows. */
  datatype Listing = NoCommentsYet | Entries(ids: set<string>)

  /** What one comment entry shows: an edit input, or the comment with its buttons; and the preview, if any. */
  datatype EntryView =
    | EditingEntry(inputText: string, preview: Option<string>)
    | DisplayEntry(commentText: string, preview: Option<string>)

  /** The preview of the commented text: up to 12 characters unchanged, longer texts cut to 12 followed by "...". */
  function Preview(text: string): (r: string)
    ensures |r| <= PreviewLength + 3
    ensures |text| <= PreviewLength ==> r == text
    ensures |text| > PreviewLength ==> |r| == PreviewLength + 3 && r[..PreviewLength] == text[..PreviewLength] && r[PreviewLength..] == "..."
  {
    if |text| > PreviewLength then text[..PreviewLength] + "..." else text
  }

  /** The preview line is shown only when the commented text is non-empty. */
  function PreviewLine(commentedText: string): (r: Option<string>)
    ensures r.Some? <==> commentedText != ""
    ensures r.Some? ==> r.value == Preview(commentedText) && r.value != ""
  {
    if commentedText != "" then Some(Preview(commentedText)) else None
  }

  /** Previewing a preview changes nothing: a cut preview starts with the same 12 characters and ends in "...". */
  lemma PreviewIdempotent(text: string)
    ensures Preview(Preview(text)) == Preview(text)
  {
  }

  /** The panel body: the "No comments yet" message for an empty map, one entry per comment otherwise. */
  function ListComments(comments: map<string, Comment>): (r: Listing)
    ensures r == NoCommentsYet <==> |comments| == 0
    ensures r.Entries? ==> r.ids == comments.Keys && r.ids != {}
  {
    if |comments| == 0 then NoCommentsYet else Entries(comments.Keys)
  }

  /** One entry: the comment being edited shows the edit input with the edit text, the others their comment. */
  function RenderEntry(id: string, c: Comment, editId: Option<string>, editText: string): (v: EntryView)
    ensures v.EditingEntry? <==> editId == Some(id)
    ensures v.EditingEntry? ==> v.inputText == editText
    ensures v.DisplayEntry? ==> v.commentText == c.comment
    ensures v.preview == PreviewLine(c.commentedText)
  {
    if editId == Some(id) then EditingEntry(editText, PreviewLine(c.commentedText))
    else DisplayEntry(c.comment, PreviewLine(c.commentedText))
  }

  /**
   * The `editComment` call a save makes: one exactly when an id is being edited and the
   * edit text is not blank; it carries that id and the trimmed text, which is non-empty and
   * already trimmed.
   */
  function SaveCall(editId: Option<string>, editText: string): (r: Option<EditCall>)
    ensures r.Some? <==> IsSetId(editId) && !AllSpace(editText)
    ensures r.Some? ==> r.value.id == editId.value && r.value.text == Trim(editText)
    ensures r.Some? ==> r.value.text != "" && Trim(r.value.text) == r.value.text
  {
    TrimEmptyIffBlank(editText);
    if IsSetId(editId) && !AllSpace(editText) then
      TrimIdempotent(editText);
      Some(EditCall(editId.value, Trim(editText)))
    else None
  }

  /** The edit state of the comments panel. */
  class CommentsPanel {
    /** `commentEditId`: the comment being edited, if any. */
    var editId: Option<string>
    /** `commentEditText`: the text in the edit input. */
    var editText: string
    /** Every call of `editComment`, in order. */
    var editCalls: seq<EditCall>

    /** The panel starts with no edit in progress. */
    constructor ()
      ensures editId == None && editText == "" && editCalls == []
    {
      editId := None;
      editText := "";
      editCalls := [];
    }

    /** handleEditStart: the comment becomes the one being edited, its current text prefilled. */
    method HandleEditStart(id: string, currentText: string)
      modifies this`editId, this`editText
      ensures editId == Some(id) && editText == currentText
    {
      editId := Some(id);
      editText := currentText;
    }

    /** The edit input's change handler. */
    method HandleEditInput(text: string)
      modifies this`editText
      ensures editText == text
    {
      editText := text;
    }

    /**
     * handleEditSave: `editComment` is called with the id and the trimmed text only when an id
     * is being edited and the text is not blank; either way the edit session ends.
     */
    method HandleEditSave()
      modifies this`editId, this`editText, this`editCalls
      ensures editId == None && editText == ""
      ensures !IsSetId(old(editId)) || AllSpace(old(editText)) ==> editCalls == old(editCalls)
      ensures IsSetId(old(editId)) && !AllSpace(old(editText)) ==>
        editCalls == old(editCalls) + [EditCall(old(editId).value, Trim(old(editText)))]
    {
      var call := SaveCall(editId, editText);
      if call.Some? {
        editCalls := editCalls + [call.value];
      }
      editId := None;
      editText := "";
    }
  }

  /** Starting an edit and saving it unchanged re-sends the comment's own text, trimmed, unless it is blank. */
  method EditRoundTrip(panel: CommentsPanel, id: string, currentText: string)
    requires id != ""
    modifies panel
    ensures panel.editId == None && panel.editText == ""
    ensures !AllSpace(currentText) ==> panel.editCalls == old(panel.editCalls) + [EditCall(id, Trim(currentText))]
    ensures AllSpace(currentText) ==> panel.editCalls == old(panel.editCalls)
  {
    panel.HandleEditStart(id, currentText);
    panel.HandleEditSave();
  }
}
