/**
 * The document screen: which top button and which panel are shown for the session's mode,
 * and what the top button does.
 */
module DocumentEditor {
  import opened DocumentContext

  /** The button above the panel. */
  datatype TopButton = NewDocumentButton | BackButton | NoButton

  /** The panel below the button. */
  datatype Panel = SavedDocumentsPanel | DocumentFormPanel | NoPanel

  /** What the screen shows. */
  datatype Screen = Screen(button: TopButton, panel: Panel)

  /** What a top-button click does to the session. */
  datatype Action = ToCreateMode | ToViewMode

  /** The label of a top button. */
  function Label(b: TopButton): (s: string)
    ensures b == NewDocumentButton ==> s == "+ New Document"
    ensures b == BackButton ==> s == "\U{2190} Back"
    ensures b == NoButton ==> s == ""
  {
    match b
    case NewDocumentButton => "+ New Document"
    case BackButton => "\U{2190} Back"
    case NoButton => ""
  }

  /** The handler a top button is wired to; `NoButton` has none. */
  function OnClick(b: TopButton): (a: Action)
    requires b != NoButton
    ensures b == NewDocumentButton <==> a == ToCreateMode
    ensures b == BackButton <==> a == ToViewMode
  {
    match b
    case NewDocumentButton => ToCreateMode
    case BackButton => ToViewMode
  }

  /**
   * The screen for a mode: "view" shows the new-document button over the saved documents;
   * "create" and "update" show the back button over the form; any other mode shows neither.
   */
  function Render(mode: string): (s: Screen)
    ensures s.button == NewDocumentButton <==> mode == ViewMode
    ensures s.button == BackButton <==> mode == CreateMode || mode == UpdateMode
    ensures s.panel == SavedDocumentsPanel <==> mode == ViewMode
    ensures s.panel == DocumentFormPanel <==> mode == CreateMode || mode == UpdateMode
    ensures s.button == NoButton <==> s.panel == NoPanel
  {
    var button := if mode == ViewMode then NewDocumentButton
                  else if mode == CreateMode || mode == UpdateMode then BackButton
                  else NoButton;
    var panel := if mode == ViewMode then SavedDocumentsPanel
                 else if mode == CreateMode || mode == UpdateMode then DocumentFormPanel
                 else NoPanel;
    Screen(button, panel)
  }

  /** The list and the form are never shown together, and in every mode of the session one of them is shown. */
  lemma RenderShowsOnePanel(mode: string)
    ensures IsMode(mode) <==> Render(mode).panel != NoPanel
    ensures IsMode(mode) ==> Render(mode).button != NoButton
  {
  }

  /** A click on the top button: the session switches mode, and the screen shows the other panel. */
  method ClickTopButton(session: DocumentSession)
    requires session.Valid() && Render(session.mode).button != NoButton
    modifies session
    ensures session.Valid()
    ensures old(Render(session.mode)).panel == SavedDocumentsPanel ==>
      session.mode == CreateMode && Render(session.mode).panel == DocumentFormPanel
    ensures old(Render(session.mode)).panel == DocumentFormPanel ==>
      session.mode == ViewMode && Render(session.mode).panel == SavedDocumentsPanel
    ensures session.title == "" && session.content == "" && session.updateId.None?
  {
    var action := OnClick(Render(session.mode).button);
    if action == ToCreateMode {
      session.SwitchToCreateMode();
    } else {
      session.SwitchToViewMode();
    }
  }
}
