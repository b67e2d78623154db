/**
 * The shared document session: the title, content and id of the document being edited,
 * the list of saved documents, and the mode that decides which screen is shown. Network
 * calls are recorded as requests; their outcomes are parameters of the operations.
 */
module DocumentContext {
  import opened Wrappers
  import opened JsText
  import opened GraphQLResponse

  const ViewMode: string := "view"
  const CreateMode: string := "create"
  const UpdateMode: string := "update"

  /** The message shown when an update is attempted with a blank title or content. */
  const EmptyFieldsAlert: string := "Neither the Title nor Content fields can be empty."

  /** The message of the TypeError thrown when a body's `errors` list is empty and its first entry is read. */
  const MissingFirstErrorMessage: string := "Cannot read properties of undefined (reading 'message')"

  /** A saved document as the backend returns it. */
  datatype DocRecord = DocRecord(id: string, title: string, content: string, code: bool)

  /** An entry of the comments list a document is created with. */
  datatype CommentRecord = CommentRecord(id: string, text: string)

  /** The variables of the `createDocument` mutation. */
  datatype CreateVariables = CreateVariables(title: string, content: string, code: bool, comments: seq<CommentRecord>)

  /** A request sent to the backend. */
  datatype Request =
    | ListRequest                                                  // GetDocuments query
    | CreateRequest(variables: CreateVariables)                    // createDocument mutation
    | LoadRequest(id: string)                                      // GetDocument query
    | UpdateRequest(id: string, title: string, content: string)    // PUT /documents/update
    | DeleteRequest(id: string)                                    // DELETE /documents/delete

  /** The variables every new document is created with: an untitled, empty text document without comments. */
  function DefaultCreateVariables(): (v: CreateVariables)
    ensures v.title == "Untitled" && v.content == "" && !v.code && v.comments == []
  {
    CreateVariables("Untitled", "", false, [])
  }

  /** The modes the session moves between. */
  predicate IsMode(m: string) {
    m == ViewMode || m == CreateMode || m == UpdateMode
  }

  /** The text of the confirmation asked before a delete. */
  function DeletePrompt(title: string): string {
    "Are you sure that you want to delete the document titled \"" + title + "\"?"
  }

  /** The first document of the list with the given id, if any (`Array.prototype.find`). */
  function Find(docs: seq<DocRecord>, id: string): (r: Option<DocRecord>)
    ensures r.Some? ==> r.value in docs && r.value.id == id
    ensures r.Some? ==> exists k :: 0 <= k < |docs| && docs[k] == r.value && forall j :: 0 <= j < k ==> docs[j].id != id
    ensures r.None? ==> forall d :: d in docs ==> d.id != id
  {
    if docs == [] then None
    else if docs[0].id == id then Some(docs[0])
    else
      var r := Find(docs[1..], id);
      assert r.Some? ==> exists k :: 0 <= k < |docs| && docs[k] == r.value && forall j :: 0 <= j < k ==> docs[j].id != id by {
        if r.Some? {
          var k' :| 0 <= k' < |docs[1..]| && docs[1..][k'] == r.value && forall j :: 0 <= j < k' ==> docs[1..][j].id != id;
          assert docs[k' + 1] == r.value;
          assert forall j :: 0 <= j < k' + 1 ==> docs[j].id != id by {
            forall j | 0 <= j < k' + 1 ensures docs[j].id != id {
              if j > 0 { assert docs[j] == docs[1..][j - 1]; }
            }
          }
        }
      }
      r
  }

  /**
   * How the document-list fetch reads a GraphQL response: the status line when not ok
   * (the body is not read), else the first error's message when the body has errors,
   * else the documents.
   */
  function DocumentsOutcome(res: HttpResponse<seq<DocRecord>>): (r: Result<seq<DocRecord>, string>)
    ensures r.Success? ==> r.value == res.body.data
    ensures !res.ok ==> r == Failure("Status: " + NatToString(res.status))
  {
    if !res.ok then Failure("Status: " + NatToString(res.status))
    else match res.body.errors
      case Some(es) =>
        if |es| == 0 then Failure(MissingFirstErrorMessage)
        else Failure(if es[0].message.Some? then es[0].message.value else "")
      case None => Success(res.body.data)
  }

  /**
   * The document-list fetch and `validateGraphQLResponse` accept and reject the same responses,
   * and when the first GraphQL error has a message both report that message.
   */
  lemma DocumentsOutcomeAgreesWithValidation(res: HttpResponse<seq<DocRecord>>)
    ensures DocumentsOutcome(res).Success? <==> ValidateGraphQLResponse(res).Success?
    ensures DocumentsOutcome(res).Success? ==> DocumentsOutcome(res).value == ValidateGraphQLResponse(res).value.data
    ensures res.ok && FirstErrorMessage(res.body).Some? ==>
      DocumentsOutcome(res) == Failure(FirstErrorMessage(res.body).value)
      && ValidateGraphQLResponse(res) == Failure(FirstErrorMessage(res.body).value)
  {
  }

  /** The document session: the state the context provides to the document components. */
  class DocumentSession {
    var title: string
    var content: string
    /** `documents.data`; `None` while the state still holds its initial empty array, which has no `data`. */
    var documents: Option<seq<DocRecord>>
    var updateId: Option<string>
    var mode: string
    /** Every request sent to the backend, in order. */
    var requests: seq<Request>
    /** Every alert shown to the user, in order. */
    var alerts: seq<string>
    /** Every confirmation asked of the user, in order. */
    var prompts: seq<string>

    /** The mode is always one of the three the session knows. */
    predicate Valid()
      reads this
    {
      IsMode(mode)
    }

    /** The initial state: empty title and content, no documents, no document selected, view mode; the list is fetched. */
    constructor ()
      ensures Valid()
      ensures title == "" && content == "" && documents == None && updateId == None && mode == ViewMode
      ensures requests == [ListRequest] && alerts == [] && prompts == []
    {
      title := "";
      content := "";
      documents := None;
      updateId := None;
      mode := ViewMode;
      requests := [];
      alerts := [];
      prompts := [];
      new;
      GetAllDocuments();
    }

    /** getAllDocuments, first half: the list is requested. */
    method GetAllDocuments()
      modifies this`requests
      ensures requests == old(requests) + [ListRequest]
    {
      requests := requests + [ListRequest];
    }

    /** getAllDocuments, second half: an accepted response replaces the list, a rejected one is alerted. */
    method OnDocumentsResponse(res: HttpResponse<seq<DocRecord>>)
      requires Valid()
      modifies this`documents, this`alerts
      ensures Valid()
      ensures DocumentsOutcome(res).Success? ==>
        documents == Some(res.body.data) && alerts == old(alerts)
      ensures DocumentsOutcome(res).Failure? ==>
        documents == old(documents) && alerts == old(alerts) + [DocumentsOutcome(res).error]
    {
      var outcome := DocumentsOutcome(res);
      if outcome.Success? {
        documents := Some(outcome.value);
      } else {
        alerts := alerts + [outcome.error];
      }
    }

    /** resetState: title and content are cleared, no document is selected, and the list is fetched again. */
    method ResetState()
      requires Valid()
      modifies this`title, this`content, this`updateId, this`requests
      ensures Valid()
      ensures title == "" && content == "" && updateId == None
      ensures requests == old(requests) + [ListRequest]
    {
      title := "";
      content := "";
      updateId := None;
      GetAllDocuments();
    }

    /** switchToCreateMode: cleared fields, create mode. */
    method SwitchToCreateMode()
      requires Valid()
      modifies this`title, this`content, this`updateId, this`requests, this`mode
      ensures Valid()
      ensures title == "" && content == "" && updateId == None && mode == CreateMode
      ensures requests == old(requests) + [ListRequest]
    {
      ResetState();
      mode := CreateMode;
    }

    /** switchToViewMode: cleared fields, view mode. */
    method SwitchToViewMode()
      requires Valid()
      modifies this`title, this`content, this`updateId, this`requests, this`mode
      ensures Valid()
      ensures title == "" && content == "" && updateId == None && mode == ViewMode
      ensures requests == old(requests) + [ListRequest]
    {
      ResetState();
      mode := ViewMode;
    }

    /**
     * createDocument: an untitled empty text document is requested; when the response is
     * accepted the session returns to view mode, otherwise the error is alerted.
     */
    method CreateDocument(res: HttpResponse<string>)
      requires Valid()
      modifies this
      ensures Valid()
      ensures |requests| >= |old(requests)| + 1
      ensures requests[|old(requests)|] == CreateRequest(DefaultCreateVariables())
      ensures requests[..|old(requests)|] == old(requests)
      ensures documents == old(documents) && prompts == old(prompts)
      ensures !res.ok ==> alerts == old(alerts) + ["Status: " + NatToString(res.status)]
      ensures ValidateGraphQLResponse(res).Success? ==>
        mode == ViewMode && title == "" && content == "" && updateId == None
        && requests == old(requests) + [CreateRequest(DefaultCreateVariables()), ListRequest]
        && alerts == old(alerts)
      ensures ValidateGraphQLResponse(res).Failure? ==>
        mode == old(mode) && title == old(title) && content == old(content) && updateId == old(updateId)
        && requests == old(requests) + [CreateRequest(DefaultCreateVariables())]
        && |alerts| == |old(alerts)| + 1
    {
      var variables := DefaultCreateVariables();
      requests := requests + [CreateRequest(variables)];
      if !res.ok {
        alerts := alerts + ["Status: " + NatToString(res.status)];
        return;
      }
      match res.body.errors {
        case Some(es) =>
          var message := if |es| == 0 then MissingFirstErrorMessage
                         else if es[0].message.Some? then es[0].message.value else "";
          alerts := alerts + [message];
        case None =>
          SwitchToViewMode();
      }
    }

    /**
     * updateDocument: nothing happens without a selected document; a blank title or content
     * is refused with an alert before any request; otherwise the update is requested and a
     * successful response returns the session to view mode.
     */
    method UpdateDocument(succeeded: bool)
      requires Valid()
      modifies this
      ensures Valid()
      ensures documents == old(documents) && prompts == old(prompts)
      ensures !IsSetId(old(updateId)) ==>
        title == old(title) && content == old(content) && updateId == old(updateId) && mode == old(mode)
        && requests == old(requests) && alerts == old(alerts)
      ensures IsSetId(old(updateId)) && (AllSpace(old(title)) || AllSpace(old(content))) ==>
        title == old(title) && content == old(content) && updateId == old(updateId) && mode == old(mode)
        && requests == old(requests) && alerts == old(alerts) + [EmptyFieldsAlert]
      ensures IsSetId(old(updateId)) && !AllSpace(old(title)) && !AllSpace(old(content)) ==>
        alerts == old(alerts)
      ensures IsSetId(old(updateId)) && !AllSpace(old(title)) && !AllSpace(old(content)) && succeeded ==>
        requests == old(requests) + [UpdateRequest(old(updateId).value, old(title), old(content)), ListRequest]
        && mode == ViewMode && title == "" && content == "" && updateId == None
      ensures IsSetId(old(updateId)) && !AllSpace(old(title)) && !AllSpace(old(content)) && !succeeded ==>
        requests == old(requests) + [UpdateRequest(old(updateId).value, old(title), old(content))]
        && mode == old(mode) && title == old(title) && content == old(content) && updateId == old(updateId)
    {
      if !IsSetId(updateId) {
        return;
      }
      if AllSpace(title) || AllSpace(content) {
        alerts := alerts + [EmptyFieldsAlert];
        return;
      }
      requests := requests + [UpdateRequest(updateId.value, title, content)];
      if succeeded {
        SwitchToViewMode();
      }
    }

    /**
     * deleteDocument: the document is looked up in the list (a missing list or document throws
     * before anything is asked); the user is asked to confirm with its title, and only a
     * confirmed delete is requested; a successful one returns the session to view mode.
     */
    method DeleteDocument(deleteId: string, confirmed: bool, succeeded: bool) returns (threw: bool)
      requires Valid()
      modifies this
      ensures Valid()
      ensures documents == old(documents) && alerts == old(alerts)
      ensures threw <==> old(documents).None? || Find(old(documents).value, deleteId).None?
      ensures threw ==> prompts == old(prompts) && requests == old(requests)
      ensures threw ==> mode == old(mode) && title == old(title) && content == old(content) && updateId == old(updateId)
      ensures !threw ==> prompts == old(prompts) + [DeletePrompt(Find(old(documents).value, deleteId).value.title)]
      ensures !threw && !confirmed ==>
        requests == old(requests) && mode == old(mode) && title == old(title) && content == old(content)
        && updateId == old(updateId)
      ensures !threw && confirmed && succeeded ==>
        requests == old(requests) + [DeleteRequest(deleteId), ListRequest]
        && mode == ViewMode && title == "" && content == "" && updateId == None
      ensures !threw && confirmed && !succeeded ==>
        requests == old(requests) + [DeleteRequest(deleteId)]
        && mode == old(mode) && title == old(title) && content == old(content) && updateId == old(updateId)
    {
      if documents.None? {
        return true;
      }
      var documentToDelete := Find(documents.value, deleteId);
      if documentToDelete.None? {
        return true;
      }
      threw := false;
      prompts := prompts + [DeletePrompt(documentToDelete.value.title)];
      if confirmed {
        requests := requests + [DeleteRequest(deleteId)];
        if succeeded {
          SwitchToViewMode();
        }
      }
    }

    /**
     * loadDocument: the document is requested; when the response is ok and carries the
     * document, its title, content and id are taken over and the session enters update mode.
     */
    method LoadDocument(id: string, res: HttpResponse<Option<DocRecord>>)
      requires Valid()
      modifies this
      ensures Valid()
      ensures requests == old(requests) + [LoadRequest(id)]
      ensures documents == old(documents) && alerts == old(alerts) && prompts == old(prompts)
      ensures res.ok && res.body.data.Some? ==>
        title == res.body.data.value.title && content == res.body.data.value.content
        && updateId == Some(res.body.data.value.id) && mode == UpdateMode
      ensures !(res.ok && res.body.data.Some?) ==>
        title == old(title) && content == old(content) && updateId == old(updateId) && mode == old(mode)
    {
      requests := requests + [LoadRequest(id)];
      if !res.ok || res.body.data.None? {
        return;
      }
      var selected := res.body.data.value;
      title := selected.title;
      content := selected.content;
      updateId := Some(selected.id);
      mode := UpdateMode;
    }
  }
}
