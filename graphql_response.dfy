/**
 * The decision every GraphQL call makes about a fetch response: throw, with which
 * message, or hand back the parsed body. A GraphQL server may report errors with
 * status 200, so both the HTTP flag and the body's `errors` list are consulted.
 */
module GraphQLResponse {
  import opened Wrappers
  import opened JsText

  /** One entry of a body's `errors` list; its `message` may be missing. */
  datatype GqlError = GqlError(message: Option<string>)

  /** A parsed JSON body: `errors` is absent (`null`/`undefined`) or a list, which is truthy even when empty. */
  datatype Body<D> = Body(errors: Option<seq<GqlError>>, data: D)

  /** What the fetch API reports: `ok`, `status`, `statusText`, and the body `res.json()` parses to. */
  datatype HttpResponse<D> = HttpResponse(ok: bool, status: nat, statusText: string, body: Body<D>)

  /** The message of the body's first error, when there is a first error and it has a message. */
  function FirstErrorMessage<D>(body: Body<D>): (m: Option<string>)
    ensures m.Some? <==> body.errors.Some? && |body.errors.value| > 0 && body.errors.value[0].message.Some?
    ensures m.Some? ==> m.value == body.errors.value[0].message.value
  {
    match body.errors
    case Some(es) => if |es| > 0 then es[0].message else None
    case None => None
  }

  /** The fallback message built from the status line. */
  function StatusMessage(status: nat, statusText: string): string
  {
    "HTTP " + NatToString(status) + " " + statusText
  }

  /** `validateGraphQLResponse`: the body on success, otherwise the message of the error it throws. */
  function ValidateGraphQLResponse<D>(res: HttpResponse<D>): (r: Result<Body<D>, string>)
    ensures r.Failure? <==> !res.ok || res.body.errors.Some?
    ensures r.Success? ==> r.value == res.body
    ensures r.Failure? && FirstErrorMessage(res.body).Some? ==> r.error == FirstErrorMessage(res.body).value
    ensures r.Failure? && FirstErrorMessage(res.body).None? ==> r.error == StatusMessage(res.status, res.statusText)
  {
    if !res.ok || res.body.errors.Some? then
      var first := FirstErrorMessage(res.body);
      Failure(if first.Some? then first.value else StatusMessage(res.status, res.statusText))
    else
      Success(res.body)
  }

  /**
   * Without a first GraphQL error message, the error is the status line: `"HTTP "`, the status
   * code in decimal, a space, and the status text.
   */
  lemma FallbackMessageShape<D>(res: HttpResponse<D>)
    requires ValidateGraphQLResponse(res).Failure?
    requires FirstErrorMessage(res.body).None?
    ensures |ValidateGraphQLResponse(res).error| == 6 + |NatToString(res.status)| + |res.statusText|
    ensures ValidateGraphQLResponse(res).error[..5] == "HTTP "
    ensures ValidateGraphQLResponse(res).error[5..5 + |NatToString(res.status)|] == NatToString(res.status)
    ensures ValidateGraphQLResponse(res).error[5 + |NatToString(res.status)|] == ' '
    ensures ValidateGraphQLResponse(res).error[6 + |NatToString(res.status)|..] == res.statusText
  {
  }

  /** Two rejected responses without error messages get the same message only if their status codes agree. */
  lemma StatusMessageDeterminesStatus(a: nat, b: nat, text: string)
    requires StatusMessage(a, text) == StatusMessage(b, text)
    ensures a == b
  {
    var sa, sb := NatToString(a), NatToString(b);
    var ma, mb := StatusMessage(a, text), StatusMessage(b, text);
    assert |sa| == |sb|;
    assert sa == ma[5..5 + |sa|] == mb[5..5 + |sb|] == sb;
    NatToStringInjective(a, b);
  }

  /** A GraphQL error reported with status 200 is still rejected, with the server's message when it has one. */
  lemma ErrorsWithOkStatusThrow<D>(res: HttpResponse<D>, m: string)
    requires res.ok && res.body.errors.Some? && |res.body.errors.value| > 0
    requires res.body.errors.value[0].message == Some(m)
    ensures ValidateGraphQLResponse(res) == Failure(m)
  {
  }

  /** An empty `errors` list is truthy, so it is rejected, and the message falls back to the status line. */
  lemma EmptyErrorListThrows<D>(res: HttpResponse<D>)
    requires res.body.errors == Some([])
    ensures ValidateGraphQLResponse(res) == Failure(StatusMessage(res.status, res.statusText))
  {
  }
}
