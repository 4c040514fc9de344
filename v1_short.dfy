/** Short positions (`src/http/v1/short.rs`): the loan metrics path and the loan
    positions query with its status check. */
module V1Short {

  import opened Wrappers
  import opened Http

  function LoanMetrics(): (r: Request)
    ensures r.verb == Get && r.target == V1Resource("margin/account") && r.params.None?
  {
    Request(Get, V1Resource("margin/account"), None, JsonResponse)
  }

  const LOANS_RESOURCE: string := "margin/loans"

  /** `loan_positions`: no status lists every loan; `active` and `closed` (exactly, case
      included) filter by status; any other status is refused before any request is made. */
  function LoanPositions(status: Option<string>): (r: Result<Request, HttpError>)
    ensures r.Err? <==> status.Some? && status.value != "active" && status.value != "closed"
    ensures r.Err? ==> r.error == InvalidRequest("Invalid status: " + status.value)
    ensures r.Ok? ==> r.value.verb == Get && r.value.params.None? && r.value.kind == JsonResponse
    ensures r.Ok? && status.None? ==> r.value.target == V1Resource(LOANS_RESOURCE)
    ensures r.Ok? && status.Some? ==> r.value.target == V1Resource(LOANS_RESOURCE + "?status=" + status.value)
  {
    match status
    case Some(s) =>
      if s != "active" && s != "closed" then Err(InvalidRequest("Invalid status: " + s))
      else Ok(Request(Get, V1Resource(LOANS_RESOURCE + "?status=" + s), None, JsonResponse))
    case None => Ok(Request(Get, V1Resource(LOANS_RESOURCE), None, JsonResponse))
  }

  /** The check is case-sensitive: `Active` is refused. */
  lemma StatusCaseSensitive()
    ensures LoanPositions(Some("Active")) == Err(InvalidRequest("Invalid status: " + "Active"))
  {
    assert "Active"[0] != "active"[0] && "Active" != "closed";
  }
}
