/** Reports (`src/http/v1/report.rs`): the transaction status codec and the three
    report requests, including the parameter maps two of them build and never send. */
module V1Report {

  import opened Wrappers
  import opened Json
  import opened Text
  import opened Http

  const TRANSACTION_HISTORY_RESOURCE: string := "account/transactions"
  const ORDERS_REPORT_RESOURCE: string := "orders/buy"
  const MONTHLY_SUMMARY_BY_ASSET_RESOURCE: string := "users/reports/tax-currency-summary"

  datatype TransactionStatus =
    | Started
    | ApprovalRequired
    | ProcessingAutomaticWithdrawal
    | Confirmed
    | Done
    | Canceled
    | AdminHoldPendingReview

  /** The wire name: the variant name in lower case, with no separators. */
  function TransactionStatusName(t: TransactionStatus): string {
    match t
    case Started => "started"
    case ApprovalRequired => "approvalrequired"
    case ProcessingAutomaticWithdrawal => "processingautomaticwithdrawal"
    case Confirmed => "confirmed"
    case Done => "done"
    case Canceled => "canceled"
    case AdminHoldPendingReview => "adminholdpendingreview"
  }

  /** The derived decoder: a string naming one of the seven statuses, and nothing else. */
  function DecodeTransactionStatus(j: Json): (r: Decoded<TransactionStatus>)
    ensures r.Ok? <==> j.JStr? && exists t :: TransactionStatusName(t) == j.s
    ensures r.Ok? ==> j == JStr(TransactionStatusName(r.value))
    ensures j.JStr? && r.Err? ==> r.error == UnknownVariant(j.s)
  {
    var name :- VariantName(j);
    StatusNamed(name)
  }

  /** The status whose wire name is `name`. */
  function StatusNamed(name: string): (r: Decoded<TransactionStatus>)
    ensures r.Ok? <==> exists t :: TransactionStatusName(t) == name
    ensures r.Ok? ==> TransactionStatusName(r.value) == name
    ensures r.Err? ==> r.error == UnknownVariant(name)
  {
    if name == "started" then
      assert TransactionStatusName(Started) == name;
      Ok(Started)
    else if name == "approvalrequired" then
      assert TransactionStatusName(ApprovalRequired) == name;
      Ok(ApprovalRequired)
    else if name == "processingautomaticwithdrawal" then
      assert TransactionStatusName(ProcessingAutomaticWithdrawal) == name;
      Ok(ProcessingAutomaticWithdrawal)
    else if name == "confirmed" then
      assert TransactionStatusName(Confirmed) == name;
      Ok(Confirmed)
    else if name == "done" then
      assert TransactionStatusName(Done) == name;
      Ok(Done)
    else if name == "canceled" then
      assert TransactionStatusName(Canceled) == name;
      Ok(Canceled)
    else if name == "adminholdpendingreview" then
      assert TransactionStatusName(AdminHoldPendingReview) == name;
      Ok(AdminHoldPendingReview)
    else
      assert forall t :: TransactionStatusName(t) != name;
      Err(UnknownVariant(name))
  }

  /** Every status is read back from its wire name. */
  lemma TransactionStatusRoundTrip(t: TransactionStatus)
    ensures DecodeTransactionStatus(JStr(TransactionStatusName(t))) == Ok(t)
  {
  }

  /** The Rust spelling of a variant name is not a wire name. */
  lemma CamelCaseStatusRejected()
    ensures DecodeTransactionStatus(JStr("Done")).Err?
    ensures DecodeTransactionStatus(JStr("ApprovalRequired")).Err?
  {
    assert forall t :: TransactionStatusName(t)[0] != 'D' && TransactionStatusName(t)[0] != 'A';
  }

  /** The parameters `transaction_history` collects: each key exactly when its argument is given. */
  predicate HistoryParams(
    p: map<string, string>, from: Option<string>, to: Option<string>,
    limit: Option<Usize>, offset: Option<Usize>, types: Option<string>)
  {
    && p.Keys == KeyIf("from", from) + KeyIf("to", to) + KeyIf("limit", limit) + KeyIf("offset", offset) + KeyIf("types", types)
    && (from.Some? ==> p["from"] == from.value)
    && (to.Some? ==> p["to"] == to.value)
    && (limit.Some? ==> ParseNat(p["limit"]) == Some(limit.value as nat))
    && (offset.Some? ==> ParseNat(p["offset"]) == Some(offset.value as nat))
    && (types.Some? ==> p["types"] == types.value)
  }

  /** `transaction_history`: `built` is the map the function fills; the request itself
      carries no parameters. */
  method TransactionHistory(from: Option<string>, to: Option<string>, limit: Option<Usize>, offset: Option<Usize>, types: Option<string>)
    returns (r: Request, built: map<string, string>)
    ensures r == Request(Get, V1Resource(TRANSACTION_HISTORY_RESOURCE), None, JsonResponse)
    ensures HistoryParams(built, from, to, limit, offset, types)
  {
    var params: map<string, string> := map[];
    if from.Some? {
      params := params["from" := from.value];
    }
    if to.Some? {
      params := params["to" := to.value];
    }
    assert params.Keys == KeyIf("from", from) + KeyIf("to", to);
    assert from.Some? ==> params["from"] == from.value;
    if limit.Some? {
      params := params["limit" := NatToString(limit.value)];
      ParseNatToString(limit.value);
    }
    if offset.Some? {
      params := params["offset" := NatToString(offset.value)];
      ParseNatToString(offset.value);
    }
    assert params.Keys == KeyIf("from", from) + KeyIf("to", to) + KeyIf("limit", limit) + KeyIf("offset", offset);
    assert limit.Some? ==> ParseNat(params["limit"]) == Some(limit.value as nat);
    if types.Some? {
      params := params["types" := types.value];
    }
    built := params;
    r := Request(Get, V1Resource(TRANSACTION_HISTORY_RESOURCE), None, JsonResponse);
  }

  /** `orders_report`: the start/end map is built and dropped; the CSV report is fetched
      as text with no parameters. */
  method OrdersReport(end: Usize, start: Usize) returns (r: Request, built: map<string, Usize>)
    ensures r == Request(Get, V1Resource(ORDERS_REPORT_RESOURCE), None, TextResponse)
    ensures built.Keys == {"start", "end"} && built["start"] == start && built["end"] == end
  {
    var params: map<string, Usize> := map[];
    params := params["start" := start];
    params := params["end" := end];
    built := params;
    r := Request(Get, V1Resource(ORDERS_REPORT_RESOURCE), None, TextResponse);
  }

  /** The parameters of `monthly_summary_by_asset`: `currency` always, the bounds when given. */
  predicate SummaryParams(p: map<string, string>, currency: string, end: Option<Usize>, start: Option<Usize>) {
    && p.Keys == {"currency"} + KeyIf("end", end) + KeyIf("start", start)
    && p["currency"] == currency
    && (end.Some? ==> ParseNat(p["end"]) == Some(end.value as nat))
    && (start.Some? ==> ParseNat(p["start"]) == Some(start.value as nat))
  }

  /** `monthly_summary_by_asset`: the only report call that sends its map. */
  method MonthlySummaryByAsset(currency: string, end: Option<Usize>, start: Option<Usize>) returns (r: Request)
    ensures r.verb == Get && r.target == V1Resource(MONTHLY_SUMMARY_BY_ASSET_RESOURCE) && r.kind == TextResponse
    ensures r.params.Some? && SummaryParams(r.params.value, currency, end, start)
  {
    var params: map<string, string> := map[];
    params := params["currency" := currency];
    if end.Some? {
      params := params["end" := NatToString(end.value)];
      ParseNatToString(end.value);
    }
    if start.Some? {
      params := params["start" := NatToString(start.value)];
      ParseNatToString(start.value);
    }
    r := Request(Get, V1Resource(MONTHLY_SUMMARY_BY_ASSET_RESOURCE), Some(params), TextResponse);
  }

  /** With no arguments the history map is empty, and so is what is sent. */
  lemma NoHistoryArguments(p: map<string, string>)
    requires HistoryParams(p, None, None, None, None, None)
    ensures p == map[]
  {
    assert p.Keys == {};
  }
}
