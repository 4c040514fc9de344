/** Custody and approvals (`src/http/v1/custody.rs`): the approval rule types, the
    paths and queries of the custody calls, and their parameter maps. */
module V1Custody {

  import opened Wrappers
  import opened Json
  import opened Text
  import opened Http

  const APPROVAL_RULES_RESOURCE: string := "approval-rules"
  const APPROVAL_RESOURCE: string := "approvals"
  const CUSTODY_RESOURCE: string := "whitelisted-addresses"

  datatype ApprovalRuleType = AddAlterColl | AlterSafe | Withdraw

  /** The renamed wire name of each rule type. */
  function ApprovalRuleTypeName(t: ApprovalRuleType): string {
    match t
    case AddAlterColl => "ADD_ALTER_COLL"
    case AlterSafe => "ALTER_SAFE"
    case Withdraw => "WITHDRAW"
  }

  /** The derived decoder: only the three wire names are accepted. */
  function DecodeApprovalRuleType(j: Json): (r: Decoded<ApprovalRuleType>)
    ensures r.Ok? <==> j == JStr("ADD_ALTER_COLL") || j == JStr("ALTER_SAFE") || j == JStr("WITHDRAW")
    ensures r.Ok? ==> j == JStr(ApprovalRuleTypeName(r.value))
  {
    var name :- VariantName(j);
    if name == "ADD_ALTER_COLL" then Ok(AddAlterColl)
    else if name == "ALTER_SAFE" then Ok(AlterSafe)
    else if name == "WITHDRAW" then Ok(Withdraw)
    else Err(UnknownVariant(name))
  }

  /** Every rule type is read back from its wire name; the Rust variant names are not accepted. */
  lemma ApprovalRuleTypeRoundTrip(t: ApprovalRuleType)
    ensures DecodeApprovalRuleType(JStr(ApprovalRuleTypeName(t))) == Ok(t)
    ensures DecodeApprovalRuleType(JStr("Withdraw")).Err?
  {
    assert "Withdraw" != "WITHDRAW" by { assert "Withdraw"[1] != "WITHDRAW"[1]; }
  }

  function CustodyAddresses(): (r: Request)
    ensures r.verb == Get && r.target == V1Resource(CUSTODY_RESOURCE) && r.params.None?
  {
    Request(Get, V1Resource(CUSTODY_RESOURCE), None, JsonResponse)
  }

  /** `add_custody_address`: a POST of exactly `alias`, `currency_symbol` and `address`. */
  method AddCustodyAddress(alias: string, currencySymbol: string, address: string) returns (r: Request)
    ensures r.verb == Post && r.target == V1Resource(CUSTODY_RESOURCE) && r.params.Some?
    ensures r.params.value.Keys == {"alias", "currency_symbol", "address"}
    ensures r.params.value["alias"] == alias && r.params.value["currency_symbol"] == currencySymbol
            && r.params.value["address"] == address
  {
    var params: map<string, string> := map[];
    params := params["alias" := alias];
    params := params["currency_symbol" := currencySymbol];
    params := params["address" := address];
    r := Request(Post, V1Resource(CUSTODY_RESOURCE), Some(params), JsonResponse);
  }

  function ApprovalRules(): (r: Request)
    ensures r.verb == Get && r.target == V1Resource(APPROVAL_RULES_RESOURCE) && r.params.None?
  {
    Request(Get, V1Resource(APPROVAL_RULES_RESOURCE), None, JsonResponse)
  }

  /** `add_approval_rule`: the rule type and the two counts, in decimal. */
  method AddApprovalRule(ruleType: string, requiredApprovals: Usize, threshold: Usize) returns (r: Request)
    ensures r.verb == Post && r.target == V1Resource(APPROVAL_RULES_RESOURCE) && r.params.Some?
    ensures r.params.value.Keys == {"rule_type", "required_approvals", "threshold"}
    ensures r.params.value["rule_type"] == ruleType
    ensures ParseNat(r.params.value["required_approvals"]) == Some(requiredApprovals as nat)
    ensures ParseNat(r.params.value["threshold"]) == Some(threshold as nat)
  {
    var params: map<string, string> := map[];
    params := params["rule_type" := ruleType];
    params := params["required_approvals" := NatToString(requiredApprovals)];
    params := params["threshold" := NatToString(threshold)];
    ParseNatToString(requiredApprovals);
    ParseNatToString(threshold);
    r := Request(Post, V1Resource(APPROVAL_RULES_RESOURCE), Some(params), JsonResponse);
  }

  /** `format!("{}/{}", resource, id)`. */
  function IdPath(resource: string, id: Usize): (s: string)
    ensures |s| > |resource| + 1 && s[..|resource|] == resource && s[|resource|] == '/'
    ensures s[|resource| + 1..] == NatToString(id)
  {
    resource + "/" + NatToString(id)
  }

  /** `edit_approval_rule`: a PATCH of `approval-rules/<id>`; `show` is `f64::to_string`. */
  method EditApprovalRule(id: Usize, requiredApprovals: Usize, threshold: real, show: real -> string) returns (r: Request)
    ensures r.verb == Patch && r.target == V1Resource(IdPath(APPROVAL_RULES_RESOURCE, id)) && r.params.Some?
    ensures r.params.value.Keys == {"required_approvals", "threshold"}
    ensures ParseNat(r.params.value["required_approvals"]) == Some(requiredApprovals as nat)
    ensures r.params.value["threshold"] == show(threshold)
  {
    var params: map<string, string> := map[];
    params := params["required_approvals" := NatToString(requiredApprovals)];
    params := params["threshold" := show(threshold)];
    ParseNatToString(requiredApprovals);
    r := Request(Patch, V1Resource(IdPath(APPROVAL_RULES_RESOURCE, id)), Some(params), JsonResponse);
  }

  /** `approval_requests`: `?pending=true` is appended to the URL only for pending requests. */
  method ApprovalRequests(pending: bool) returns (r: Request)
    ensures r.verb == Get && r.params.None?
    ensures r.target.V1? && r.target.resource == APPROVAL_RESOURCE
    ensures r.target.suffix == if pending then "?pending=true" else ""
  {
    var suffix := "";
    if pending {
      suffix := suffix + "?pending=true";
    }
    r := Request(Get, V1(APPROVAL_RESOURCE, suffix), None, JsonResponse);
  }

  /** `respond_to_approval_request`: a POST to `approvals/<id>` with `approve` as `true` or `false`. */
  method RespondToApprovalRequest(id: Usize, approve: bool) returns (r: Request)
    ensures r.verb == Post && r.target == V1Resource(IdPath(APPROVAL_RESOURCE, id)) && r.params.Some?
    ensures r.params.value.Keys == {"approve"}
    ensures r.params.value["approve"] == (if approve then "true" else "false")
  {
    var params: map<string, string> := map[];
    params := params["approve" := BoolText(approve)];
    r := Request(Post, V1Resource(IdPath(APPROVAL_RESOURCE, id)), Some(params), JsonResponse);
  }

  /** Rule and approval paths never collide, and each names its id. */
  lemma IdPathsDistinct(a: Usize, b: Usize)
    ensures IdPath(APPROVAL_RULES_RESOURCE, a) != IdPath(APPROVAL_RESOURCE, b)
    ensures IdPath(APPROVAL_RESOURCE, a) == IdPath(APPROVAL_RESOURCE, b) ==> a == b
  {
    var r, q := IdPath(APPROVAL_RULES_RESOURCE, a), IdPath(APPROVAL_RESOURCE, b);
    assert r[8] == r[..14][8] == '-';
    assert q[8] == q[..9][8] == 's';
    if IdPath(APPROVAL_RESOURCE, a) == IdPath(APPROVAL_RESOURCE, b) {
      NatToStringInjective(a, b);
    }
  }
}
