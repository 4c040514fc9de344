/** Post-trade settlement calls (`src/http/v1/post_trade_settlement.rs`). */
module V1PostTradeSettlement {

  import opened Wrappers
  import opened Http

  const POSITIONS_RESOURCE: string := "post-trade-settlement/positions"
  const STATUS_QUERY: string := "?status="

  function PostTradeSettlement(): (r: Request)
    ensures r.verb == Get && r.target == V1Resource("post-trade-settlement") && r.params.None?
  {
    Request(Get, V1Resource("post-trade-settlement"), None, JsonResponse)
  }

  function PostTradeSettlementInterest(): (r: Request)
    ensures r.verb == Get && r.target == V1Resource("post-trade-settlement/interest") && r.params.None?
  {
    Request(Get, V1Resource("post-trade-settlement/interest"), None, JsonResponse)
  }

  /** The resource of `post_trade_settlement_positions`: the status, whatever it is,
      is appended after `?status=` with no check. */
  function PositionsResource(status: Option<string>): (q: string)
    ensures status.None? ==> q == POSITIONS_RESOURCE
    ensures status.Some? ==>
              |q| == |POSITIONS_RESOURCE| + 8 + |status.value|
              && q[..|POSITIONS_RESOURCE|] == POSITIONS_RESOURCE
              && q[|POSITIONS_RESOURCE|..|POSITIONS_RESOURCE| + 8] == STATUS_QUERY
              && q[|POSITIONS_RESOURCE| + 8..] == status.value
  {
    match status
    case Some(s) => POSITIONS_RESOURCE + STATUS_QUERY + s
    case None => POSITIONS_RESOURCE
  }

  function PostTradeSettlementPositions(status: Option<string>): (r: Request)
    ensures r.verb == Get && r.target == V1Resource(PositionsResource(status)) && r.params.None?
  {
    Request(Get, V1Resource(PositionsResource(status)), None, JsonResponse)
  }

  /** The resource names the status it was given, and tells "no status" from any status
      (even the empty one). */
  lemma PositionsResourceInjective(a: Option<string>, b: Option<string>)
    requires PositionsResource(a) == PositionsResource(b)
    ensures a == b
  {
    var n := |POSITIONS_RESOURCE|;
    if a.Some? && b.Some? {
      assert a.value == PositionsResource(a)[n + 8..] == PositionsResource(b)[n + 8..] == b.value;
    }
  }

  /** `wallet_transfer`: the four transfer fields are collected into `built`, but the
      POST to `account/transfer` goes out without parameters; `show` is `f64::to_string`. */
  method WalletTransfer(currency: string, quantity: real, fromWallet: string, toWallet: string, show: real -> string)
    returns (r: Request, built: map<string, string>)
    ensures r == Request(Post, V1Resource("account/transfer"), None, JsonResponse)
    ensures built.Keys == {"currency", "quantity", "from_wallet", "to_wallet"}
    ensures built["currency"] == currency && built["quantity"] == show(quantity)
            && built["from_wallet"] == fromWallet && built["to_wallet"] == toWallet
  {
    var params: map<string, string> := map[];
    params := params["currency" := currency];
    params := params["quantity" := show(quantity)];
    params := params["from_wallet" := fromWallet];
    params := params["to_wallet" := toWallet];
    built := params;
    r := Request(Post, V1Resource("account/transfer"), None, JsonResponse);
  }
}
