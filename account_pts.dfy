/** The post-trade settlement feed (`src/websocket/message/account/post_trade_settlement.rs`):
    its topic and its payload of six strings. */
module AccountPostTradeSettlement {

  import opened Wrappers
  import opened Json
  import Account

  const POST_TRADE_SETTLEMENT_FEED: string := "private.user.post-trade-settlement"

  /** `post_trade_settlement_feed()`: distinct from the balance and open-order topics. */
  function PostTradeSettlementFeed(): (s: string)
    ensures s == Account.POST_TRADE_SETTLEMENT_FEED
    ensures s != Account.BALANCE_FEED && s != Account.OPEN_ORDER_FEED
  {
    Account.AccountFeeds();
    POST_TRADE_SETTLEMENT_FEED
  }

  /** `PostTradeSettlementPayload`. */
  datatype PostTradeSettlementPayload = PostTradeSettlementPayload(
    enabled: string, equity: string, equityForWithdrawals: string,
    availableExposure: string, exposure: string, exposureLimit: string)

  const PayloadFields: seq<string> :=
    ["enabled", "equity", "equity_for_withdrawals", "available_exposure", "exposure", "exposure_limit"]

  function Values(p: PostTradeSettlementPayload): seq<string> {
    [p.enabled, p.equity, p.equityForWithdrawals, p.availableExposure, p.exposure, p.exposureLimit]
  }

  /** The derived decoder: all six keys required, every value a string kept verbatim. */
  function DecodePayload(j: Json): (r: Decoded<PostTradeSettlementPayload>)
    ensures j.JObj? ==> (r.Ok? <==> forall k :: k in PayloadFields ==> k in j.fields && j.fields[k].JStr?)
    ensures j.JObj? && r.Ok? ==> forall i :: 0 <= i < 6 ==> j.fields[PayloadFields[i]] == JStr(Values(r.value)[i])
  {
    var m :- StructView(j, PayloadFields);
    var v :- StringsAt(m, PayloadFields);
    Ok(PostTradeSettlementPayload(v[0], v[1], v[2], v[3], v[4], v[5]))
  }

  /** A numeric value is not converted: it makes the payload fail. */
  lemma NumberRejected(m: map<string, Json>, k: string, n: Number)
    requires k in PayloadFields
    ensures DecodePayload(JObj(m[k := JNum(n)])).Err?
  {
  }
}
