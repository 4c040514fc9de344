/** The private account feeds (`src/websocket/message/account.rs`): the three feed
    names and the account-level payload records, whose fields are all strings but
    for the algorithm id. */
module Account {

  import opened Wrappers
  import opened Json

  const ACCOUNT_PREFIX: string := "private.user."

  const OPEN_ORDER_FEED: string := "private.user.open-orders"
  const BALANCE_FEED: string := "private.user.balances"
  const POST_TRADE_SETTLEMENT_FEED: string := "private.user.post-trade-settlement"

  /** Every account feed is `private.user.` followed by its own name, and the three are distinct. */
  lemma AccountFeeds()
    ensures OPEN_ORDER_FEED == ACCOUNT_PREFIX + "open-orders"
    ensures BALANCE_FEED == ACCOUNT_PREFIX + "balances"
    ensures POST_TRADE_SETTLEMENT_FEED == ACCOUNT_PREFIX + "post-trade-settlement"
    ensures OPEN_ORDER_FEED != BALANCE_FEED && BALANCE_FEED != POST_TRADE_SETTLEMENT_FEED
            && OPEN_ORDER_FEED != POST_TRADE_SETTLEMENT_FEED
  {
    assert OPEN_ORDER_FEED[13] == 'o' && BALANCE_FEED[13] == 'b' && POST_TRADE_SETTLEMENT_FEED[13] == 'p';
  }

  /** The six keys shared by the balance and post-trade settlement payloads. */
  const ExposureFields: seq<string> :=
    ["enabled", "equity", "equity_for_withdrawals", "available_exposure", "exposure", "exposure_limit"]

  /** `WsBalanceResponsePayload`. */
  datatype BalanceResponsePayload = BalanceResponsePayload(
    enabled: string, equity: string, equityForWithdrawals: string,
    availableExposure: string, exposure: string, exposureLimit: string)

  /** The six values, in field order. */
  function BalanceValues(p: BalanceResponsePayload): seq<string> {
    [p.enabled, p.equity, p.equityForWithdrawals, p.availableExposure, p.exposure, p.exposureLimit]
  }

  /** The derived decoder: an object is accepted exactly when all six keys hold strings,
      each of which is kept verbatim. */
  function DecodeBalanceResponsePayload(j: Json): (r: Decoded<BalanceResponsePayload>)
    ensures j.JObj? ==> (r.Ok? <==> forall k :: k in ExposureFields ==> k in j.fields && j.fields[k].JStr?)
    ensures j.JObj? && r.Ok? ==> forall i :: 0 <= i < 6 ==> j.fields[ExposureFields[i]] == JStr(BalanceValues(r.value)[i])
  {
    var m :- StructView(j, ExposureFields);
    var v :- StringsAt(m, ExposureFields);
    Ok(BalanceResponsePayload(v[0], v[1], v[2], v[3], v[4], v[5]))
  }

  /** `WsPostTradeSettlementResponsePayload`: the same six string fields. */
  datatype PostTradeSettlementResponsePayload = PostTradeSettlementResponsePayload(
    enabled: string, equity: string, equityForWithdrawals: string,
    availableExposure: string, exposure: string, exposureLimit: string)

  function PostTradeSettlementValues(p: PostTradeSettlementResponsePayload): seq<string> {
    [p.enabled, p.equity, p.equityForWithdrawals, p.availableExposure, p.exposure, p.exposureLimit]
  }

  function DecodePostTradeSettlementResponsePayload(j: Json): (r: Decoded<PostTradeSettlementResponsePayload>)
    ensures j.JObj? ==> (r.Ok? <==> forall k :: k in ExposureFields ==> k in j.fields && j.fields[k].JStr?)
    ensures j.JObj? && r.Ok? ==>
              forall i :: 0 <= i < 6 ==> j.fields[ExposureFields[i]] == JStr(PostTradeSettlementValues(r.value)[i])
  {
    var m :- StructView(j, ExposureFields);
    var v :- StringsAt(m, ExposureFields);
    Ok(PostTradeSettlementResponsePayload(v[0], v[1], v[2], v[3], v[4], v[5]))
  }

  /** `WsOrdersResponsePayload`. */
  datatype OrdersResponsePayload = OrdersResponsePayload(
    id: string, clientOrderId: string, status: string, filled: string, filledAmount: string,
    vwap: string, price: string, quantity: string, pair: string, action: string,
    orderType: string, algorithmId: Usize, fees: string)

  /** The string-valued keys, `order_type` read from `type`. */
  const OrdersStringFields: seq<string> :=
    ["id", "client_order_id", "status", "filled", "filled_amount", "vwap",
     "price", "quantity", "pair", "action", "type", "fees"]

  const OrdersFields: seq<string> := OrdersStringFields + ["algorithm_id"]

  function OrdersStringValues(p: OrdersResponsePayload): seq<string> {
    [p.id, p.clientOrderId, p.status, p.filled, p.filledAmount, p.vwap,
     p.price, p.quantity, p.pair, p.action, p.orderType, p.fees]
  }

  /** The derived decoder: twelve string keys and an unsigned `algorithm_id`. */
  function DecodeOrdersResponsePayload(j: Json): (r: Decoded<OrdersResponsePayload>)
    ensures j.JObj? ==> (r.Ok? <==> OrdersFieldsValid(j.fields))
    ensures j.JObj? && r.Ok? ==> OrdersFieldsHold(j.fields, r.value)
  {
    var m :- StructView(j, OrdersFields);
    assert forall k :: k in OrdersStringFields ==> k in OrdersFields;
    assert OrdersFields[12] == "algorithm_id";
    OrdersFrom(m)
  }

  /** The keys of an acceptable orders object and the types of their values. */
  predicate OrdersFieldsValid(m: map<string, Json>) {
    && (forall k :: k in OrdersStringFields ==> k in m && m[k].JStr?)
    && "algorithm_id" in m && DecodeUsize(m["algorithm_id"]).Ok?
  }

  /** What a decoded payload says about the fields it came from. */
  predicate OrdersFieldsHold(m: map<string, Json>, p: OrdersResponsePayload) {
    && (forall i :: 0 <= i < 12 ==> OrdersStringFields[i] in m && m[OrdersStringFields[i]] == JStr(OrdersStringValues(p)[i]))
    && "algorithm_id" in m && m["algorithm_id"] == UsizeJson(p.algorithmId)
  }

  function OrdersFrom(m: map<string, Json>): (r: Decoded<OrdersResponsePayload>)
    requires (forall k :: k in OrdersStringFields ==> k in m) && "algorithm_id" in m
    ensures r.Ok? <==> OrdersFieldsValid(m)
    ensures r.Ok? ==> OrdersFieldsHold(m, r.value)
  {
    var v :- StringsAt(m, OrdersStringFields);
    var algorithmId :- DecodeUsize(m["algorithm_id"]);
    Ok(OrdersPayloadOf(v, algorithmId))
  }

  function OrdersPayloadOf(v: seq<string>, algorithmId: Usize): (p: OrdersResponsePayload)
    requires |v| == 12
    ensures OrdersStringValues(p) == v && p.algorithmId == algorithmId
  {
    OrdersResponsePayload(v[0], v[1], v[2], v[3], v[4], v[5], v[6], v[7], v[8], v[9], v[10], algorithmId, v[11])
  }

  /** The order type is read from the key `type`: without it, nothing decodes. */
  lemma OrdersNeedTypeKey(m: map<string, Json>)
    requires "type" !in m
    ensures DecodeOrdersResponsePayload(JObj(m)).Err?
  {
  }

  /** An algorithm id written as a string or as a fraction is rejected. */
  lemma OrdersAlgorithmIdIsUnsigned(m: map<string, Json>, x: real)
    requires "algorithm_id" in m && (m["algorithm_id"].JStr? || m["algorithm_id"] == JNum(Float(x)))
    ensures DecodeOrdersResponsePayload(JObj(m)).Err?
  {
  }
}
