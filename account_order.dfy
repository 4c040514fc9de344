/** The open-orders feed (`src/websocket/message/account/order.rs`): its topic and the
    order payload, whose ids are unsigned integers and whose amounts stay strings. */
module AccountOrder {

  import opened Wrappers
  import opened Json
  import Account

  const OPEN_ORDER_FEED: string := "private.user.open-orders"

  /** `open_order_feed()`: the same topic as the account module's constant. */
  function OpenOrderFeed(): (s: string)
    ensures s == Account.OPEN_ORDER_FEED
    ensures s == Account.ACCOUNT_PREFIX + "open-orders"
  {
    Account.AccountFeeds();
    OPEN_ORDER_FEED
  }

  /** `OrderPayload`. */
  datatype OrderPayload = OrderPayload(
    id: Usize, clientOrderId: string, status: string, filled: string, filledAmount: string,
    vwap: string, price: string, quantity: string, pair: string, action: string,
    orderType: string, algorithmId: Usize, fees: string)

  /** The string-valued keys, `order_type` read from `type`. */
  const StringFields: seq<string> :=
    ["client_order_id", "status", "filled", "filled_amount", "vwap",
     "price", "quantity", "pair", "action", "type", "fees"]

  const OrderFields: seq<string> := ["id"] + StringFields + ["algorithm_id"]

  function StringValues(p: OrderPayload): seq<string> {
    [p.clientOrderId, p.status, p.filled, p.filledAmount, p.vwap,
     p.price, p.quantity, p.pair, p.action, p.orderType, p.fees]
  }

  /** An acceptable object: two unsigned ids and eleven strings. */
  predicate OrderFieldsValid(m: map<string, Json>) {
    && "id" in m && DecodeUsize(m["id"]).Ok?
    && (forall k :: k in StringFields ==> k in m && m[k].JStr?)
    && "algorithm_id" in m && DecodeUsize(m["algorithm_id"]).Ok?
  }

  /** What a decoded payload says about the fields it came from. */
  predicate OrderFieldsHold(m: map<string, Json>, p: OrderPayload) {
    && "id" in m && m["id"] == UsizeJson(p.id)
    && (forall i :: 0 <= i < 11 ==> StringFields[i] in m && m[StringFields[i]] == JStr(StringValues(p)[i]))
    && "algorithm_id" in m && m["algorithm_id"] == UsizeJson(p.algorithmId)
  }

  function PayloadOf(id: Usize, v: seq<string>, algorithmId: Usize): (p: OrderPayload)
    requires |v| == 11
    ensures p.id == id && StringValues(p) == v && p.algorithmId == algorithmId
  {
    OrderPayload(id, v[0], v[1], v[2], v[3], v[4], v[5], v[6], v[7], v[8], v[9], algorithmId, v[10])
  }

  function OrderFrom(m: map<string, Json>): (r: Decoded<OrderPayload>)
    requires "id" in m && "algorithm_id" in m && forall k :: k in StringFields ==> k in m
    ensures r.Ok? <==> OrderFieldsValid(m)
    ensures r.Ok? ==> OrderFieldsHold(m, r.value)
  {
    var id :- DecodeUsize(m["id"]);
    var v :- StringsAt(m, StringFields);
    var algorithmId :- DecodeUsize(m["algorithm_id"]);
    Ok(PayloadOf(id, v, algorithmId))
  }

  /** The derived decoder. */
  function DecodeOrderPayload(j: Json): (r: Decoded<OrderPayload>)
    ensures j.JObj? ==> (r.Ok? <==> OrderFieldsValid(j.fields))
    ensures j.JObj? && r.Ok? ==> OrderFieldsHold(j.fields, r.value)
  {
    var m :- StructView(j, OrderFields);
    assert forall k :: k in StringFields ==> k in OrderFields;
    OrderFrom(m)
  }

  /** Here the order id is a number: the string id of the account module's record is rejected. */
  lemma StringIdRejected(m: map<string, Json>, id: string)
    ensures DecodeOrderPayload(JObj(m["id" := JStr(id)])).Err?
  {
  }

  /** The order type is read from the key `type`. */
  lemma OrderTypeFromTypeKey(m: map<string, Json>)
    requires DecodeOrderPayload(JObj(m)).Ok?
    ensures "type" in m && m["type"] == JStr(DecodeOrderPayload(JObj(m)).value.orderType)
  {
    var p := DecodeOrderPayload(JObj(m)).value;
    assert StringFields[9] == "type" && StringValues(p)[9] == p.orderType;
  }
}
