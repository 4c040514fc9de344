/** Public trade feed messages (`src/websocket/message/market/trades.rs`): the trade
    topic, the closed `TransactionSide` enum and the trade payload. */
module MarketTrades {

  import opened Wrappers
  import opened Json
  import opened WsMessage

  datatype TransactionSide = Buy | Sell

  /** The derived decoder of the unit enum: only the variant names themselves. */
  function DecodeTransactionSide(j: Json): (r: Decoded<TransactionSide>)
    ensures r.Ok? <==> j == JStr("Buy") || j == JStr("Sell")
    ensures r == Ok(Buy) <==> j == JStr("Buy")
  {
    var name :- VariantName(j);
    if name == "Buy" then Ok(Buy)
    else if name == "Sell" then Ok(Sell)
    else Err(UnknownVariant(name))
  }

  /** An unknown side is an error naming it, never a default. */
  lemma UnknownSideRejected(s: string)
    requires s != "Buy" && s != "Sell"
    ensures DecodeTransactionSide(JStr(s)) == Err(UnknownVariant(s))
  {
  }

  /** `WsTradesResponsePayload`. */
  datatype Payload = Payload(
    buyOrderId: string,
    sellOrderId: string,
    pair: string,
    pairId: Usize,
    price: real,
    quantity: real,
    side: TransactionSide,
    exchange: string,
    exchangeId: Usize,
    timestamp: string,
    isDecimal: bool)

  /** The wire keys, with the two order ids renamed to camel case. */
  const PayloadFields: seq<string> :=
    ["buyOrderId", "sellOrderId", "pair", "pair_id", "price", "quantity",
     "side", "exchange", "exchange_id", "timestamp", "is_decimal"]

  /** What a decoded payload says about the fields it came from. */
  predicate PayloadFieldsHold(m: map<string, Json>, p: Payload) {
    && "buyOrderId" in m && m["buyOrderId"] == JStr(p.buyOrderId)
    && "sellOrderId" in m && m["sellOrderId"] == JStr(p.sellOrderId)
    && "pair" in m && m["pair"] == JStr(p.pair)
    && "pair_id" in m && m["pair_id"] == UsizeJson(p.pairId)
    && "price" in m && DecodeF64(m["price"]) == Ok(p.price)
    && "quantity" in m && DecodeF64(m["quantity"]) == Ok(p.quantity)
    && "side" in m && DecodeTransactionSide(m["side"]) == Ok(p.side)
    && "exchange" in m && m["exchange"] == JStr(p.exchange)
    && "exchange_id" in m && m["exchange_id"] == UsizeJson(p.exchangeId)
    && "timestamp" in m && m["timestamp"] == JStr(p.timestamp)
    && "is_decimal" in m && m["is_decimal"] == JBool(p.isDecimal)
  }

  function PayloadFrom(m: map<string, Json>): (r: Decoded<Payload>)
    requires forall k :: k in PayloadFields ==> k in m
    ensures r.Ok? ==> PayloadFieldsHold(m, r.value)
  {
    var buyOrderId :- DecodeString(m["buyOrderId"]);
    var sellOrderId :- DecodeString(m["sellOrderId"]);
    var pair :- DecodeString(m["pair"]);
    var pairId :- DecodeUsize(m["pair_id"]);
    var price :- DecodeF64(m["price"]);
    var quantity :- DecodeF64(m["quantity"]);
    var side :- DecodeTransactionSide(m["side"]);
    var exchange :- DecodeString(m["exchange"]);
    var exchangeId :- DecodeUsize(m["exchange_id"]);
    var timestamp :- DecodeString(m["timestamp"]);
    var isDecimal :- DecodeBool(m["is_decimal"]);
    Ok(Payload(buyOrderId, sellOrderId, pair, pairId, price, quantity, side, exchange, exchangeId, timestamp, isDecimal))
  }

  /** The derived payload decoder: every key required, the ids read from `buyOrderId`
      and `sellOrderId`. */
  function DecodePayload(j: Json): (r: Decoded<Payload>)
    ensures j.JObj? && r.Ok? ==> forall k :: k in PayloadFields ==> k in j.fields
    ensures j.JObj? && r.Ok? ==> PayloadFieldsHold(j.fields, r.value)
  {
    var m :- StructView(j, PayloadFields);
    PayloadFrom(m)
  }

  /** The converse: fields of the right types decode to exactly the payload they describe. */
  lemma PayloadFromFields(m: map<string, Json>, p: Payload)
    requires PayloadFieldsHold(m, p)
    ensures DecodePayload(JObj(m)) == Ok(p)
  {
    assert forall k :: k in PayloadFields ==> k in m;
    UsizeJsonDecodes(p.pairId);
    UsizeJsonDecodes(p.exchangeId);
    assert PayloadFrom(m) == Ok(p);
    assert StructView(JObj(m), PayloadFields) == Ok(m);
  }

  /** A payload whose side is neither `Buy` nor `Sell` is rejected as a whole. */
  lemma PayloadRejectsUnknownSide(m: map<string, Json>)
    requires "side" in m && m["side"] != JStr("Buy") && m["side"] != JStr("Sell")
    ensures DecodePayload(JObj(m)).Err?
  {
  }

  /** The snake-case spelling of the id keys is not read. */
  lemma PayloadNeedsCamelCaseIds(m: map<string, Json>)
    requires "buyOrderId" !in m
    ensures DecodePayload(JObj(m)).Err?
  {
  }

  /** `WsTradesResponse`: the feed envelope around the payload. */
  function DecodeWsTradesResponse(j: Json): (r: Decoded<WsResponse<Payload>>)
    ensures j.JObj? && r.Ok? ==> forall k :: k in WsResponseFields ==> k in j.fields
    ensures j.JObj? && r.Ok? ==>
              (j.fields["recipient"] == JStr(r.value.recipient)
               && DecodePayload(j.fields["payload"]) == Ok(r.value.payload))
  {
    DecodeWsResponse(j, DecodePayload)
  }

  const TRADES_PREFIX: string := "trades.sfox."

  /** `trade_feed`. */
  function TradeFeed(basequote: string): (s: string)
    ensures |s| == 12 + |basequote| && s[..12] == TRADES_PREFIX && s[12..] == basequote
  {
    TRADES_PREFIX + basequote
  }

  lemma TradeFeedInjective(a: string, b: string)
    requires TradeFeed(a) == TradeFeed(b)
    ensures a == b
  {
    assert a == TradeFeed(a)[12..] == TradeFeed(b)[12..] == b;
  }
}
