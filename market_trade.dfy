/** The string-typed trade message (`src/websocket/message/market/trade.rs`). */
module MarketTrade {

  import opened Wrappers
  import opened Json
  import MarketTrades

  /** `Trade`: here price, quantity and side are plain strings. */
  datatype Trade = Trade(
    buyOrderId: string,
    sellOrderId: string,
    pair: string,
    pairId: Usize,
    price: string,
    quantity: string,
    side: string,
    exchange: string,
    exchangeId: Usize,
    timestamp: string,
    isDecimal: bool)

  const TradeFields: seq<string> :=
    ["buyOrderId", "sellOrderId", "pair", "pair_id", "price", "quantity",
     "side", "exchange", "exchange_id", "timestamp", "is_decimal"]

  /** What a decoded trade says about the fields it came from. */
  predicate TradeFieldsHold(m: map<string, Json>, t: Trade) {
    && "buyOrderId" in m && m["buyOrderId"] == JStr(t.buyOrderId)
    && "sellOrderId" in m && m["sellOrderId"] == JStr(t.sellOrderId)
    && "pair" in m && m["pair"] == JStr(t.pair)
    && "pair_id" in m && m["pair_id"] == UsizeJson(t.pairId)
    && "price" in m && m["price"] == JStr(t.price)
    && "quantity" in m && m["quantity"] == JStr(t.quantity)
    && "side" in m && m["side"] == JStr(t.side)
    && "exchange" in m && m["exchange"] == JStr(t.exchange)
    && "exchange_id" in m && m["exchange_id"] == UsizeJson(t.exchangeId)
    && "timestamp" in m && m["timestamp"] == JStr(t.timestamp)
    && "is_decimal" in m && m["is_decimal"] == JBool(t.isDecimal)
  }

  function TradeFrom(m: map<string, Json>): (r: Decoded<Trade>)
    requires forall k :: k in TradeFields ==> k in m
    ensures r.Ok? ==> TradeFieldsHold(m, r.value)
  {
    var buyOrderId :- DecodeString(m["buyOrderId"]);
    var sellOrderId :- DecodeString(m["sellOrderId"]);
    var pair :- DecodeString(m["pair"]);
    var pairId :- DecodeUsize(m["pair_id"]);
    var price :- DecodeString(m["price"]);
    var quantity :- DecodeString(m["quantity"]);
    var side :- DecodeString(m["side"]);
    var exchange :- DecodeString(m["exchange"]);
    var exchangeId :- DecodeUsize(m["exchange_id"]);
    var timestamp :- DecodeString(m["timestamp"]);
    var isDecimal :- DecodeBool(m["is_decimal"]);
    Ok(Trade(buyOrderId, sellOrderId, pair, pairId, price, quantity, side, exchange, exchangeId, timestamp, isDecimal))
  }

  function DecodeTrade(j: Json): (r: Decoded<Trade>)
    ensures j.JObj? && r.Ok? ==> forall k :: k in TradeFields ==> k in j.fields
    ensures j.JObj? && r.Ok? ==> TradeFieldsHold(j.fields, r.value)
  {
    var m :- StructView(j, TradeFields);
    TradeFrom(m)
  }

  /** The converse: fields of the right types decode to exactly the trade they describe. */
  lemma TradeFromFields(m: map<string, Json>, t: Trade)
    requires TradeFieldsHold(m, t)
    ensures DecodeTrade(JObj(m)) == Ok(t)
  {
    assert forall k :: k in TradeFields ==> k in m;
    UsizeJsonDecodes(t.pairId);
    UsizeJsonDecodes(t.exchangeId);
    assert TradeFrom(m) == Ok(t);
    assert StructView(JObj(m), TradeFields) == Ok(m);
  }

  /** Any side string is kept verbatim, `Buy`, `Sell` or otherwise. */
  lemma SideUnconstrained(m: map<string, Json>, side: string)
    requires DecodeTrade(JObj(m)).Ok?
    ensures DecodeTrade(JObj(m["side" := JStr(side)])) == Ok(DecodeTrade(JObj(m)).value.(side := side))
  {
    var t := DecodeTrade(JObj(m)).value;
    SideReplaced(m, t, side);
    TradeFromFields(m["side" := JStr(side)], t.(side := side));
  }

  lemma SideReplaced(m: map<string, Json>, t: Trade, side: string)
    requires TradeFieldsHold(m, t)
    ensures TradeFieldsHold(m["side" := JStr(side)], t.(side := side))
  {
  }

  /** The wire keys agree with the payload of `trades.rs`, renamed ids included. */
  lemma SameKeysAsTradesPayload()
    ensures TradeFields == MarketTrades.PayloadFields
  {
  }

  /** `trades_feed`. */
  function TradesFeed(basequote: string): (s: string)
    ensures |s| == 12 + |basequote| && s[12..] == basequote
  {
    "trades.sfox." + basequote
  }

  /** The same topic as `trade_feed` of `trades.rs`, for every pair. */
  lemma TradesFeedIsTradeFeed(basequote: string)
    ensures TradesFeed(basequote) == MarketTrades.TradeFeed(basequote)
  {
  }
}
