/** The second order book message module (`src/websocket/message/market/order_book.rs`):
    the same book types and topic builder as `orderbook.rs`, a payload whose
    levels are structs with named fields, and the feed envelope around it. */
module MarketOrderBookResponse {

  import opened Wrappers
  import opened Json
  import opened WsMessage
  import MarketOrderbook

  /** A level with the named fields `price`, `quantity` and `source`, all required. */
  datatype Order = Order(price: real, quantity: real, source: string)

  const OrderFields: seq<string> := ["price", "quantity", "source"]

  /** The derived decoder: an object with the three keys, or (as serde accepts for any
      struct) an array of exactly three elements in field order. */
  function DecodeOrder(j: Json): (r: Decoded<Order>)
    ensures j.JObj? ==>
              (r.Ok? <==> ("price" in j.fields && DecodeF64(j.fields["price"]).Ok?
                           && "quantity" in j.fields && DecodeF64(j.fields["quantity"]).Ok?
                           && "source" in j.fields && j.fields["source"].JStr?))
    ensures j.JObj? && r.Ok? ==>
              (DecodeF64(j.fields["price"]) == Ok(r.value.price)
               && DecodeF64(j.fields["quantity"]) == Ok(r.value.quantity)
               && j.fields["source"] == JStr(r.value.source))
  {
    var m :- StructView(j, OrderFields);
    var price :- DecodeF64(m["price"]);
    var quantity :- DecodeF64(m["quantity"]);
    var source :- DecodeString(m["source"]);
    Ok(Order(price, quantity, source))
  }

  /** A level object without one of its keys is rejected. */
  lemma OrderNeedsAllKeys(m: map<string, Json>, k: string)
    requires k in OrderFields
    ensures DecodeOrder(JObj(m - {k})).Err?
  {
  }

  datatype MarketMaking = MarketMaking(asks: seq<Order>, bids: seq<Order>)

  const MarketMakingFields: seq<string> := ["asks", "bids"]

  function DecodeMarketMaking(j: Json): (r: Decoded<MarketMaking>)
    ensures j.JObj? ==>
              (r.Ok? <==> ("asks" in j.fields && DecodeVec(j.fields["asks"], DecodeOrder).Ok?
                           && "bids" in j.fields && DecodeVec(j.fields["bids"], DecodeOrder).Ok?))
    ensures j.JObj? && r.Ok? ==>
              (DecodeVec(j.fields["asks"], DecodeOrder) == Ok(r.value.asks)
               && DecodeVec(j.fields["bids"], DecodeOrder) == Ok(r.value.bids))
  {
    var m :- StructView(j, MarketMakingFields);
    var asks :- DecodeVec(m["asks"], DecodeOrder);
    var bids :- DecodeVec(m["bids"], DecodeOrder);
    Ok(MarketMaking(asks, bids))
  }

  /** `WsOrderBookResponsePayload`. */
  datatype Payload = Payload(
    asks: seq<Order>,
    bids: seq<Order>,
    lastpublished: Usize,
    lastupdated: Usize,
    marketMaking: MarketMaking,
    pair: string)

  const PayloadFields: seq<string> := ["asks", "bids", "lastpublished", "lastupdated", "market_making", "pair"]

  /** What a decoded payload says about the fields it came from. */
  predicate PayloadFieldsHold(m: map<string, Json>, p: Payload) {
    && "asks" in m && DecodeVec(m["asks"], DecodeOrder) == Ok(p.asks)
    && "bids" in m && DecodeVec(m["bids"], DecodeOrder) == Ok(p.bids)
    && "lastpublished" in m && m["lastpublished"] == UsizeJson(p.lastpublished)
    && "lastupdated" in m && m["lastupdated"] == UsizeJson(p.lastupdated)
    && "market_making" in m && DecodeMarketMaking(m["market_making"]) == Ok(p.marketMaking)
    && "pair" in m && m["pair"] == JStr(p.pair)
  }

  function PayloadFrom(m: map<string, Json>): (r: Decoded<Payload>)
    requires "asks" in m && "bids" in m && "lastpublished" in m && "lastupdated" in m && "market_making" in m && "pair" in m
    ensures r.Ok? <==> (DecodeVec(m["asks"], DecodeOrder).Ok? && DecodeVec(m["bids"], DecodeOrder).Ok?
                        && DecodeUsize(m["lastpublished"]).Ok? && DecodeUsize(m["lastupdated"]).Ok?
                        && DecodeMarketMaking(m["market_making"]).Ok? && m["pair"].JStr?)
    ensures r.Ok? ==> PayloadFieldsHold(m, r.value)
  {
    var asks :- DecodeVec(m["asks"], DecodeOrder);
    var bids :- DecodeVec(m["bids"], DecodeOrder);
    PayloadRest(m, asks, bids)
  }

  /** The payload's counters, market-making data and pair, once the levels are read. */
  function PayloadRest(m: map<string, Json>, asks: seq<Order>, bids: seq<Order>): (r: Decoded<Payload>)
    requires "lastpublished" in m && "lastupdated" in m && "market_making" in m && "pair" in m
    ensures r.Ok? <==> (DecodeUsize(m["lastpublished"]).Ok? && DecodeUsize(m["lastupdated"]).Ok?
                        && DecodeMarketMaking(m["market_making"]).Ok? && m["pair"].JStr?)
    ensures r.Ok? ==> r.value.asks == asks && r.value.bids == bids
    ensures r.Ok? ==>
              (m["lastpublished"] == UsizeJson(r.value.lastpublished) && m["lastupdated"] == UsizeJson(r.value.lastupdated)
               && DecodeMarketMaking(m["market_making"]) == Ok(r.value.marketMaking) && m["pair"] == JStr(r.value.pair))
  {
    var lastpublished :- DecodeUsize(m["lastpublished"]);
    var lastupdated :- DecodeUsize(m["lastupdated"]);
    var marketMaking :- DecodeMarketMaking(m["market_making"]);
    var pair :- DecodeString(m["pair"]);
    Ok(Payload(asks, bids, lastpublished, lastupdated, marketMaking, pair))
  }

  /** The derived payload decoder: the six keys are required. */
  function DecodePayload(j: Json): (r: Decoded<Payload>)
    ensures j.JObj? && r.Ok? ==> forall k :: k in PayloadFields ==> k in j.fields
    ensures j.JObj? && r.Ok? ==> PayloadFieldsHold(j.fields, r.value)
  {
    var m :- StructView(j, PayloadFields);
    PayloadFrom(m)
  }

  /** The converse: fields of the right types decode to exactly the payload they describe. */
  lemma PayloadFromFields(m: map<string, Json>, p: Payload)
    requires PayloadFieldsHold(m, p)
    ensures DecodePayload(JObj(m)) == Ok(p)
  {
    assert forall k :: k in PayloadFields ==> k in m;
    UsizeJsonDecodes(p.lastpublished);
    UsizeJsonDecodes(p.lastupdated);
    assert PayloadFrom(m) == Ok(p);
    assert StructView(JObj(m), PayloadFields) == Ok(m);
  }

  /** A payload object without one of its six keys is rejected. */
  lemma PayloadNeedsAllKeys(m: map<string, Json>, k: string)
    requires k in PayloadFields
    ensures DecodePayload(JObj(m - {k})).Err?
  {
  }

  /** `WsOrderBookResponse`: the generic feed envelope around this payload. */
  function DecodeWsOrderBookResponse(j: Json): (r: Decoded<WsResponse<Payload>>)
    ensures j.JObj? && r.Ok? ==> forall k :: k in WsResponseFields ==> k in j.fields
    ensures j.JObj? && r.Ok? ==>
              (j.fields["recipient"] == JStr(r.value.recipient)
               && DecodePayload(j.fields["payload"]) == Ok(r.value.payload))
  {
    DecodeWsResponse(j, DecodePayload)
  }

  /** An envelope around a well-formed payload decodes to that envelope. */
  lemma WsOrderBookResponseFromFields(e: WsResponse<Payload>, pm: map<string, Json>)
    requires PayloadFieldsHold(pm, e.payload)
    ensures DecodeWsOrderBookResponse(EncodeWsResponse(e, JObj(pm))) == Ok(e)
  {
    PayloadFromFields(pm, e.payload);
    WsResponseRoundTrip(e, JObj(pm), DecodePayload);
  }

  // ---------------------------------------------------------------------------
  // The duplicated topic builder.

  datatype BookType = FeeAdjusted | Unadjusted

  function BookTypeName(t: BookType): string {
    match t
    case FeeAdjusted => "net"
    case Unadjusted => "sfox"
  }

  function OrderBookFeed(basequote: string, bookType: BookType): string {
    "orderbook." + BookTypeName(bookType) + "." + basequote
  }

  /** The same book type in the sibling module. */
  function Sibling(t: BookType): MarketOrderbook.BookType {
    match t
    case FeeAdjusted => MarketOrderbook.FeeAdjusted
    case Unadjusted => MarketOrderbook.Unadjusted
  }

  /** Both modules render each book type, and so each topic, identically. */
  lemma SameAsSibling(basequote: string, t: BookType)
    ensures BookTypeName(t) == MarketOrderbook.BookTypeName(Sibling(t))
    ensures OrderBookFeed(basequote, t) == MarketOrderbook.OrderBookFeed(basequote, Sibling(t))
  {
  }

  /** The fee-adjusted and the plain topic of the same pair are distinct. */
  lemma NetAndSfoxTopicsDiffer(basequote: string)
    ensures OrderBookFeed(basequote, FeeAdjusted) != OrderBookFeed(basequote, Unadjusted)
  {
    SameAsSibling(basequote, FeeAdjusted);
    SameAsSibling(basequote, Unadjusted);
    if OrderBookFeed(basequote, FeeAdjusted) == OrderBookFeed(basequote, Unadjusted) {
      MarketOrderbook.OrderBookFeedInjective(basequote, MarketOrderbook.FeeAdjusted, basequote, MarketOrderbook.Unadjusted);
    }
  }
}
