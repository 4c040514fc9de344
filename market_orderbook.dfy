/** Order book feed messages (`src/websocket/message/market/orderbook.rs`):
    price levels sent as `[price, quantity, source]` triples, the book types and
    the order book topic names. */
module MarketOrderbook {

  import opened Wrappers
  import opened Json

  /** One price level. */
  datatype Order = Order(price: real, quantity: real, source: string)

  /** `From<(f64, f64, String)> for Order`: the tuple's positions become the fields. */
  function OrderFrom(data: (real, real, string)): (o: Order)
    ensures (o.price, o.quantity, o.source) == data
  {
    Order(data.0, data.1, data.2)
  }

  /** The level decoder: `Order` is read as a `(f64, f64, String)` tuple, that is, a JSON
      array of exactly three elements; a quantity written as a string is not accepted. */
  function DecodeOrder(j: Json): (r: Decoded<Order>)
    ensures r.Ok? <==> j.JArr? && |j.items| == 3 && DecodeF64(j.items[0]).Ok? && DecodeF64(j.items[1]).Ok? && j.items[2].JStr?
    ensures r.Ok? ==> DecodeF64(j.items[0]) == Ok(r.value.price) && DecodeF64(j.items[1]) == Ok(r.value.quantity)
                      && j.items[2] == JStr(r.value.source)
  {
    if !j.JArr? then Err(InvalidType("a tuple of size 3"))
    else if |j.items| != 3 then Err(InvalidLength(|j.items|))
    else
      var price :- DecodeF64(j.items[0]);
      var quantity :- DecodeF64(j.items[1]);
      var source :- DecodeString(j.items[2]);
      Ok(OrderFrom((price, quantity, source)))
  }

  /** A level whose quantity is the string `"1e-08"` is rejected rather than normalised. */
  lemma DecodeOrderRejectsStringQuantity(price: real, source: string)
    ensures DecodeOrder(JArr([F64(price), JStr("1e-08"), JStr(source)])).Err?
  {
  }

  function EncodeOrder(o: Order): Json {
    JArr([F64(o.price), F64(o.quantity), JStr(o.source)])
  }

  lemma OrderRoundTrip(o: Order)
    ensures DecodeOrder(EncodeOrder(o)) == Ok(o)
  {
  }

  datatype MarketMaking = MarketMaking(asks: seq<Order>, bids: seq<Order>)

  datatype Orderbook = Orderbook(
    asks: seq<Order>,
    bids: seq<Order>,
    lastpublished: Usize,
    lastupdated: Usize,
    marketMaking: MarketMaking,
    pair: string)

  const MarketMakingFields: seq<string> := ["asks", "bids"]
  const OrderbookFields: seq<string> := ["asks", "bids", "lastpublished", "lastupdated", "market_making", "pair"]

  function DecodeMarketMaking(j: Json): (r: Decoded<MarketMaking>)
    ensures j.JObj? ==>
              (r.Ok? <==> ("asks" in j.fields && DecodeVec(j.fields["asks"], DecodeOrder).Ok?
                           && "bids" in j.fields && DecodeVec(j.fields["bids"], DecodeOrder).Ok?))
    ensures j.JObj? && r.Ok? ==>
              (DecodeVec(j.fields["asks"], DecodeOrder) == Ok(r.value.asks)
               && DecodeVec(j.fields["bids"], DecodeOrder) == Ok(r.value.bids))
  {
    var m :- StructView(j, MarketMakingFields);
    var asks :- DecodeVec(m["asks"], DecodeOrder);
    var bids :- DecodeVec(m["bids"], DecodeOrder);
    Ok(MarketMaking(asks, bids))
  }

  /** The derived decoder of `Orderbook`: all six keys are required, and each level
      list is decoded element by element in order. */
  function DecodeOrderbook(j: Json): (r: Decoded<Orderbook>)
    ensures j.JObj? && r.Ok? ==> forall k :: k in OrderbookFields ==> k in j.fields
    ensures j.JObj? && r.Ok? ==> OrderbookFieldsHold(j.fields, r.value)
  {
    var m :- StructView(j, OrderbookFields);
    OrderbookFrom(m)
  }

  /** What a decoded book says about the fields it came from. */
  predicate OrderbookFieldsHold(m: map<string, Json>, b: Orderbook) {
    && "asks" in m && DecodeVec(m["asks"], DecodeOrder) == Ok(b.asks)
    && "bids" in m && DecodeVec(m["bids"], DecodeOrder) == Ok(b.bids)
    && "lastpublished" in m && m["lastpublished"] == UsizeJson(b.lastpublished)
    && "lastupdated" in m && m["lastupdated"] == UsizeJson(b.lastupdated)
    && "market_making" in m && DecodeMarketMaking(m["market_making"]) == Ok(b.marketMaking)
    && "pair" in m && m["pair"] == JStr(b.pair)
  }

  function OrderbookFrom(m: map<string, Json>): (r: Decoded<Orderbook>)
    requires forall k :: k in OrderbookFields ==> k in m
    ensures r.Ok? ==> OrderbookFieldsHold(m, r.value)
  {
    var asks :- DecodeVec(m["asks"], DecodeOrder);
    var bids :- DecodeVec(m["bids"], DecodeOrder);
    var lastpublished :- DecodeUsize(m["lastpublished"]);
    var lastupdated :- DecodeUsize(m["lastupdated"]);
    var marketMaking :- DecodeMarketMaking(m["market_making"]);
    var pair :- DecodeString(m["pair"]);
    Ok(Orderbook(asks, bids, lastpublished, lastupdated, marketMaking, pair))
  }

  function EncodeOrders(os: seq<Order>): Json {
    ListJson(os, EncodeOrder)
  }

  function EncodeMarketMaking(mm: MarketMaking): Json {
    JObj(map["asks" := EncodeOrders(mm.asks), "bids" := EncodeOrders(mm.bids)])
  }

  function EncodeOrderbook(b: Orderbook): Json {
    JObj(map[
      "asks" := EncodeOrders(b.asks),
      "bids" := EncodeOrders(b.bids),
      "lastpublished" := UsizeJson(b.lastpublished),
      "lastupdated" := UsizeJson(b.lastupdated),
      "market_making" := EncodeMarketMaking(b.marketMaking),
      "pair" := JStr(b.pair)])
  }

  lemma OrdersRoundTrip(os: seq<Order>)
    ensures DecodeVec(EncodeOrders(os), DecodeOrder) == Ok(os)
  {
    forall i | 0 <= i < |os| ensures DecodeOrder(EncodeOrder(os[i])) == Ok(os[i]) {
      OrderRoundTrip(os[i]);
    }
    ListJsonDecodes(os, EncodeOrder, DecodeOrder);
  }

  lemma MarketMakingRoundTrip(mm: MarketMaking)
    ensures DecodeMarketMaking(EncodeMarketMaking(mm)) == Ok(mm)
  {
    OrdersRoundTrip(mm.asks);
    OrdersRoundTrip(mm.bids);
  }

  /** A book decodes back to itself: every level, in its original order. */
  lemma OrderbookRoundTrip(b: Orderbook)
    ensures DecodeOrderbook(EncodeOrderbook(b)) == Ok(b)
  {
    var j := EncodeOrderbook(b);
    EncodedOrderbookFields(b);
    assert StructView(j, OrderbookFields) == Ok(j.fields);
    OrderbookFromEncoded(j.fields, b);
  }

  lemma EncodedOrderbookFields(b: Orderbook)
    ensures var m := EncodeOrderbook(b).fields;
            && (forall k :: k in OrderbookFields ==> k in m)
            && m["asks"] == EncodeOrders(b.asks) && m["bids"] == EncodeOrders(b.bids)
            && m["lastpublished"] == UsizeJson(b.lastpublished) && m["lastupdated"] == UsizeJson(b.lastupdated)
            && m["market_making"] == EncodeMarketMaking(b.marketMaking) && m["pair"] == JStr(b.pair)
  {
  }

  lemma OrderbookFromEncoded(m: map<string, Json>, b: Orderbook)
    requires forall k :: k in OrderbookFields ==> k in m
    requires m["asks"] == EncodeOrders(b.asks) && m["bids"] == EncodeOrders(b.bids)
    requires m["lastpublished"] == UsizeJson(b.lastpublished) && m["lastupdated"] == UsizeJson(b.lastupdated)
    requires m["market_making"] == EncodeMarketMaking(b.marketMaking) && m["pair"] == JStr(b.pair)
    ensures OrderbookFrom(m) == Ok(b)
  {
    OrdersRoundTrip(b.asks);
    OrdersRoundTrip(b.bids);
    MarketMakingRoundTrip(b.marketMaking);
  }

  // ---------------------------------------------------------------------------
  // Topics.

  datatype BookType = FeeAdjusted | Unadjusted

  /** `BookType::to_string`. */
  function BookTypeName(t: BookType): string {
    match t
    case FeeAdjusted => "net"
    case Unadjusted => "sfox"
  }

  const ORDERBOOK_PREFIX: string := "orderbook."

  /** `order_book_feed`: `orderbook.<book type>.<pair>`. */
  function OrderBookFeed(basequote: string, bookType: BookType): (s: string)
    ensures |s| == 11 + |BookTypeName(bookType)| + |basequote|
    ensures s[..10] == ORDERBOOK_PREFIX
    ensures s[10..10 + |BookTypeName(bookType)|] == BookTypeName(bookType)
    ensures s[10 + |BookTypeName(bookType)|] == '.'
    ensures s[11 + |BookTypeName(bookType)|..] == basequote
  {
    ORDERBOOK_PREFIX + BookTypeName(bookType) + "." + basequote
  }

  /** The topic names the book type and the pair: character 10 tells `net` from
      `sfox`, and what follows the second dot is the pair. */
  lemma OrderBookFeedInjective(b1: string, t1: BookType, b2: string, t2: BookType)
    requires OrderBookFeed(b1, t1) == OrderBookFeed(b2, t2)
    ensures b1 == b2 && t1 == t2
  {
    var s := OrderBookFeed(b1, t1);
    assert s[10] == BookTypeName(t1)[0] == BookTypeName(t2)[0];
    assert t1 == t2;
    assert b1 == s[11 + |BookTypeName(t1)|..] == b2;
  }
}
