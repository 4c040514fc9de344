/** The REST order book (`src/http/v1/order_book.rs`): levels whose volume may be a
    string in scientific notation, the book record, and its request path. */
module V1OrderBook {

  import opened Wrappers
  import opened Json
  import opened Text
  import opened Http

  const ORDER_BOOK_RESOURCE: string := "markets/orderbook"
  const NOT_A_NUMBER: string := "Expected string or number"

  /** `s.replace('e', "E")`, scanning from the left. */
  function ReplaceE(s: string): (r: string)
    ensures |r| == |s|
    ensures forall i :: 0 <= i < |s| ==> r[i] == if s[i] == 'e' then 'E' else s[i]
    decreases |s|
  {
    if |s| == 0 then ""
    else [if s[0] == 'e' then 'E' else s[0]] + ReplaceE(s[1..])
  }

  /** No lower-case `e` is left behind. */
  lemma NoLowerEAfterReplace(s: string)
    ensures 'e' !in ReplaceE(s)
  {
    var r := ReplaceE(s);
    forall i | 0 <= i < |r| ensures r[i] != 'e' {
    }
  }

  /** A second rewrite has nothing to do, and a string without `e` is left alone. */
  lemma ReplaceEIdempotent(s: string)
    ensures ReplaceE(ReplaceE(s)) == ReplaceE(s)
    ensures 'e' !in s ==> ReplaceE(s) == s
  {
    NoLowerEAfterReplace(s);
    var r := ReplaceE(s);
    assert ReplaceE(r) == r by {
      forall i | 0 <= i < |r| ensures ReplaceE(r)[i] == r[i] {
        assert r[i] != 'e';
      }
    }
    if 'e' !in s {
      forall i | 0 <= i < |s| ensures r[i] == s[i] {
        assert s[i] != 'e';
      }
    }
  }

  /** `maybe_sci_notation_to_f64`: a string is parsed after upper-casing each `e`
      (`parse` is `str::parse::<f64>`), a number is taken as it is, and any other value
      is refused. */
  function MaybeSciNotationToF64(j: Json, parse: string -> Option<real>): (r: Decoded<real>)
    ensures j.JStr? ==> (r.Ok? <==> parse(ReplaceE(j.s)).Some?)
    ensures j.JStr? && r.Ok? ==> parse(ReplaceE(j.s)) == Some(r.value)
    ensures j.JStr? && r.Err? ==> r.error == Custom(ParseFloatErrorText(ReplaceE(j.s)))
    ensures j.JNum? ==> r == DecodeF64(j)
    ensures !j.JStr? && !j.JNum? ==> r == Err(Custom(NOT_A_NUMBER))
  {
    match j
    case JStr(s) =>
      var reformatted := ReplaceE(s);
      (match parse(reformatted)
       case Some(x) => Ok(x)
       case None => Err(Custom(ParseFloatErrorText(reformatted))))
    case JNum(Int(i)) => Ok(i as real)
    case JNum(Float(x)) => Ok(x)
    case _ => Err(Custom(NOT_A_NUMBER))
  }

  /** Every JSON number is accepted by the rewriting decoder, as by the plain one. */
  lemma NumbersAccepted(n: Number, parse: string -> Option<real>)
    ensures MaybeSciNotationToF64(JNum(n), parse).Ok?
    ensures MaybeSciNotationToF64(JNum(n), parse) == DecodeF64(JNum(n))
  {
  }

  /** A level of the REST book. */
  datatype OpenOrder = OpenOrder(price: real, volume: real, exchange: string)

  const OpenOrderFields: seq<string> := ["price", "volume", "exchange"]

  /** The derived decoder: only `volume` goes through the rewriting decoder; `price`
      must be a JSON number. */
  function DecodeOpenOrder(j: Json, parse: string -> Option<real>): (r: Decoded<OpenOrder>)
    ensures j.JObj? ==>
              (r.Ok? <==> ("price" in j.fields && DecodeF64(j.fields["price"]).Ok?
                           && "volume" in j.fields && MaybeSciNotationToF64(j.fields["volume"], parse).Ok?
                           && "exchange" in j.fields && j.fields["exchange"].JStr?))
    ensures j.JArr? ==>
              (r.Ok? <==> (|j.items| == 3 && DecodeF64(j.items[0]).Ok?
                           && MaybeSciNotationToF64(j.items[1], parse).Ok? && j.items[2].JStr?))
    ensures j.JArr? && r.Ok? ==>
              (DecodeF64(j.items[0]) == Ok(r.value.price)
               && MaybeSciNotationToF64(j.items[1], parse) == Ok(r.value.volume)
               && j.items[2] == JStr(r.value.exchange))
    ensures !j.JObj? && !j.JArr? ==> r.Err?
  {
    var m :- StructView(j, OpenOrderFields);
    if j.JArr? then
      assert Distinct(OpenOrderFields);
      PositionalAt(OpenOrderFields, j.items, 0);
      PositionalAt(OpenOrderFields, j.items, 1);
      PositionalAt(OpenOrderFields, j.items, 2);
      OpenOrderFrom(m, parse)
    else
      OpenOrderFrom(m, parse)
  }

  function OpenOrderFrom(m: map<string, Json>, parse: string -> Option<real>): (r: Decoded<OpenOrder>)
    requires forall k :: k in OpenOrderFields ==> k in m
    ensures r.Ok? <==> DecodeF64(m["price"]).Ok? && MaybeSciNotationToF64(m["volume"], parse).Ok? && m["exchange"].JStr?
    ensures r.Ok? ==>
              DecodeF64(m["price"]) == Ok(r.value.price) && MaybeSciNotationToF64(m["volume"], parse) == Ok(r.value.volume)
              && m["exchange"] == JStr(r.value.exchange)
  {
    var price :- DecodeF64(m["price"]);
    var volume :- MaybeSciNotationToF64(m["volume"], parse);
    var exchange :- DecodeString(m["exchange"]);
    Ok(OpenOrder(price, volume, exchange))
  }

  /** The level the service sends for a tiny volume, `[9458.12, "1e-08", "gemini"]`, is
      accepted whenever the float parser reads `1E-08`. */
  lemma TinyVolumeLevel(parse: string -> Option<real>, v: real)
    requires parse("1E-08") == Some(v)
    ensures DecodeOpenOrder(JArr([F64(9458.12), JStr("1e-08"), JStr("gemini")]), parse)
            == Ok(OpenOrder(9458.12, v, "gemini"))
  {
    var j := JArr([F64(9458.12), JStr("1e-08"), JStr("gemini")]);
    assert ReplaceE("1e-08") == "1E-08";
    assert MaybeSciNotationToF64(j.items[1], parse) == Ok(v);
  }

  /** A string price is refused even where the same string would be a valid volume. */
  lemma StringPriceRejected(parse: string -> Option<real>, s: string, volume: Json, exchange: string)
    ensures DecodeOpenOrder(JArr([JStr(s), volume, JStr(exchange)]), parse).Err?
  {
  }

  /** `OpenOrder`'s decoder as a function value. */
  function Levels(parse: string -> Option<real>): Json -> Decoded<OpenOrder> {
    o => DecodeOpenOrder(o, parse)
  }

  /** `Vec<OpenOrder>`: an array of levels, decoded in order. */
  function DecodeLevels(j: Json, parse: string -> Option<real>): Decoded<seq<OpenOrder>> {
    if j.JArr? then DecodeLevelItems(j.items, parse) else Err(InvalidType("a sequence"))
  }

  function DecodeLevelItems(items: seq<Json>, parse: string -> Option<real>): Decoded<seq<OpenOrder>>
    decreases |items|
  {
    if |items| == 0 then Ok([])
    else
      var x :- DecodeOpenOrder(items[0], parse);
      var xs :- DecodeLevelItems(items[1..], parse);
      Ok([x] + xs)
  }

  /** The list decoder is `Vec<OpenOrder>`'s: the generic element-by-element decoder. */
  lemma {:induction false} LevelItemsAreItems(items: seq<Json>, parse: string -> Option<real>)
    ensures DecodeLevelItems(items, parse) == DecodeItems(items, Levels(parse))
    decreases |items|
  {
    if |items| > 0 {
      LevelItemsAreItems(items[1..], parse);
    }
  }

  /** And so every level list is decoded as serde decodes any `Vec`. */
  lemma LevelsAreVec(j: Json, parse: string -> Option<real>)
    ensures DecodeLevels(j, parse) == DecodeVec(j, Levels(parse))
  {
    if j.JArr? {
      LevelItemsAreItems(j.items, parse);
    }
  }

  datatype MarketMaking = MarketMaking(asks: seq<OpenOrder>, bids: seq<OpenOrder>)

  const MarketMakingFields: seq<string> := ["asks", "bids"]

  function DecodeMarketMaking(j: Json, parse: string -> Option<real>): (r: Decoded<MarketMaking>)
    ensures j.JObj? ==>
              (r.Ok? <==> ("asks" in j.fields && DecodeLevels(j.fields["asks"], parse).Ok?
                           && "bids" in j.fields && DecodeLevels(j.fields["bids"], parse).Ok?))
    ensures j.JObj? && r.Ok? ==>
              (DecodeLevels(j.fields["asks"], parse) == Ok(r.value.asks)
               && DecodeLevels(j.fields["bids"], parse) == Ok(r.value.bids))
  {
    var m :- StructView(j, MarketMakingFields);
    var asks :- DecodeLevels(m["asks"], parse);
    var bids :- DecodeLevels(m["bids"], parse);
    Ok(MarketMaking(asks, bids))
  }

  /** `OrderBook`. */
  datatype OrderBook = OrderBook(
    pair: string,
    currency: Option<string>,
    asks: seq<OpenOrder>,
    bids: seq<OpenOrder>,
    marketMaking: MarketMaking,
    lastupdated: Usize,
    lastpublished: Usize)

  /** All fields in declaration order, and those an object must carry (`currency` is optional). */
  const OrderBookFields: seq<string> :=
    ["pair", "currency", "asks", "bids", "market_making", "lastupdated", "lastpublished"]
  const RequiredOrderBookFields: seq<string> :=
    ["pair", "asks", "bids", "market_making", "lastupdated", "lastpublished"]

  /** What a decoded book says about the fields it came from. */
  predicate OrderBookFieldsHold(m: map<string, Json>, b: OrderBook, parse: string -> Option<real>) {
    && "pair" in m && m["pair"] == JStr(b.pair)
    && DecodeOptional(m, "currency", DecodeString) == Ok(b.currency)
    && LevelFieldsHold(m, b, parse)
  }

  /** The part of `OrderBookFieldsHold` about the levels and the counters. */
  predicate LevelFieldsHold(m: map<string, Json>, b: OrderBook, parse: string -> Option<real>) {
    && "asks" in m && DecodeLevels(m["asks"], parse) == Ok(b.asks)
    && "bids" in m && DecodeLevels(m["bids"], parse) == Ok(b.bids)
    && "market_making" in m && DecodeMarketMaking(m["market_making"], parse) == Ok(b.marketMaking)
    && "lastupdated" in m && m["lastupdated"] == UsizeJson(b.lastupdated)
    && "lastpublished" in m && m["lastpublished"] == UsizeJson(b.lastpublished)
  }

  /** The levels, the market-making data and the two counters all decode. */
  predicate LevelsValid(m: map<string, Json>, parse: string -> Option<real>)
    requires "asks" in m && "bids" in m && "market_making" in m && "lastupdated" in m && "lastpublished" in m
  {
    && DecodeLevels(m["asks"], parse).Ok? && DecodeLevels(m["bids"], parse).Ok?
    && DecodeMarketMaking(m["market_making"], parse).Ok?
    && DecodeUsize(m["lastupdated"]).Ok? && DecodeUsize(m["lastpublished"]).Ok?
  }

  function OrderBookFrom(m: map<string, Json>, parse: string -> Option<real>): (r: Decoded<OrderBook>)
    requires forall k :: k in RequiredOrderBookFields ==> k in m
    ensures r.Ok? <==> (m["pair"].JStr? && DecodeOptional(m, "currency", DecodeString).Ok?
                        && LevelsValid(m, parse))
    ensures r.Ok? ==> OrderBookFieldsHold(m, r.value, parse)
  {
    var pair :- DecodeString(m["pair"]);
    var currency :- DecodeOptional(m, "currency", DecodeString);
    OrderBookLevels(m, pair, currency, parse)
  }

  /** The book's levels and counters, once `pair` and `currency` are read. */
  function OrderBookLevels(m: map<string, Json>, pair: string, currency: Option<string>, parse: string -> Option<real>)
    : (r: Decoded<OrderBook>)
    requires "asks" in m && "bids" in m && "market_making" in m && "lastupdated" in m && "lastpublished" in m
    ensures r.Ok? <==> LevelsValid(m, parse)
    ensures r.Ok? ==> r.value.pair == pair && r.value.currency == currency
    ensures r.Ok? ==> LevelFieldsHold(m, r.value, parse)
  {
    var asks :- DecodeLevels(m["asks"], parse);
    var bids :- DecodeLevels(m["bids"], parse);
    var marketMaking :- DecodeMarketMaking(m["market_making"], parse);
    OrderBookCounters(m, pair, currency, asks, bids, marketMaking)
  }

  function OrderBookCounters(m: map<string, Json>, pair: string, currency: Option<string>,
                             asks: seq<OpenOrder>, bids: seq<OpenOrder>, marketMaking: MarketMaking)
    : (r: Decoded<OrderBook>)
    requires "lastupdated" in m && "lastpublished" in m
    ensures r.Ok? <==> DecodeUsize(m["lastupdated"]).Ok? && DecodeUsize(m["lastpublished"]).Ok?
    ensures r.Ok? ==> r.value.pair == pair && r.value.currency == currency && r.value.asks == asks
                      && r.value.bids == bids && r.value.marketMaking == marketMaking
    ensures r.Ok? ==> m["lastupdated"] == UsizeJson(r.value.lastupdated) && m["lastpublished"] == UsizeJson(r.value.lastpublished)
  {
    var lastupdated :- DecodeUsize(m["lastupdated"]);
    var lastpublished :- DecodeUsize(m["lastpublished"]);
    Ok(OrderBook(pair, currency, asks, bids, marketMaking, lastupdated, lastpublished))
  }

  /** The derived decoder: from an object, the six required keys (others, such as
      `timestamps`, are ignored); from an array, all seven fields by position. */
  function DecodeOrderBook(j: Json, parse: string -> Option<real>): (r: Decoded<OrderBook>)
    ensures j.JObj? && r.Ok? ==> OrderBookFieldsHold(j.fields, r.value, parse)
    ensures j.JObj? && r.Ok? && "currency" !in j.fields ==> r.value.currency.None?
    ensures !j.JObj? && !j.JArr? ==> r.Err?
  {
    var m :- StructView(j, if j.JObj? then RequiredOrderBookFields else OrderBookFields);
    OrderBookFrom(m, parse)
  }

  /** The converse: an object whose fields describe a book decodes to exactly that book. */
  lemma OrderBookFromFields(m: map<string, Json>, b: OrderBook, parse: string -> Option<real>)
    requires OrderBookFieldsHold(m, b, parse)
    ensures DecodeOrderBook(JObj(m), parse) == Ok(b)
  {
    assert forall k :: k in RequiredOrderBookFields ==> k in m;
    assert StructView(JObj(m), RequiredOrderBookFields) == Ok(m);
    UsizeJsonDecodes(b.lastupdated);
    UsizeJsonDecodes(b.lastpublished);
    assert OrderBookCounters(m, b.pair, b.currency, b.asks, b.bids, b.marketMaking) == Ok(b);
    assert OrderBookLevels(m, b.pair, b.currency, parse) == Ok(b);
  }

  /** A level list decodes exactly when each of its levels does. */
  lemma LevelsValidIff(items: seq<Json>, parse: string -> Option<real>)
    ensures DecodeLevels(JArr(items), parse).Ok? <==> forall i :: 0 <= i < |items| ==> DecodeOpenOrder(items[i], parse).Ok?
  {
    LevelItemsAreItems(items, parse);
    assert forall i :: 0 <= i < |items| ==> Levels(parse)(items[i]) == DecodeOpenOrder(items[i], parse);
  }

  /** A numeric level, such as `[9456, 1, "itbit"]`, decodes to its three values. */
  lemma NumericLevel(price: Number, volume: Number, exchange: string, parse: string -> Option<real>)
    ensures DecodeOpenOrder(JArr([JNum(price), JNum(volume), JStr(exchange)]), parse)
            == Ok(OpenOrder(DecodeF64(JNum(price)).value, DecodeF64(JNum(volume)).value, exchange))
  {
    NumbersAccepted(volume, parse);
  }

  /** The body of the service's reply: the four level lists, the `timestamps` object
      the record does not declare, the two counters, `pair` and `currency`. */
  function SampleBody(asks: seq<Json>, bids: seq<Json>, mmAsks: seq<Json>, mmBids: seq<Json>, timestamps: Json): Json {
    JObj(map[
      "bids" := JArr(bids),
      "asks" := JArr(asks),
      "market_making" := JObj(map["bids" := JArr(mmBids), "asks" := JArr(mmAsks)]),
      "timestamps" := timestamps,
      "lastupdated" := JNum(Int(1572903458756)),
      "pair" := JStr("btcusd"),
      "currency" := JStr("usd"),
      "lastpublished" := JNum(Int(1572903458798))])
  }

  /** A reply shaped like the sample decodes, whatever `timestamps` holds, once each
      level does (`NumericLevel` and `TinyVolumeLevel` cover the sample's levels). */
  lemma SampleBodyDecodes(asks: seq<Json>, bids: seq<Json>, mmAsks: seq<Json>, mmBids: seq<Json>, timestamps: Json,
                          parse: string -> Option<real>)
    requires forall i :: 0 <= i < |asks| ==> DecodeOpenOrder(asks[i], parse).Ok?
    requires forall i :: 0 <= i < |bids| ==> DecodeOpenOrder(bids[i], parse).Ok?
    requires forall i :: 0 <= i < |mmAsks| ==> DecodeOpenOrder(mmAsks[i], parse).Ok?
    requires forall i :: 0 <= i < |mmBids| ==> DecodeOpenOrder(mmBids[i], parse).Ok?
    ensures DecodeOrderBook(SampleBody(asks, bids, mmAsks, mmBids, timestamps), parse).Ok?
    ensures DecodeOrderBook(SampleBody(asks, bids, mmAsks, mmBids, timestamps), parse).value.pair == "btcusd"
    ensures DecodeOrderBook(SampleBody(asks, bids, mmAsks, mmBids, timestamps), parse).value.currency == Some("usd")
  {
    var j := SampleBody(asks, bids, mmAsks, mmBids, timestamps);
    var m := j.fields;
    SampleBodyFields(asks, bids, mmAsks, mmBids, timestamps);
    LevelsValidIff(asks, parse);
    LevelsValidIff(bids, parse);
    MarketMakingDecodes(mmAsks, mmBids, parse);
    assert LevelsValid(m, parse);
    BookDecodes(m, parse);
  }

  /** An object whose pair, currency, levels and counters are all valid is accepted. */
  lemma BookDecodes(m: map<string, Json>, parse: string -> Option<real>)
    requires "pair" in m && "asks" in m && "bids" in m && "market_making" in m && "lastupdated" in m && "lastpublished" in m
    requires m["pair"].JStr? && DecodeOptional(m, "currency", DecodeString).Ok? && LevelsValid(m, parse)
    ensures DecodeOrderBook(JObj(m), parse).Ok?
    ensures DecodeOrderBook(JObj(m), parse).value.pair == m["pair"].s
    ensures DecodeOrderBook(JObj(m), parse).value.currency == DecodeOptional(m, "currency", DecodeString).value
  {
    assert forall k :: k in RequiredOrderBookFields ==> k in m;
    assert StructView(JObj(m), RequiredOrderBookFields) == Ok(m);
  }

  /** The sample's top-level bids: two numeric levels and the tiny-volume one. */
  const SAMPLE_BIDS: seq<Json> := [
    JArr([F64(9458.12), JStr("1e-08"), JStr("gemini")]),
    JArr([JNum(Int(9456)), JNum(Int(1)), JStr("itbit")]),
    JArr([JNum(Int(9453)), F64(0.73553115), JStr("itbit")])]

  /** Each of them decodes once the float parser reads `1E-08`. */
  lemma SampleBidsDecode(parse: string -> Option<real>)
    requires parse("1E-08").Some?
    ensures forall i :: 0 <= i < |SAMPLE_BIDS| ==> DecodeOpenOrder(SAMPLE_BIDS[i], parse).Ok?
  {
    TinyVolumeLevel(parse, parse("1E-08").value);
    NumericLevel(Int(9456), Int(1), "itbit", parse);
    NumericLevel(Int(9453), Float(0.73553115), "itbit", parse);
    forall i | 0 <= i < |SAMPLE_BIDS| ensures DecodeOpenOrder(SAMPLE_BIDS[i], parse).Ok? {
      assert i == 0 || i == 1 || i == 2;
    }
  }

  lemma SampleBodyFields(asks: seq<Json>, bids: seq<Json>, mmAsks: seq<Json>, mmBids: seq<Json>, timestamps: Json)
    ensures var m := SampleBody(asks, bids, mmAsks, mmBids, timestamps).fields;
            && "pair" in m && "asks" in m && "bids" in m && "market_making" in m
            && "lastupdated" in m && "lastpublished" in m && "currency" in m
            && m["pair"] == JStr("btcusd") && m["currency"] == JStr("usd")
            && m["asks"] == JArr(asks) && m["bids"] == JArr(bids)
            && m["market_making"] == JObj(map["bids" := JArr(mmBids), "asks" := JArr(mmAsks)])
            && m["lastupdated"] == JNum(Int(1572903458756)) && m["lastpublished"] == JNum(Int(1572903458798))
  {
  }

  /** Market-making data whose level lists decode is accepted. */
  lemma MarketMakingDecodes(mmAsks: seq<Json>, mmBids: seq<Json>, parse: string -> Option<real>)
    requires forall i :: 0 <= i < |mmAsks| ==> DecodeOpenOrder(mmAsks[i], parse).Ok?
    requires forall i :: 0 <= i < |mmBids| ==> DecodeOpenOrder(mmBids[i], parse).Ok?
    ensures DecodeMarketMaking(JObj(map["bids" := JArr(mmBids), "asks" := JArr(mmAsks)]), parse).Ok?
  {
    LevelsValidIff(mmAsks, parse);
    LevelsValidIff(mmBids, parse);
  }

  /** An object missing a required key is refused. */
  lemma OrderBookNeedsRequiredKeys(m: map<string, Json>, k: string, parse: string -> Option<real>)
    requires k in RequiredOrderBookFields
    ensures DecodeOrderBook(JObj(m - {k}), parse).Err?
  {
  }

  /** A key the record does not declare has no effect on the result. */
  lemma ExtraKeysIgnored(m: map<string, Json>, k: string, v: Json, parse: string -> Option<real>)
    requires k !in OrderBookFields
    ensures DecodeOrderBook(JObj(m[k := v]), parse) == DecodeOrderBook(JObj(m), parse)
  {
    assert k !in RequiredOrderBookFields by {
      assert forall i :: 0 <= i < |RequiredOrderBookFields| ==> RequiredOrderBookFields[i] in OrderBookFields;
    }
    StructViewIgnoresKey(m, RequiredOrderBookFields, k, v);
    if StructView(JObj(m), RequiredOrderBookFields).Ok? {
      FromIgnoresKey(m, k, v, parse);
    }
  }

  lemma FromIgnoresKey(m: map<string, Json>, k: string, v: Json, parse: string -> Option<real>)
    requires k !in OrderBookFields && forall n :: n in RequiredOrderBookFields ==> n in m
    ensures forall n :: n in RequiredOrderBookFields ==> n in m[k := v]
    ensures OrderBookFrom(m[k := v], parse) == OrderBookFrom(m, parse)
  {
    var m' := m[k := v];
    assert k != "pair" && k != "currency" && k != "asks" && k != "bids";
    assert k != "market_making" && k != "lastupdated" && k != "lastpublished";
    assert DecodeOptional(m', "currency", DecodeString) == DecodeOptional(m, "currency", DecodeString);
    forall pair, currency ensures OrderBookLevels(m', pair, currency, parse) == OrderBookLevels(m, pair, currency, parse) {
      LevelsAgree(m, m', pair, currency, parse);
    }
  }

  lemma LevelsAgree(m: map<string, Json>, m': map<string, Json>, pair: string, currency: Option<string>, parse: string -> Option<real>)
    requires "asks" in m && "bids" in m && "market_making" in m && "lastupdated" in m && "lastpublished" in m
    requires "asks" in m' && "bids" in m' && "market_making" in m' && "lastupdated" in m' && "lastpublished" in m'
    requires m'["asks"] == m["asks"] && m'["bids"] == m["bids"] && m'["market_making"] == m["market_making"]
    requires m'["lastupdated"] == m["lastupdated"] && m'["lastpublished"] == m["lastpublished"]
    ensures OrderBookLevels(m', pair, currency, parse) == OrderBookLevels(m, pair, currency, parse)
  {
  }

  /** `order_book`: a GET of `markets/orderbook/<pair>`. */
  function OrderBookResource(pair: string): (s: string)
    ensures |s| == 18 + |pair| && s[..17] == ORDER_BOOK_RESOURCE && s[17] == '/' && s[18..] == pair
  {
    ORDER_BOOK_RESOURCE + "/" + pair
  }

  function OrderBookRequest(pair: string): (r: Request)
    ensures r.verb == Get && r.target == V1Resource(OrderBookResource(pair)) && r.params.None?
  {
    Request(Get, V1Resource(OrderBookResource(pair)), None, JsonResponse)
  }

  lemma OrderBookResourceInjective(a: string, b: string)
    requires OrderBookResource(a) == OrderBookResource(b)
    ensures a == b
  {
    assert a == OrderBookResource(a)[18..] == OrderBookResource(b)[18..] == b;
  }
}
