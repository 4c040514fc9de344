/** Ticker feed messages (`src/websocket/message/market/ticker.rs`): the ticker topic
    and the `Ticker` record, which is both serialised and deserialised. */
module MarketTicker {

  import opened Wrappers
  import opened Json

  datatype Ticker = Ticker(
    amount: real,
    exchange: string,
    last: real,
    high: real,
    low: real,
    open: real,
    pair: string,
    route: string,
    source: string,
    timestamp: string,
    volume: real,
    vwap: real)

  const TickerFields: seq<string> :=
    ["amount", "exchange", "last", "high", "low", "open",
     "pair", "route", "source", "timestamp", "volume", "vwap"]

  /** What a decoded ticker says about the fields it came from. */
  predicate TickerFieldsHold(m: map<string, Json>, t: Ticker) {
    && "amount" in m && DecodeF64(m["amount"]) == Ok(t.amount)
    && "exchange" in m && m["exchange"] == JStr(t.exchange)
    && "last" in m && DecodeF64(m["last"]) == Ok(t.last)
    && "high" in m && DecodeF64(m["high"]) == Ok(t.high)
    && "low" in m && DecodeF64(m["low"]) == Ok(t.low)
    && "open" in m && DecodeF64(m["open"]) == Ok(t.open)
    && "pair" in m && m["pair"] == JStr(t.pair)
    && "route" in m && m["route"] == JStr(t.route)
    && "source" in m && m["source"] == JStr(t.source)
    && "timestamp" in m && m["timestamp"] == JStr(t.timestamp)
    && "volume" in m && DecodeF64(m["volume"]) == Ok(t.volume)
    && "vwap" in m && DecodeF64(m["vwap"]) == Ok(t.vwap)
  }

  function TickerFrom(m: map<string, Json>): (r: Decoded<Ticker>)
    requires forall k :: k in TickerFields ==> k in m
    ensures r.Ok? ==> TickerFieldsHold(m, r.value)
  {
    var amount :- DecodeF64(m["amount"]);
    var exchange :- DecodeString(m["exchange"]);
    var last :- DecodeF64(m["last"]);
    var high :- DecodeF64(m["high"]);
    var low :- DecodeF64(m["low"]);
    var open :- DecodeF64(m["open"]);
    var pair :- DecodeString(m["pair"]);
    var route :- DecodeString(m["route"]);
    var source :- DecodeString(m["source"]);
    var timestamp :- DecodeString(m["timestamp"]);
    var volume :- DecodeF64(m["volume"]);
    var vwap :- DecodeF64(m["vwap"]);
    Ok(Ticker(amount, exchange, last, high, low, open, pair, route, source, timestamp, volume, vwap))
  }

  /** The derived decoder: all twelve keys are required. */
  function DecodeTicker(j: Json): (r: Decoded<Ticker>)
    ensures j.JObj? && r.Ok? ==> forall k :: k in TickerFields ==> k in j.fields
    ensures j.JObj? && r.Ok? ==> TickerFieldsHold(j.fields, r.value)
  {
    var m :- StructView(j, TickerFields);
    TickerFrom(m)
  }

  /** A ticker object without one of its twelve keys is rejected. */
  lemma TickerNeedsAllKeys(m: map<string, Json>, k: string)
    requires k in TickerFields
    ensures DecodeTicker(JObj(m - {k})).Err?
  {
  }

  /** The derived serialiser: every field under its own name, numbers as JSON numbers. */
  function EncodeTicker(t: Ticker): Json {
    JObj(map[
      "amount" := F64(t.amount), "exchange" := JStr(t.exchange),
      "last" := F64(t.last), "high" := F64(t.high), "low" := F64(t.low), "open" := F64(t.open),
      "pair" := JStr(t.pair), "route" := JStr(t.route), "source" := JStr(t.source),
      "timestamp" := JStr(t.timestamp), "volume" := F64(t.volume), "vwap" := F64(t.vwap)])
  }

  lemma EncodedTickerFields(t: Ticker)
    ensures TickerFieldsHold(EncodeTicker(t).fields, t)
  {
  }

  /** The converse of the decoder's contract: fields of the right types decode to
      exactly the ticker they describe. */
  lemma TickerFromFields(m: map<string, Json>, t: Ticker)
    requires TickerFieldsHold(m, t)
    ensures DecodeTicker(JObj(m)) == Ok(t)
  {
    assert forall k :: k in TickerFields ==> k in m;
    assert TickerFrom(m) == Ok(t);
    assert StructView(JObj(m), TickerFields) == Ok(m);
  }

  /** Deserialising a serialised ticker gives it back. */
  lemma TickerRoundTrip(t: Ticker)
    ensures DecodeTicker(EncodeTicker(t)) == Ok(t)
  {
    EncodedTickerFields(t);
    TickerFromFields(EncodeTicker(t).fields, t);
  }

  const TICKER_PREFIX: string := "ticker.sfox."

  /** `ticker_feed`. */
  function TickerFeed(basequote: string): (s: string)
    ensures |s| == 12 + |basequote| && s[..12] == TICKER_PREFIX && s[12..] == basequote
  {
    TICKER_PREFIX + basequote
  }

  lemma TickerFeedInjective(a: string, b: string)
    requires TickerFeed(a) == TickerFeed(b)
    ensures a == b
  {
    assert a == TickerFeed(a)[12..] == TickerFeed(b)[12..] == b;
  }
}
