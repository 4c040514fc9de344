/** The order book subscription types of `src/websocket/market/order_book.rs`: a
    second `SubscribeMsg` with the same wire shape, and the `OrderBookType` codec. */
module WsMarketOrderBook {

  import opened Wrappers
  import opened Json
  import WsMessage

  datatype OrderBookType = Net | SFox

  /** The renamed variants' wire names. */
  function EncodeOrderBookType(t: OrderBookType): (j: Json)
    ensures j.JStr?
  {
    match t
    case Net => JStr("net")
    case SFox => JStr("sfox")
  }

  /** Only the two renamed names decode; the Rust variant names do not. */
  function DecodeOrderBookType(j: Json): (r: Decoded<OrderBookType>)
    ensures r.Ok? <==> j == JStr("net") || j == JStr("sfox")
    ensures r.Ok? ==> EncodeOrderBookType(r.value) == j
  {
    var name :- VariantName(j);
    if name == "net" then Ok(Net)
    else if name == "sfox" then Ok(SFox)
    else Err(UnknownVariant(name))
  }

  lemma OrderBookTypeRoundTrip(t: OrderBookType)
    ensures DecodeOrderBookType(EncodeOrderBookType(t)) == Ok(t)
  {
  }

  /** The serialiser is injective: the two types have different wire names. */
  lemma OrderBookTypeNamesDiffer()
    ensures EncodeOrderBookType(Net) != EncodeOrderBookType(SFox)
  {
    assert |"net"| != |"sfox"|;
  }

  /** This module's `SubscribeMsg` has the fields and renames of the one in
      `src/websocket/message/mod.rs`, so it is that datatype; its round trip is
      `WsMessage.SubscribeMsgRoundTrip`. */
  lemma SubscribeMsgRoundTrip(m: WsMessage.SubscribeMsg)
    ensures WsMessage.DecodeSubscribeMsg(WsMessage.EncodeSubscribeMsg(m)) == Ok(m)
    ensures WsMessage.EncodeSubscribeMsg(m).fields["type"] == JStr(m.msgType)
  {
    WsMessage.SubscribeMsgRoundTrip(m);
  }
}
