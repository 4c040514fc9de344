/** Websocket wire messages: the subscribe action names, the subscribe frame and
    the two inbound envelopes (feed messages carry a `recipient`, system
    acknowledgements a `type`). */
module WsMessage {

  import opened Wrappers
  import opened Json
  import opened JsonText

  datatype SubscribeAction = Subscribe | Unsubscribe

  /** `Into<String> for SubscribeAction`. */
  function ActionName(a: SubscribeAction): string {
    match a
    case Subscribe => "subscribe"
    case Unsubscribe => "unsubscribe"
  }

  /** The action a wire name denotes, if any. */
  function ActionFromName(s: string): Option<SubscribeAction> {
    if s == "subscribe" then Some(Subscribe)
    else if s == "unsubscribe" then Some(Unsubscribe)
    else None
  }

  /** The two actions have distinct wire names, each read back as its action. */
  lemma ActionNames(a: SubscribeAction, b: SubscribeAction)
    ensures ActionFromName(ActionName(a)) == Some(a)
    ensures ActionName(a) == ActionName(b) <==> a == b
    ensures ActionName(Subscribe) == "subscribe" && ActionName(Unsubscribe) == "unsubscribe"
  {
    assert "subscribe" != "unsubscribe" by { assert |"subscribe"| != |"unsubscribe"|; }
  }

  /** `SubscribeMsg { msg_type, feeds }`, with `msg_type` renamed to `type` on the wire. */
  datatype SubscribeMsg = SubscribeMsg(msgType: string, feeds: seq<string>)

  const SubscribeMsgFields: seq<string> := ["type", "feeds"]

  /** The members of the serialised message, in declaration order. */
  function SubscribeMsgMembers(m: SubscribeMsg): (ms: seq<(string, Json)>)
    ensures StringyMembers(ms)
  {
    [("type", JStr(m.msgType)), ("feeds", StrArray(m.feeds))]
  }

  /** The derived `Serialize`, as a JSON value. */
  function EncodeSubscribeMsg(m: SubscribeMsg): Json {
    JObj(map["type" := JStr(m.msgType), "feeds" := StrArray(m.feeds)])
  }

  /** The derived `Deserialize`. */
  function DecodeSubscribeMsg(j: Json): (r: Decoded<SubscribeMsg>)
    ensures j.JObj? && r.Ok? ==> "type" in j.fields && "feeds" in j.fields
    ensures j.JObj? && r.Ok? ==> j.fields["type"] == JStr(r.value.msgType)
  {
    var m :- StructView(j, SubscribeMsgFields);
    var t :- DecodeString(m["type"]);
    var feeds :- DecodeVec(m["feeds"], DecodeString);
    Ok(SubscribeMsg(t, feeds))
  }

  /** Deserialising a serialised message gives it back: type and feeds, in order. */
  lemma SubscribeMsgRoundTrip(m: SubscribeMsg)
    ensures DecodeSubscribeMsg(EncodeSubscribeMsg(m)) == Ok(m)
  {
    StrArrayDecodes(m.feeds);
  }

  /** `serde_json::to_string` of the message: `type` first, then `feeds`, in field order. */
  function SubscribeMsgText(m: SubscribeMsg): string {
    ObjectText(SubscribeMsgMembers(m))
  }

  /** The text denotes exactly the serialised value. */
  lemma SubscribeMsgTextReads(m: SubscribeMsg)
    ensures ReadObject(SubscribeMsgText(m)) == Some(EncodeSubscribeMsg(m))
  {
    var ms := SubscribeMsgMembers(m);
    ReadObjectText(ms);
    assert Assign(map[], ms) == Assign(map["type" := JStr(m.msgType)], ms[1..]);
    assert Assign(map[], ms) == map["type" := JStr(m.msgType), "feeds" := StrArray(m.feeds)];
  }

  /** `WsResponse<T>`: a feed message addressed to a topic. */
  datatype WsResponse<T> = WsResponse(recipient: string, payload: T, sequence: Usize, timestamp: Usize)

  const WsResponseFields: seq<string> := ["recipient", "payload", "sequence", "timestamp"]

  function DecodeWsResponse<T>(j: Json, payload: Json -> Decoded<T>): (r: Decoded<WsResponse<T>>)
    ensures j.JObj? && r.Ok? ==> forall k :: k in WsResponseFields ==> k in j.fields
    ensures j.JObj? && r.Ok? ==>
              (j.fields["recipient"] == JStr(r.value.recipient)
               && payload(j.fields["payload"]) == Ok(r.value.payload)
               && j.fields["sequence"] == UsizeJson(r.value.sequence)
               && j.fields["timestamp"] == UsizeJson(r.value.timestamp))
  {
    var m :- StructView(j, WsResponseFields);
    var recipient :- DecodeString(m["recipient"]);
    var p :- payload(m["payload"]);
    var sequence :- DecodeUsize(m["sequence"]);
    var timestamp :- DecodeUsize(m["timestamp"]);
    Ok(WsResponse(recipient, p, sequence, timestamp))
  }

  function EncodeWsResponse<T>(e: WsResponse<T>, payload: Json): Json {
    JObj(map["recipient" := JStr(e.recipient), "payload" := payload,
             "sequence" := UsizeJson(e.sequence), "timestamp" := UsizeJson(e.timestamp)])
  }

  /** An envelope decodes back to itself whenever its payload does. */
  lemma WsResponseRoundTrip<T>(e: WsResponse<T>, pj: Json, payload: Json -> Decoded<T>)
    requires payload(pj) == Ok(e.payload)
    ensures DecodeWsResponse(EncodeWsResponse(e, pj), payload) == Ok(e)
  {
  }

  /** `WsSystemResponse<T>`: an acknowledgement whose `type` names the message type. */
  datatype WsSystemResponse<T> = WsSystemResponse(msgType: string, payload: T, sequence: Usize, timestamp: Usize)

  const WsSystemResponseFields: seq<string> := ["type", "payload", "sequence", "timestamp"]

  function DecodeWsSystemResponse<T>(j: Json, payload: Json -> Decoded<T>): (r: Decoded<WsSystemResponse<T>>)
    ensures j.JObj? ==>
              (r.Ok? <==> ("type" in j.fields && j.fields["type"].JStr?
                           && "payload" in j.fields && payload(j.fields["payload"]).Ok?
                           && "sequence" in j.fields && DecodeUsize(j.fields["sequence"]).Ok?
                           && "timestamp" in j.fields && DecodeUsize(j.fields["timestamp"]).Ok?))
    ensures j.JObj? && r.Ok? ==>
              (j.fields["type"] == JStr(r.value.msgType)
               && payload(j.fields["payload"]) == Ok(r.value.payload)
               && j.fields["sequence"] == UsizeJson(r.value.sequence)
               && j.fields["timestamp"] == UsizeJson(r.value.timestamp))
  {
    var m :- StructView(j, WsSystemResponseFields);
    var t :- DecodeString(m["type"]);
    var p :- payload(m["payload"]);
    var sequence :- DecodeUsize(m["sequence"]);
    var timestamp :- DecodeUsize(m["timestamp"]);
    Ok(WsSystemResponse(t, p, sequence, timestamp))
  }

  function EncodeWsSystemResponse<T>(e: WsSystemResponse<T>, payload: Json): Json {
    JObj(map["type" := JStr(e.msgType), "payload" := payload,
             "sequence" := UsizeJson(e.sequence), "timestamp" := UsizeJson(e.timestamp)])
  }

  /** An acknowledgement decodes back to itself whenever its payload does. */
  lemma WsSystemResponseRoundTrip<T>(e: WsSystemResponse<T>, pj: Json, payload: Json -> Decoded<T>)
    requires payload(pj) == Ok(e.payload)
    ensures DecodeWsSystemResponse(EncodeWsSystemResponse(e, pj), payload) == Ok(e)
  {
  }

  /** A system acknowledgement without any one of its four keys is rejected. */
  lemma WsSystemResponseNeedsAllKeys<T>(m: map<string, Json>, k: string, payload: Json -> Decoded<T>)
    requires k in WsSystemResponseFields
    ensures DecodeWsSystemResponse(JObj(m - {k}), payload).Err?
  {
  }

  /** `WsSubscriptionResponsePayload { action, feeds }`. */
  datatype WsSubscriptionResponsePayload = WsSubscriptionResponsePayload(action: string, feeds: seq<string>)

  const SubscriptionPayloadFields: seq<string> := ["action", "feeds"]

  function DecodeWsSubscriptionResponsePayload(j: Json): (r: Decoded<WsSubscriptionResponsePayload>)
    ensures j.JObj? ==>
              (r.Ok? <==> ("action" in j.fields && j.fields["action"].JStr?
                           && "feeds" in j.fields && DecodeVec(j.fields["feeds"], DecodeString).Ok?))
    ensures j.JObj? && r.Ok? ==>
              (j.fields["action"] == JStr(r.value.action)
               && DecodeVec(j.fields["feeds"], DecodeString) == Ok(r.value.feeds))
  {
    var m :- StructView(j, SubscriptionPayloadFields);
    var action :- DecodeString(m["action"]);
    var feeds :- DecodeVec(m["feeds"], DecodeString);
    Ok(WsSubscriptionResponsePayload(action, feeds))
  }

  function EncodeWsSubscriptionResponsePayload(p: WsSubscriptionResponsePayload): Json {
    JObj(map["action" := JStr(p.action), "feeds" := StrArray(p.feeds)])
  }

  /** An acknowledgement of any action and feed list decodes back to itself. */
  lemma SubscriptionPayloadRoundTrip(p: WsSubscriptionResponsePayload)
    ensures DecodeWsSubscriptionResponsePayload(EncodeWsSubscriptionResponsePayload(p)) == Ok(p)
  {
    StrArrayDecodes(p.feeds);
  }
}
