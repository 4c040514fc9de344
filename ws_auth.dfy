/** The websocket authentication frame and the check of the server's answer
    to it (`src/websocket/auth.rs`). */
module WsAuth {

  import opened Wrappers
  import opened Json
  import opened JsonText
  import opened WsMessage

  /** What `VarError::NotPresent` displays: the text reported when `SFOX_AUTH_TOKEN` is unset.
      A value that is not valid Unicode is treated as unset here (`VarError::NotUnicode`'s own
      text is not modelled). */
  const NOT_PRESENT_TEXT: string := "environment variable not found"

  /** `json!({"type": "authenticate", "apiKey": token})`. */
  function AuthMessage(token: string): (j: Json)
    ensures j.JObj? && j.fields.Keys == {"type", "apiKey"}
    ensures j.fields["type"] == JStr("authenticate") && j.fields["apiKey"] == JStr(token)
  {
    JObj(map["type" := JStr("authenticate"), "apiKey" := JStr(token)])
  }

  /** The members as `to_string` writes them: a `json!` map keeps its keys sorted. */
  function AuthMessageMembers(token: string): (ms: seq<(string, Json)>)
    ensures StringyMembers(ms)
  {
    [("apiKey", JStr(token)), ("type", JStr("authenticate"))]
  }

  /** The frame text sent by `authenticate`. */
  function AuthMessageText(token: string): string {
    ObjectText(AuthMessageMembers(token))
  }

  /** The frame text denotes exactly the two-key object, whatever the token holds. */
  lemma AuthMessageTextReads(token: string)
    ensures ReadObject(AuthMessageText(token)) == Some(AuthMessage(token))
  {
    var ms := AuthMessageMembers(token);
    ReadObjectText(ms);
    AssignAuthMembers(token);
  }

  lemma AssignAuthMembers(token: string)
    ensures JObj(Assign(map[], AuthMessageMembers(token))) == AuthMessage(token)
  {
    var ms := AuthMessageMembers(token);
    var a := JStr(token);
    var t := JStr("authenticate");
    assert ms[1..] == [("type", t)];
    assert Assign(map[], ms) == Assign(map["apiKey" := a], ms[1..]);
    assert Assign(map["apiKey" := a], ms[1..]) == map["apiKey" := a]["type" := t];
    assert "apiKey" != "type";
    assert map["apiKey" := a]["type" := t] == map["type" := t, "apiKey" := a];
  }

  /** `auth_message()`: the frame when the token is set, the environment error otherwise. */
  function AuthFrame(token: Option<string>): (r: Result<string, string>)
    ensures r.Err? <==> token.None?
    ensures r.Err? ==> r.error == NOT_PRESENT_TEXT
    ensures r.Ok? ==> ReadObject(r.value) == Some(AuthMessage(token.value))
  {
    match token
    case None => Err(NOT_PRESENT_TEXT)
    case Some(t) =>
      AuthMessageTextReads(t);
      Ok(AuthMessageText(t))
  }

  /** `WsAuthResponsePayload { action }`. */
  datatype WsAuthResponsePayload = WsAuthResponsePayload(action: string)

  const AuthPayloadFields: seq<string> := ["action"]

  function DecodeWsAuthResponsePayload(j: Json): (r: Decoded<WsAuthResponsePayload>)
    ensures j.JObj? ==> (r.Ok? <==> "action" in j.fields && j.fields["action"].JStr?)
    ensures j.JObj? && r.Ok? ==> r.value.action == j.fields["action"].s
  {
    var m :- StructView(j, AuthPayloadFields);
    var action :- DecodeString(m["action"]);
    Ok(WsAuthResponsePayload(action))
  }

  /** An object that `WsSystemResponse<WsAuthResponsePayload>` accepts: the four keys
      present, a string type, a payload with a string action, and two unsigned
      64-bit counters. */
  predicate WellFormedAck(m: map<string, Json>) {
    && "type" in m && m["type"].JStr?
    && "payload" in m && DecodeWsAuthResponsePayload(m["payload"]).Ok?
    && "sequence" in m && DecodeUsize(m["sequence"]).Ok?
    && "timestamp" in m && DecodeUsize(m["timestamp"]).Ok?
  }

  /** `auth_message_check_success`, over the decoded frame: a frame that does not
      decode is an error, and a decoded acknowledgement is a success exactly when
      its type is `success` and its action is `authenticate`. */
  function AuthCheckSuccess(j: Json): (r: Decoded<bool>)
    ensures j.JObj? ==> (r.Ok? <==> WellFormedAck(j.fields))
    ensures j.JObj? && r.Ok? ==>
              (r.value <==> j.fields["type"] == JStr("success")
                            && DecodeWsAuthResponsePayload(j.fields["payload"]).value.action == "authenticate")
  {
    var ack :- DecodeWsSystemResponse(j, DecodeWsAuthResponsePayload);
    Ok(ack.msgType == "success" && ack.payload.action == "authenticate")
  }

  /** The acknowledgement of the first test: type `success`, action `authenticate`. */
  lemma AuthSuccessAccepted()
    ensures AuthCheckSuccess(JObj(map[
              "type" := JStr("success"),
              "sequence" := JNum(Int(1)),
              "payload" := JObj(map["action" := JStr("authenticate")]),
              "timestamp" := JNum(Int(1589389200000))])) == Ok(true)
  {
  }

  /** The frame of the second test names its type `msgType` and has no counters: an error, not `false`. */
  lemma AuthMsgTypeRejected()
    ensures AuthCheckSuccess(JObj(map[
              "msgType" := JStr("error"),
              "payload" := JObj(map["action" := JStr("authenticate")])])).Err?
  {
  }

  /** A decodable acknowledgement of any other type is a plain `false`. */
  lemma AuthOtherTypeIsFalse(m: map<string, Json>)
    requires WellFormedAck(m) && m["type"] != JStr("success")
    ensures AuthCheckSuccess(JObj(m)) == Ok(false)
  {
  }
}
