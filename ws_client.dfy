/** The websocket client (`src/websocket/mod.rs`, with `authenticate` from
    `src/websocket/auth.rs`): server URL selection, the handshake rule, the
    subscribe frames, and how failures of the shared write sink are reported.
    The sink is modelled by the sequence of frames written to it; whether a
    write fails is an input (`SinkFault`), since locking and the socket are not
    modelled. */
module WsClient {

  import opened Wrappers
  import opened Json
  import opened JsonText
  import opened WsMessage
  import opened WsAuth
  import opened Http

  const DEFAULT_WS_SERVER_URL: string := "wss://ws.sfox.com/ws"

  /** `Client::new`: the value of `SFOX_WS_SERVER_URL` when it is set, else the default. */
  function ServerUrl(env: Option<string>): (url: string)
    ensures env.Some? ==> url == env.value
    ensures env.None? ==> url == DEFAULT_WS_SERVER_URL
  {
    if env.Some? then env.value else DEFAULT_WS_SERVER_URL
  }

  datatype WebsocketClientError =
    | AuthenticationError(msg: string)
    | InitializationError(msg: string)
    | LockError(msg: string)
    | TxError(msg: string)

  /** The fixed text `Display` puts before the message of each variant. */
  function ErrorPrefix(e: WebsocketClientError): (p: string)
    ensures e.AuthenticationError? ==> p == "Authentication error: "
    ensures e.InitializationError? ==> p == "could not create http client: "
    ensures e.LockError? ==> p == "could not lock the write stream "
    ensures e.TxError? ==> p == "could not send message: "
    ensures |p| >= 12
  {
    match e
    case AuthenticationError(_) => "Authentication error: "
    case InitializationError(_) => "could not create http client: "
    case LockError(_) => "could not lock the write stream "
    case TxError(_) => "could not send message: "
  }

  /** `Display` of the error (`e.to_string()`). */
  function ErrorText(e: WebsocketClientError): (s: string)
    ensures |s| == |ErrorPrefix(e)| + |e.msg|
    ensures s[..|ErrorPrefix(e)|] == ErrorPrefix(e) && s[|ErrorPrefix(e)|..] == e.msg
  {
    ErrorPrefix(e) + e.msg
  }

  /** The displayed text identifies the error: the variant by its prefix (which
      characters 0 and 11 tell apart), the message by the rest. */
  lemma ErrorTextInjective(a: WebsocketClientError, b: WebsocketClientError)
    requires ErrorText(a) == ErrorText(b)
    ensures a == b
  {
    var s := ErrorText(a);
    assert s[0] == ErrorPrefix(a)[0] == ErrorPrefix(b)[0];
    assert s[11] == ErrorPrefix(a)[11] == ErrorPrefix(b)[11];
    assert ErrorPrefix(a) == ErrorPrefix(b);
    assert a.msg == s[|ErrorPrefix(a)|..] == b.msg;
  }

  // ---------------------------------------------------------------------------
  // The subscribe frame.

  /** `feed_msg`: the text of `SubscribeMsg { msg_type: action.into(), feeds }`. */
  function FeedMsg(feeds: seq<string>, action: SubscribeAction): string {
    SubscribeMsgText(SubscribeMsg(ActionName(action), feeds))
  }

  /** The text carries the action name under `type` and one JSON string per feed, in order. */
  lemma FeedMsgReads(feeds: seq<string>, action: SubscribeAction)
    ensures ReadObject(FeedMsg(feeds, action)) == Some(JObj(map["type" := JStr(ActionName(action)), "feeds" := StrArray(feeds)]))
    ensures DecodeSubscribeMsg(ReadObject(FeedMsg(feeds, action)).value) == Ok(SubscribeMsg(ActionName(action), feeds))
    ensures ActionFromName(DecodeSubscribeMsg(ReadObject(FeedMsg(feeds, action)).value).value.msgType) == Some(action)
  {
    SubscribeMsgTextReads(SubscribeMsg(ActionName(action), feeds));
    SubscribeMsgRoundTrip(SubscribeMsg(ActionName(action), feeds));
    ActionNames(action, action);
  }

  /** What follows the action name in every frame: the `feeds` member and the closing brace. */
  function FeedsTail(feeds: seq<string>): string {
    "," + (Quote("feeds") + (":" + (ValueText(StrArray(feeds)) + "}")))
  }

  /** `type` comes first, `feeds` second; the two actions' frames for the same feeds
      share everything except the quoted action name. */
  lemma FeedMsgShape(feeds: seq<string>, action: SubscribeAction)
    ensures FeedMsg(feeds, action) == "{" + (Quote("type") + (":" + (Quote(ActionName(action)) + FeedsTail(feeds))))
  {
    var name := ActionName(action);
    var ms := SubscribeMsgMembers(SubscribeMsg(name, feeds));
    assert ms[1..] == [("feeds", StrArray(feeds))];
    assert MembersThen(ms[1..], "}") == Quote("feeds") + (":" + (ValueText(StrArray(feeds)) + "}"));
    assert ValueText(JStr(name)) == Quote(name);
    assert MembersThen(ms, "}") == Quote("type") + (":" + (Quote(name) + ("," + MembersThen(ms[1..], "}"))));
    assert FeedMsg(feeds, action) == "{" + MembersThen(ms, "}");
  }

  /** The pinned frame of the unit test, `{"type":"subscribe","feeds":["btcusd","ethusd"]}`
      (written as two adjacent literals). */
  lemma FeedMsgExample()
    ensures FeedMsg(["btcusd", "ethusd"], Subscribe) == "{\"type\":\"subscribe\"," + "\"feeds\":[\"btcusd\",\"ethusd\"]}"
  {
    FeedMsgShape(["btcusd", "ethusd"], Subscribe);
    ExampleTail();
    QuoteType("type");
    QuoteSubscribe("subscribe");
    ExampleHead("\"feeds\":[\"btcusd\",\"ethusd\"]}");
  }

  lemma ExampleHead(b: string)
    ensures "{" + ("\"type\"" + (":" + ("\"subscribe\"" + ("," + b)))) == "{\"type\":\"subscribe\"," + b
  {
  }

  lemma ExampleTail()
    ensures FeedsTail(["btcusd", "ethusd"]) == "," + "\"feeds\":[\"btcusd\",\"ethusd\"]}"
  {
    ExampleValue();
    QuoteFeeds("feeds");
    ExampleTailJoin();
  }

  lemma ExampleTailJoin()
    ensures "," + ("\"feeds\"" + (":" + ("[\"btcusd\",\"ethusd\"]" + "}"))) == "," + "\"feeds\":[\"btcusd\",\"ethusd\"]}"
  {
  }

  lemma ExampleItems(items: seq<Json>)
    requires items == [JStr("btcusd"), JStr("ethusd")]
    ensures ItemsText(items) == "\"btcusd\",\"ethusd\""
  {
    ExampleItemsSplit(items);
    ExampleQuotes("btcusd", "ethusd");
    ExampleItemsJoin();
  }

  lemma ExampleItemsSplit(items: seq<Json>)
    requires items == [JStr("btcusd"), JStr("ethusd")]
    ensures ItemsText(items) == Quote("btcusd") + "," + ItemsText([JStr("ethusd")])
  {
    assert items[1..] == [JStr("ethusd")];
  }

  lemma ExampleQuotes(b: string, e: string)
    requires b == "btcusd" && e == "ethusd"
    ensures ItemsText([JStr(e)]) == "\"ethusd\""
    ensures Quote(b) == "\"btcusd\""
  {
    var one := [JStr(e)];
    assert ItemsText(one) == Quote(one[0].s);
    QuotePlain(e);
    QuotePlain(b);
  }

  lemma ExampleItemsJoin()
    ensures "\"btcusd\"" + "," + "\"ethusd\"" == "\"btcusd\",\"ethusd\""
  {
  }

  lemma ExampleValue()
    ensures ValueText(StrArray(["btcusd", "ethusd"])) == "[\"btcusd\",\"ethusd\"]"
  {
    var v := StrArray(["btcusd", "ethusd"]);
    ExampleArray();
    ExampleItems(v.items);
    assert ValueText(v) == "[" + ItemsText(v.items) + "]";
    ExampleBrackets();
  }

  lemma ExampleArray()
    ensures StrArray(["btcusd", "ethusd"]).items == [JStr("btcusd"), JStr("ethusd")]
  {
  }

  lemma ExampleBrackets()
    ensures "[" + "\"btcusd\",\"ethusd\"" + "]" == "[\"btcusd\",\"ethusd\"]"
  {
  }

  /** A string without quotes, backslashes or control characters is quoted as it is. */
  lemma QuotePlain(s: string)
    requires Plain(s)
    ensures Quote(s) == "\"" + s + "\""
  {
    EscapePlain(s);
  }

  lemma QuoteFeeds(s: string) requires s == "feeds" ensures Quote(s) == "\"feeds\"" { QuotePlain(s); }

  lemma QuoteType(s: string) requires s == "type" ensures Quote(s) == "\"type\"" { QuotePlain(s); }

  lemma QuoteSubscribe(s: string) requires s == "subscribe" ensures Quote(s) == "\"subscribe\"" { QuotePlain(s); }

  // ---------------------------------------------------------------------------
  // Connecting.

  /** `new_with_server_url` after `connect_async`: a reply whose status is not
      informational (1xx) is refused. `debugText` is the reply's `Debug` text. */
  function CheckHandshake(status: nat, debugText: string): (r: Result<(), WebsocketClientError>)
    ensures r.Ok? <==> 100 <= status <= 199
    ensures r.Err? ==> r.error == InitializationError("Websocket connection unsuccessful: " + debugText)
  {
    if 100 <= status < 200 then Ok(())
    else Err(InitializationError("Websocket connection unsuccessful: " + debugText))
  }

  /** What `connect_async` produced: an accepted reply, or a failure to connect. */
  datatype ConnectOutcome = Replied(status: nat, debugText: string) | ConnectFailed(reason: string)

  /** A write to the sink that does not go through: the lock is poisoned, or the socket refuses the frame. */
  datatype SinkFault = LockPoisoned(text: string) | SendFailed(text: string)

  /** How `send` reports a fault: both kinds become `TxError`. */
  function SendError(f: SinkFault): (e: WebsocketClientError)
    ensures e.TxError? && !e.LockError?
    ensures f.LockPoisoned? ==> e.msg == f.text
    ensures f.SendFailed? ==> e.msg == "Could not send message: " + f.text
  {
    match f
    case LockPoisoned(t) => TxError(t)
    case SendFailed(t) => TxError("Could not send message: " + t)
  }

  class Client {
    const serverUrl: string
    /** The frames written to the sink, oldest first. */
    var sent: seq<string>

    constructor (serverUrl: string)
      ensures this.serverUrl == serverUrl && sent == []
    {
      this.serverUrl := serverUrl;
      sent := [];
    }

    /** `send`: one frame, or a `TxError` and nothing written. */
    method Send(msg: string, fault: Option<SinkFault>) returns (r: Result<(), WebsocketClientError>)
      modifies this
      ensures fault.None? ==> r == Ok(()) && sent == old(sent) + [msg]
      ensures fault.Some? ==> r == Err(SendError(fault.value)) && sent == old(sent)
    {
      match fault
      case None =>
        sent := sent + [msg];
        r := Ok(());
      case Some(f) =>
        r := Err(SendError(f));
    }

    /** `subscribe`: the subscribe frame, with a send failure reported as a transport error. */
    method Subscribe(feeds: seq<string>, fault: Option<SinkFault>) returns (r: Result<(), HttpError>)
      modifies this
      ensures r.Ok? <==> fault.None?
      ensures fault.None? ==> sent == old(sent) + [FeedMsg(feeds, WsMessage.Subscribe)]
      ensures fault.Some? ==> r == Err(TransportError(ErrorText(SendError(fault.value)))) && sent == old(sent)
    {
      var s := Send(FeedMsg(feeds, WsMessage.Subscribe), fault);
      match s
      case Ok(_) => r := Ok(());
      case Err(e) => r := Err(TransportError(ErrorText(e)));
    }

    /** `unsubscribe`: the same, with the unsubscribe frame. */
    method Unsubscribe(feeds: seq<string>, fault: Option<SinkFault>) returns (r: Result<(), HttpError>)
      modifies this
      ensures r.Ok? <==> fault.None?
      ensures fault.None? ==> sent == old(sent) + [FeedMsg(feeds, WsMessage.Unsubscribe)]
      ensures fault.Some? ==> r == Err(TransportError(ErrorText(SendError(fault.value)))) && sent == old(sent)
    {
      var s := Send(FeedMsg(feeds, WsMessage.Unsubscribe), fault);
      match s
      case Ok(_) => r := Ok(());
      case Err(e) => r := Err(TransportError(ErrorText(e)));
    }

    /** `authenticate`: no credential means no frame; any failure is an `AuthenticationError`. */
    method Authenticate(token: Option<string>, fault: Option<SinkFault>) returns (r: Result<(), WebsocketClientError>)
      modifies this
      ensures token.None? ==> r == Err(AuthenticationError(NOT_PRESENT_TEXT)) && sent == old(sent)
      ensures token.Some? && fault.None? ==> r == Ok(()) && sent == old(sent) + [AuthMessageText(token.value)]
      ensures token.Some? && fault.Some? ==>
                r == Err(AuthenticationError(ErrorText(SendError(fault.value)))) && sent == old(sent)
      ensures r.Err? ==> r.error.AuthenticationError?
    {
      var frame := AuthFrame(token);
      if frame.Err? {
        r := Err(AuthenticationError(frame.error));
        return;
      }
      var s := Send(frame.value, fault);
      match s
      case Ok(_) => r := Ok(());
      case Err(e) => r := Err(AuthenticationError(ErrorText(e)));
    }
  }

  /** `new_with_server_url`: a client exactly when the connection is made and the
      handshake status is informational; otherwise an `InitializationError`. */
  method Connect(serverUrl: string, outcome: ConnectOutcome) returns (r: Result<Client, WebsocketClientError>)
    ensures outcome.ConnectFailed? ==>
              r == Err(InitializationError("Could not connect to websocket server: " + outcome.reason))
    ensures outcome.Replied? ==> (r.Ok? <==> 100 <= outcome.status <= 199)
    ensures outcome.Replied? && r.Err? ==> r == CheckHandshake(outcome.status, outcome.debugText).PropagateFailure()
    ensures r.Ok? ==> fresh(r.value) && r.value.serverUrl == serverUrl && r.value.sent == []
  {
    match outcome
    case ConnectFailed(reason) =>
      r := Err(InitializationError("Could not connect to websocket server: " + reason));
    case Replied(status, debugText) =>
      var check := CheckHandshake(status, debugText);
      if check.Err? {
        r := Err(check.error);
      } else {
        var c := new Client(serverUrl);
        r := Ok(c);
      }
  }
}
