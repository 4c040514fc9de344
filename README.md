# sfox client core, modelled in Dafny

This project models the core of `sfox`, a Rust client for the SFOX crypto-trading API. The model covers two sides.

**Websocket side.**
- The topic table: order book, trades and ticker feeds for a pair, plus the three private account feeds.
- The subscribe/unsubscribe frame `{"type":…,"feeds":[…]}` and the authentication frame `{"apiKey":…,"type":"authenticate"}`.
- The ack check that says whether the server accepted the authentication.
- The client object, which keeps the list of frames written to its sink.
- Decoding of every feed payload, from a JSON value into the message records.

**HTTP side.**
- How each endpoint shapes its request:
  - the verb;
  - the path under `/v1/`, or the bare resource path of the `resources` variant;
  - the query strings, including the comma-joined id list of `cancel_orders`;
  - parameter maps in which each optional key is present exactly when its argument is `Some`.
- The validation that turns a bad argument into `HttpError::InvalidRequest`.
- The interval-to-seconds conversion of the volume endpoint.
- The scientific-notation tolerant float decoder of the order book.
- The `{}` rescue of `crypto_deposit_address`.

Modules, one per source file:
- Supporting modules:
  - `Wrappers`: `Option` and `Result`.
  - `Json` also defines `Usize`, a 64-bit unsigned integer.
  - `Json`: an abstract JSON value, plus the serde decoding rules the derived decoders follow. For an object, the named keys are required and other keys are ignored. For an array, exactly one element per field, in declaration order.
  - `JsonText`: a reference reader for the JSON text of the frames.
  - `Text`: decimal rendering and parsing, and `split`.
  - `Http`: requests.
- One module for each core source file:
  - `WsMessage`, `WsAuth`, `WsClient`, `Topics`;
  - `MarketOrderbook`, `MarketOrderBookResponse`, `MarketTrades`, `MarketTrade`, `MarketTicker`, `WsMarketOrderBook`;
  - `Account`, `AccountBalance`, `AccountOrder`, `AccountPostTradeSettlement`;
  - `HttpV1`, `HttpResources`;
  - `V1Volume`, `V1Order`, `ResourcesOrder`, `V1Short`, `V1Quote`, `ResourcesQuote`;
  - `V1Custody`, `V1Report`, `V1PostTradeSettlement`;
  - `V1CryptoDepositAddress`, `ResourcesCryptoDepositAddress`, `V1OrderBook`.

Outside inputs are parameters:
- The environment (`SFOX_AUTH_TOKEN`, the server URL variable) is an `Option<string>`.
- Float parsing (`str::parse::<f64>`) is a function `string -> Option<real>`.
- Float formatting (`f64::to_string`) is a function `real -> string`.
- URI validity is a predicate.
- How the transport fails (a poisoned lock, a failed send, a refused connection, the handshake status) is a parameter of the method that would meet it.

An HTTP endpoint is modelled as the request it would send:

    Request(verb, target, params, kind)

- `target` is either `V1(resource, suffix)`, the argument passed to `url_for_v1_resource` plus any text appended to its result, or `Path(path)`.
- `params` is the JSON body as an optional string map.
- `kind` says whether the response is read as JSON or as text.

Where the source fills a `HashMap` step by step, the model is a method that does the same, one map update after another.

## Model

| member | source | states |
|---|---|---|
| WsMessage.ActionNames | src/websocket/message/mod.rs:38-50 | `subscribe`/`unsubscribe` are the wire names, distinct, and read back to the same action |
| WsMessage.SubscribeMsgMembers | src/websocket/message/mod.rs:25-30 | every serialized member's value is a string or an array of strings, the shape the reference reader reads back |
| WsMessage.DecodeSubscribeMsg | src/websocket/message/mod.rs:25-30 | an accepted frame has `type` and `feeds` keys, and `msgType` is the `type` string |
| WsMessage.SubscribeMsgRoundTrip | src/websocket/message/mod.rs:25-30 | encoding a subscribe message and decoding it gives the same message |
| WsMessage.SubscribeMsgTextReads | src/websocket/message/mod.rs:25-30 | the serialized text of a subscribe message reads back as its JSON value |
| WsMessage.DecodeWsResponse | src/websocket/message/mod.rs:8-14 | an accepted feed envelope has all its keys, `recipient` is its string, and `payload` decodes to the payload |
| WsMessage.WsResponseRoundTrip | src/websocket/message/mod.rs:8-14 | any envelope whose payload JSON decodes to its payload decodes back to itself |
| WsMessage.DecodeWsSystemResponse | src/websocket/message/mod.rs:16-23 | an object decodes exactly when `type` is a string, `payload` decodes and `sequence` and `timestamp` are `usize` values; each field is then what its key holds |
| WsMessage.WsSystemResponseRoundTrip | src/websocket/message/mod.rs:16-23 | any acknowledgement whose payload JSON decodes to its payload decodes back to itself |
| WsMessage.WsSystemResponseNeedsAllKeys | src/websocket/message/mod.rs:16-23 | removing any of the four keys makes a system response fail to decode |
| WsMessage.DecodeWsSubscriptionResponsePayload | src/websocket/message/mod.rs:32-36 | an object decodes exactly when `action` is a string and `feeds` a list of strings, which become the two fields |
| WsMessage.SubscriptionPayloadRoundTrip | src/websocket/message/mod.rs:32-36 | every acknowledgement payload, any action and any feed list, decodes back to itself |
| WsMarketOrderBook.EncodeOrderBookType | src/websocket/market/order_book.rs:10-16 | an order book type is sent as a JSON string |
| WsMarketOrderBook.DecodeOrderBookType | src/websocket/market/order_book.rs:10-16 | only `"net"` and `"sfox"` are accepted (per-variant renames), and each decodes to the type that encodes to it |
| WsMarketOrderBook.OrderBookTypeRoundTrip | src/websocket/market/order_book.rs:10-16 | encoding then decoding a book type gives it back |
| WsMarketOrderBook.OrderBookTypeNamesDiffer | src/websocket/market/order_book.rs:10-16 | the two book types have different wire names |
| WsMarketOrderBook.SubscribeMsgRoundTrip | src/websocket/market/order_book.rs:3-8 | this module's subscribe message (`type` renamed from `msg_type`, plus `feeds`) round-trips, with its type under the `type` key |
| WsAuth.AuthMessage | src/websocket/auth.rs:37-47 | the auth frame is an object with exactly the keys `type` and `apiKey`: `type` is `"authenticate"`, `apiKey` is the token |
| WsAuth.AuthMessageMembers | src/websocket/auth.rs:37-47 | every serialized member's value is a string, the shape the reference reader reads back |
| WsAuth.AuthMessageTextReads | src/websocket/auth.rs:37-47 | the auth frame's text reads back as its JSON object |
| WsAuth.AssignAuthMembers | src/websocket/auth.rs:37-47 | the members, assigned into a map, form exactly the auth object |
| WsAuth.AuthFrame | src/websocket/auth.rs:37-47 | no token gives the environment-variable error; a token gives a frame whose text reads back as the auth object for it |
| WsAuth.DecodeWsAuthResponsePayload | src/websocket/auth.rs:9-12 | the ack payload decodes exactly when `action` is a string, and keeps that string |
| WsAuth.AuthCheckSuccess | src/websocket/auth.rs:29-34 | an ack that decodes is accepted, and the check yields true exactly when its `type` is `"success"` and its payload's action is `"authenticate"` |
| WsAuth.AuthSuccessAccepted | src/websocket/auth.rs:53-69 | the success ack of the unit test yields `Ok(true)` |
| WsAuth.AuthMsgTypeRejected | src/websocket/auth.rs:71-85 | the failure ack of the unit test, keyed `msgType` instead of `type` and missing its counters, is a decode error rather than `false` |
| WsAuth.AuthOtherTypeIsFalse | src/websocket/auth.rs:29-34 | a well-formed ack of any other type yields `Ok(false)`, not an error |
| WsClient.ServerUrl | src/websocket/mod.rs:44-49 | the configured URL wins; without one, the default URL is used |
| WsClient.ErrorPrefix | src/websocket/mod.rs:23-33 | each error kind displays its own fixed prefix, the text of its `#[error]` attribute, at least twelve characters long |
| WsClient.ErrorText | src/websocket/mod.rs:23-33 | an error's text is its kind's prefix followed by its message |
| WsClient.ErrorTextInjective | src/websocket/mod.rs:23-33 | distinct errors have distinct texts: the text determines both kind and message |
| WsClient.FeedMsgReads | src/websocket/mod.rs:111-114 | the subscribe frame reads back as `{"type": action, "feeds": feeds}`, decodes as a SubscribeMsg, and its type names the action |
| WsClient.FeedMsgShape | src/websocket/mod.rs:111-114 | the frame text is `{"type":` + the quoted action + the feeds member + `}`, in that key order |
| WsClient.FeedMsgExample | src/websocket/mod.rs:150-156 | subscribing to `btcusd` and `ethusd` gives the exact text the unit test expects |
| WsClient.CheckHandshake | src/websocket/mod.rs:65-70 | the handshake succeeds exactly for a 1xx status; otherwise it is an initialization error carrying the response |
| WsClient.SendError | src/websocket/mod.rs:101-108 | both a poisoned lock and a failed write are reported as `TxError`, the latter prefixed "Could not send message: " |
| WsClient.Client.constructor | src/websocket/mod.rs:72-79 | a new client has the given server URL and has sent nothing |
| WsClient.Client.Send | src/websocket/mod.rs:101-108 | without a fault, the message is appended to what was sent; with one, nothing is sent and the error is returned |
| WsClient.Client.Subscribe | src/websocket/mod.rs:83-88 | appends exactly the subscribe frame for the feeds, or maps the send error to `HttpError::TransportError` with its text |
| WsClient.Client.Unsubscribe | src/websocket/mod.rs:91-99 | the same for the unsubscribe frame |
| WsClient.Client.Authenticate | src/websocket/auth.rs:16-26 | no token: an AuthenticationError and nothing sent; otherwise exactly the auth frame is sent, or the send failure becomes an AuthenticationError |
| WsClient.Connect | src/websocket/mod.rs:52-80 | a refused connection or a non-1xx handshake is an InitializationError; success gives a fresh client for the URL with nothing sent |
| Topics.TopicName | src/websocket/message/market/orderbook.rs:51-53 | every topic string is at least twelve characters (each family prefix) |
| Topics.FamilyMarks | src/websocket/message/account.rs:3-5 | the first characters of a topic tell its family: `o` order book, `tr` trades, `ti` ticker, `p` private account feeds |
| Topics.TopicNameInjective | src/websocket/message/account.rs:3-5 | no two feeds share a topic string, across all families and pairs |
| MarketOrderbook.OrderFrom | src/websocket/message/market/orderbook.rs:27-35 | the tuple's three positions become price, quantity and source |
| MarketOrderbook.DecodeOrder | src/websocket/message/market/orderbook.rs:19-35 | a level decodes exactly from a three-element array of a number, a number and a string, in that order |
| MarketOrderbook.DecodeOrderRejectsStringQuantity | src/websocket/message/market/orderbook.rs:19-35 | a quantity written as the string `"1e-08"` is rejected |
| MarketOrderbook.OrderRoundTrip | src/websocket/message/market/orderbook.rs:19-35 | a level encodes and decodes to itself |
| MarketOrderbook.DecodeMarketMaking | src/websocket/message/market/orderbook.rs:13-17 | an object decodes exactly when `asks` and `bids` are level lists that decode, and the fields are those lists |
| MarketOrderbook.DecodeOrderbook | src/websocket/message/market/orderbook.rs:3-17 | an accepted book has all six keys, and each field is what its key decodes to |
| MarketOrderbook.OrderbookFrom | src/websocket/message/market/orderbook.rs:3-17 | the field-by-field decode agrees with every key |
| MarketOrderbook.OrdersRoundTrip | src/websocket/message/market/orderbook.rs:19-35 | a level list round-trips, in order |
| MarketOrderbook.MarketMakingRoundTrip | src/websocket/message/market/orderbook.rs:13-17 | market-making data round-trips |
| MarketOrderbook.OrderbookRoundTrip | src/websocket/message/market/orderbook.rs:3-17 | a whole book decodes back to itself, every level in its order |
| MarketOrderbook.EncodedOrderbookFields | src/websocket/message/market/orderbook.rs:3-17 | the encoded book carries each field under its wire key |
| MarketOrderbook.OrderbookFromEncoded | src/websocket/message/market/orderbook.rs:3-17 | the encoded fields decode to the book |
| MarketOrderbook.OrderBookFeed | src/websocket/message/market/orderbook.rs:42-53 | the topic is `orderbook.`, the book type's name, a dot, then the pair |
| MarketOrderbook.OrderBookFeedInjective | src/websocket/message/market/orderbook.rs:42-53 | the topic determines both the pair and the book type |
| MarketOrderBookResponse.DecodeOrder | src/websocket/message/market/order_book.rs:23-28 | a level object decodes exactly when it has numeric `price` and `quantity` and a string `source`, and keeps them |
| MarketOrderBookResponse.OrderNeedsAllKeys | src/websocket/message/market/order_book.rs:23-28 | a level object missing any of its three keys is rejected |
| MarketOrderBookResponse.DecodeMarketMaking | src/websocket/message/market/order_book.rs:17-21 | an object decodes exactly when `asks` and `bids` are level lists that decode, and the fields are those lists |
| MarketOrderBookResponse.PayloadFrom | src/websocket/message/market/order_book.rs:7-15 | the field-by-field decode succeeds exactly when each of the six fields decodes, and then agrees with every key |
| MarketOrderBookResponse.PayloadRest | src/websocket/message/market/order_book.rs:7-15 | after the levels, the decode succeeds exactly when the counters, market-making data and pair decode, keeps the levels and agrees with those keys |
| MarketOrderBookResponse.PayloadFromFields | src/websocket/message/market/order_book.rs:7-15 | an object whose fields describe a payload decodes to exactly that payload |
| MarketOrderBookResponse.DecodePayload | src/websocket/message/market/order_book.rs:7-15 | an accepted payload has all six keys, and each field is what its key decodes to |
| MarketOrderBookResponse.PayloadNeedsAllKeys | src/websocket/message/market/order_book.rs:7-15 | a payload missing any of the six keys is rejected |
| MarketOrderBookResponse.DecodeWsOrderBookResponse | src/websocket/message/market/order_book.rs:5 | an accepted envelope has all four keys, `recipient` is its string and `payload` decodes to the payload |
| MarketOrderBookResponse.WsOrderBookResponseFromFields | src/websocket/message/market/order_book.rs:5 | an envelope around a well-formed payload object decodes to exactly that envelope |
| MarketOrderBookResponse.SameAsSibling | src/websocket/message/market/order_book.rs:30-46 | the book types and topics here are the same strings as in `orderbook.rs` |
| MarketOrderBookResponse.NetAndSfoxTopicsDiffer | src/websocket/message/market/order_book.rs:44-46 | the fee-adjusted and plain topics of one pair differ |
| MarketTrades.DecodeTransactionSide | src/websocket/message/market/trades.rs:7-11 | only `"Buy"` and `"Sell"` are sides, each decoding to its own variant |
| MarketTrades.UnknownSideRejected | src/websocket/message/market/trades.rs:7-11 | any other string is an unknown-variant error naming it |
| MarketTrades.PayloadFrom | src/websocket/message/market/trades.rs:13-28 | the field-by-field decode agrees with every key |
| MarketTrades.DecodePayload | src/websocket/message/market/trades.rs:13-28 | an accepted payload has all eleven keys (ids under the camel-case names), and each field is what its key decodes to |
| MarketTrades.PayloadFromFields | src/websocket/message/market/trades.rs:13-28 | conversely, fields of the right types decode to exactly the payload they describe |
| MarketTrades.PayloadRejectsUnknownSide | src/websocket/message/market/trades.rs:13-28 | a payload with an unknown side is rejected as a whole |
| MarketTrades.PayloadNeedsCamelCaseIds | src/websocket/message/market/trades.rs:13-28 | without `buyOrderId` the payload is rejected |
| MarketTrades.DecodeWsTradesResponse | src/websocket/message/market/trades.rs:5 | the feed envelope is read with the trades payload decoder |
| MarketTrades.TradeFeed | src/websocket/message/market/trades.rs:30-32 | the topic is `trades.sfox.` followed by the pair |
| MarketTrades.TradeFeedInjective | src/websocket/message/market/trades.rs:30-32 | different pairs have different trade topics |
| MarketTrade.TradeFrom | src/websocket/message/market/trade.rs:3-17 | the field-by-field decode agrees with every key |
| MarketTrade.DecodeTrade | src/websocket/message/market/trade.rs:3-17 | an accepted trade has all eleven keys, and each field is what its key holds |
| MarketTrade.TradeFromFields | src/websocket/message/market/trade.rs:3-17 | conversely, fields of the right types decode to exactly the trade they describe |
| MarketTrade.SideUnconstrained | src/websocket/message/market/trade.rs:3-17 | any side string is kept verbatim |
| MarketTrade.SideReplaced | src/websocket/message/market/trade.rs:3-17 | replacing the side key changes only the side field |
| MarketTrade.SameKeysAsTradesPayload | src/websocket/message/market/trade.rs:3-17 | the wire keys are the same as those of the trades payload |
| MarketTrade.TradesFeed | src/websocket/message/market/trade.rs:19-21 | the topic ends with the pair after a twelve-character prefix |
| MarketTrade.TradesFeedIsTradeFeed | src/websocket/message/market/trade.rs:19-21 | it is the same topic as `trade_feed` of `trades.rs` for every pair |
| MarketTicker.TickerFrom | src/websocket/message/market/ticker.rs:4-18 | the field-by-field decode agrees with every key |
| MarketTicker.DecodeTicker | src/websocket/message/market/ticker.rs:4-18 | an accepted ticker has all its keys, and each field is what its key decodes to |
| MarketTicker.TickerNeedsAllKeys | src/websocket/message/market/ticker.rs:4-18 | a ticker missing any key is rejected |
| MarketTicker.EncodedTickerFields | src/websocket/message/market/ticker.rs:4-18 | the encoded ticker carries each field under its wire key |
| MarketTicker.TickerFromFields | src/websocket/message/market/ticker.rs:4-18 | fields of the right types decode to exactly the ticker they describe |
| MarketTicker.TickerRoundTrip | src/websocket/message/market/ticker.rs:4-18 | a ticker encodes and decodes to itself |
| MarketTicker.TickerFeed | src/websocket/message/market/ticker.rs:20-22 | the topic is `ticker.sfox.` followed by the pair |
| MarketTicker.TickerFeedInjective | src/websocket/message/market/ticker.rs:20-22 | different pairs have different ticker topics |
| Account.AccountFeeds | src/websocket/message/account.rs:3-5 | the three private feeds share the `private.user.` prefix and are pairwise distinct |
| Account.DecodeBalanceResponsePayload | src/websocket/message/account.rs:7-15 | the balance payload decodes exactly when all six exposure keys are strings, and keeps each |
| Account.DecodePostTradeSettlementResponsePayload | src/websocket/message/account.rs:17-25 | the same for the post-trade-settlement payload |
| Account.DecodeOrdersResponsePayload | src/websocket/message/account.rs:27-43 | the orders payload decodes exactly when its fields are valid, the order type read from key `type`, and every field agrees with its key |
| Account.OrdersFrom | src/websocket/message/account.rs:27-43 | the field-by-field decode succeeds exactly when the fields are valid, and agrees with them |
| Account.OrdersPayloadOf | src/websocket/message/account.rs:27-43 | the twelve string values and the algorithm id fill the record in field order |
| Account.OrdersNeedTypeKey | src/websocket/message/account.rs:39-40 | without key `type` the orders payload is rejected |
| Account.OrdersAlgorithmIdIsUnsigned | src/websocket/message/account.rs:41 | an algorithm id given as a string or a float is rejected |
| AccountBalance.BalanceFeed | src/websocket/message/account/balance.rs:24-26 | the balance feed is `private.user.balances` |
| AccountBalance.StrToF64 | src/websocket/message/account/balance.rs:29-35 | accepted exactly for a string the float parser reads, giving that value; a non-string is a type error; an unparseable string is the parser's error text |
| AccountBalance.AmountsFrom | src/websocket/message/account/balance.rs:5-22 | the seven amounts decode exactly when each is a parseable string, each in its field position |
| AccountBalance.PayloadOf | src/websocket/message/account/balance.rs:5-22 | the currency and the seven amounts fill the record in field order |
| AccountBalance.DecodeBalancePayload | src/websocket/message/account/balance.rs:5-22 | a balance object decodes exactly when its fields are valid, and agrees with them |
| AccountBalance.OneBadAmountFailsPayload | src/websocket/message/account/balance.rs:5-22 | one unparseable amount fails the whole payload |
| AccountOrder.OpenOrderFeed | src/websocket/message/account/order.rs:23-25 | the open orders feed is `private.user.open-orders` |
| AccountOrder.PayloadOf | src/websocket/message/account/order.rs:5-21 | id, eleven strings and algorithm id fill the record in field order |
| AccountOrder.OrderFrom | src/websocket/message/account/order.rs:5-21 | the field-by-field decode succeeds exactly when the fields are valid, and agrees with them |
| AccountOrder.DecodeOrderPayload | src/websocket/message/account/order.rs:5-21 | an order object decodes exactly when its fields are valid, and agrees with them |
| AccountOrder.StringIdRejected | src/websocket/message/account/order.rs:5-21 | an order id written as a string is rejected |
| AccountOrder.OrderTypeFromTypeKey | src/websocket/message/account/order.rs:5-21 | the order type of a decoded order is the string under key `type` |
| AccountPostTradeSettlement.PostTradeSettlementFeed | src/websocket/message/account/post_trade_settlement.rs:15-17 | the feed is `private.user.post-trade-settlement`, distinct from the other two private feeds |
| AccountPostTradeSettlement.DecodePayload | src/websocket/message/account/post_trade_settlement.rs:5-13 | decodes exactly when all six keys are strings, and keeps each |
| AccountPostTradeSettlement.NumberRejected | src/websocket/message/account/post_trade_settlement.rs:5-13 | a number in place of any of the six strings is rejected |
| Http.GetRequest | src/http/mod.rs:57-70 | a GET to `<server>/v1/<resource>` with an empty body and the single header `Authorization: Bearer <token>`; both `unwrap`s are preconditions: the URL parses and the header value is valid |
| Http.BearerValid | src/http/mod.rs:62-67 | the `Bearer ` value is a valid header value exactly when the token is |
| Http.NewlineTokenInvalid | src/http/mod.rs:62-67 | a token ending in a newline is not a valid header value, so `get_request` panics on it |
| Http.EndpointRequest | src/http/mod.rs:33-55 | each named endpoint is a GET whose URL ends with its resource |
| Http.EndpointResourceInjective | src/http/mod.rs:33-55 | distinct endpoints have distinct resources |
| HttpV1.BoolFromInt | src/http/v1/mod.rs:40-52 | accepts exactly the integers 0 and 1, with 1 meaning true; other u8 values are "zero or one" errors; anything else fails as a u8 |
| HttpV1.BoolFromIntRoundTrip | src/http/v1/mod.rs:40-52 | the integer of a boolean decodes to that boolean |
| HttpV1.BoolFromIntTest | src/http/v1/mod.rs:59-72 | 0 is false, 1 is true, 2 is an error, as in the unit test |
| HttpResources.BoolFromInt | src/http/resources/mod.rs:16-28 | the same accepting and error behaviour for the resources copy |
| HttpResources.SameAsV1 | src/http/resources/mod.rs:16-28 | the two copies agree on every input |
| V1Volume.ConvertInterval | src/http/v1/volume.rs:51-57 | an interval is rendered as its length in seconds |
| V1Volume.IntervalTexts | src/http/v1/volume.rs:51-57 | the three renderings are `60`, `3600` and `86400` |
| V1Volume.IntervalsIncrease | src/http/v1/volume.rs:51-57 | minute < hour < day, and distinct intervals render distinctly |
| V1Volume.VolumeQuerySplits | src/http/v1/volume.rs:41-44 | split at `&`, the query is exactly the six `key=value` pairs in order |
| V1Volume.PairsHaveNoAmpersand | src/http/v1/volume.rs:41-44 | no pair contains `&` when the currency does not |
| V1Volume.Volume | src/http/v1/volume.rs:32-48 | a GET of the volume query with no body, read as JSON |
| V1Order.CancelAllOrders | src/http/v1/order.rs:27-30 | a DELETE of `orders/open` |
| V1Order.OrderPath | src/http/v1/order.rs:32-38 | `orders/` followed by the decimal id |
| V1Order.CancelOrder | src/http/v1/order.rs:32-38 | a DELETE of that order's path |
| V1Order.IdTexts | src/http/v1/order.rs:40-54 | each id rendered in decimal, in order |
| V1Order.IdsParam | src/http/v1/order.rs:40-54 | no ids give the empty string |
| V1Order.IdsParamCommas | src/http/v1/order.rs:40-54 | n ids are joined by exactly n-1 commas |
| V1Order.IdsParamParses | src/http/v1/order.rs:40-54 | split at the commas, the joined list gives back each id's decimal text, and parsing those gives the ids |
| V1Order.CancelOrdersResource | src/http/v1/order.rs:40-54 | `orders?ids=` followed by the joined list; an empty list leaves `orders?ids=` |
| V1Order.CancelOrders | src/http/v1/order.rs:40-54 | a DELETE of that resource |
| V1Order.PlaceOrder | src/http/v1/order.rs:57-80 | a POST to `orders/<side>` whose body has the five fixed keys, including `algorithm_id`, with their rendered values, plus `client_order_id` exactly when given |
| ResourcesOrder.CancelAllOrders | src/http/resources/order.rs:27-29 | a DELETE of the bare path `orders/open` |
| ResourcesOrder.CancelOrder | src/http/resources/order.rs:31-36 | a DELETE of the bare path of that order |
| ResourcesOrder.CancelOrders | src/http/resources/order.rs:38-54 | a DELETE of the same `orders?ids=` resource as the v1 client, as a bare path |
| ResourcesOrder.PlaceOrder | src/http/resources/order.rs:56-77 | a POST to the bare path `orders/<side>` with the same body as the v1 client |
| V1Short.LoanMetrics | src/http/v1/short.rs:46-50 | a GET of `margin/account` |
| V1Short.LoanPositions | src/http/v1/short.rs:52-71 | an invalid request exactly for a status other than `active`/`closed`; otherwise a GET of the loans resource with `?status=` appended when given |
| V1Short.StatusCaseSensitive | src/http/v1/short.rs:52-71 | `Active` is not accepted |
| V1Quote.RequestForQuote | src/http/v1/quote.rs:22-57 | without quantity and amount an invalid request; otherwise a POST to `quote` whose body has pair and side, each size key exactly when given, and the client quote id when given |
| V1Quote.ExecuteQuote | src/http/v1/quote.rs:59-73 | a POST to `orders/buy` carrying pair, quantity and quote id |
| ResourcesQuote.RequestForQuote | src/http/resources/quote.rs:60-93 | the same validation and body as the v1 client, to the bare path `quote` |
| ResourcesQuote.ExecuteQuote | src/http/resources/quote.rs:95-107 | the same body as the v1 client, to the bare path `orders/buy` |
| ResourcesQuote.DecodeFilled | src/http/resources/quote.rs:37-38 | `filled` decodes exactly from 0 or 1, true for 1; absent is a missing-field error |
| V1Custody.DecodeApprovalRuleType | src/http/v1/custody.rs:11-21 | only the three renamed names are accepted, each the name of the decoded type |
| V1Custody.ApprovalRuleTypeRoundTrip | src/http/v1/custody.rs:11-21 | every rule type round-trips through its name; the Rust variant spelling `Withdraw` is rejected |
| V1Custody.CustodyAddresses | src/http/v1/custody.rs:104-110 | a GET of `whitelisted-addresses` |
| V1Custody.AddCustodyAddress | src/http/v1/custody.rs:112-126 | a POST whose body has exactly alias, currency symbol and address |
| V1Custody.ApprovalRules | src/http/v1/custody.rs:128-132 | a GET of `approval-rules` |
| V1Custody.AddApprovalRule | src/http/v1/custody.rs:134-151 | a POST whose body has exactly rule type, required approvals and threshold, the counts reading back as the given numbers |
| V1Custody.IdPath | src/http/v1/custody.rs:153-166 | a resource, a slash and the decimal id |
| V1Custody.EditApprovalRule | src/http/v1/custody.rs:153-166 | a PATCH of that rule's path whose body has required approvals and threshold |
| V1Custody.ApprovalRequests | src/http/v1/custody.rs:168-178 | a GET of `approvals`, with `?pending=true` appended exactly when pending is requested |
| V1Custody.RespondToApprovalRequest | src/http/v1/custody.rs:180-192 | a POST to that approval's path whose body has only `approve`, `true` or `false` |
| V1Custody.IdPathsDistinct | src/http/v1/custody.rs:7-9 | rule paths and approval paths never coincide, and the id determines the path |
| V1Report.DecodeTransactionStatus | src/http/v1/report.rs:39-49 | only the seven lowercase names are accepted, each the name of the decoded status; anything else is an unknown-variant error naming it |
| V1Report.StatusNamed | src/http/v1/report.rs:39-49 | a name is a status name exactly when some status has it |
| V1Report.TransactionStatusRoundTrip | src/http/v1/report.rs:39-49 | every status round-trips through its name |
| V1Report.CamelCaseStatusRejected | src/http/v1/report.rs:39-49 | the Rust variant spellings `Done` and `ApprovalRequired` are rejected |
| V1Report.TransactionHistory | src/http/v1/report.rs:52-81 | a GET of `account/transactions` with no body, whatever the arguments; the map it builds has each optional key exactly when given |
| V1Report.OrdersReport | src/http/v1/report.rs:83-95 | a GET of `orders/buy` read as text, with no body; the map it builds has both dates |
| V1Report.MonthlySummaryByAsset | src/http/v1/report.rs:97-115 | a GET of the summary resource read as text, whose body has the given fields |
| V1Report.NoHistoryArguments | src/http/v1/report.rs:52-81 | with no arguments the built history map is empty |
| V1PostTradeSettlement.PostTradeSettlement | src/http/v1/post_trade_settlement.rs:55-61 | a GET of `post-trade-settlement` |
| V1PostTradeSettlement.PostTradeSettlementInterest | src/http/v1/post_trade_settlement.rs:63-68 | a GET of `post-trade-settlement/interest` |
| V1PostTradeSettlement.PositionsResource | src/http/v1/post_trade_settlement.rs:70-84 | the positions resource, `?status=` and the status |
| V1PostTradeSettlement.PostTradeSettlementPositions | src/http/v1/post_trade_settlement.rs:70-84 | a GET of that resource |
| V1PostTradeSettlement.PositionsResourceInjective | src/http/v1/post_trade_settlement.rs:70-84 | different statuses give different resources |
| V1PostTradeSettlement.WalletTransfer | src/http/v1/post_trade_settlement.rs:86-101 | a POST to `account/transfer` with no body; the map it builds has currency, quantity, from and to |
| V1CryptoDepositAddress.CurrencyPath | src/http/v1/crypto_deposit_address.rs:34-36 | `user/deposit/address/` followed by the currency |
| V1CryptoDepositAddress.CurrencyPathInjective | src/http/v1/crypto_deposit_address.rs:34-36 | different currencies give different paths |
| V1CryptoDepositAddress.CurrencyPathIsEndpoint | src/http/v1/crypto_deposit_address.rs:34-36 | the path is the one the client's named endpoint uses |
| V1CryptoDepositAddress.CryptoDepositAddress | src/http/v1/crypto_deposit_address.rs:17-23 | a GET of the currency's path with no body |
| V1CryptoDepositAddress.NewCryptoDepositAddress | src/http/v1/crypto_deposit_address.rs:25-31 | a POST of the currency's path with an empty body |
| V1CryptoDepositAddress.ReadAndCreateSameTarget | src/http/v1/crypto_deposit_address.rs:17-31 | reading and creating address the same resource and differ only in verb and body |
| ResourcesCryptoDepositAddress.Rescue | src/http/resources/crypto_deposit_address.rs:19-30 | a success passes through; an unparseable response whose text is `{}` becomes `Ok(None)`; every other error passes through |
| ResourcesCryptoDepositAddress.RescueErrors | src/http/resources/crypto_deposit_address.rs:19-30 | an error survives the rescue unless it is the `{}` case |
| ResourcesCryptoDepositAddress.RescueIdempotent | src/http/resources/crypto_deposit_address.rs:19-30 | rescuing twice is rescuing once |
| ResourcesCryptoDepositAddress.CryptoDepositAddress | src/http/resources/crypto_deposit_address.rs:13-32 | the request sent is the named endpoint's GET for the currency |
| V1OrderBook.ReplaceE | src/http/v1/order_book.rs:36-50 | same length; each `e` becomes `E` and every other character is kept |
| V1OrderBook.NoLowerEAfterReplace | src/http/v1/order_book.rs:36-50 | the result has no `e` |
| V1OrderBook.ReplaceEIdempotent | src/http/v1/order_book.rs:36-50 | replacing twice is replacing once, and text without `e` is unchanged |
| V1OrderBook.MaybeSciNotationToF64 | src/http/v1/order_book.rs:36-50 | a string is accepted exactly when the parser reads it after the replacement, otherwise it is the parser's error text; a number decodes as a float; anything else is "Expected string or number" |
| V1OrderBook.NumbersAccepted | src/http/v1/order_book.rs:36-50 | every JSON number is accepted |
| V1OrderBook.DecodeOpenOrder | src/http/v1/order_book.rs:28-34 | an object decodes exactly when `price` is a number, `volume` passes the tolerant decoder and `exchange` is a string; an array exactly when it has three such elements in that order, which become the fields; anything else is rejected |
| V1OrderBook.OpenOrderFrom | src/http/v1/order_book.rs:28-34 | the field-by-field decode succeeds exactly when each field decodes, and agrees with them |
| V1OrderBook.TinyVolumeLevel | src/http/v1/order_book.rs:28-34 | the level `[price, "1e-08", exchange]` decodes with the volume the parser gives for `1E-08` |
| V1OrderBook.StringPriceRejected | src/http/v1/order_book.rs:28-34 | a price written as a string is rejected (only the volume is tolerant) |
| V1OrderBook.LevelItemsAreItems | src/http/v1/order_book.rs:10-20 | the level-list decoder agrees with the generic list decoder on every element list |
| V1OrderBook.LevelsAreVec | src/http/v1/order_book.rs:10-20 | so the level lists are decoded as a `Vec` of levels |
| V1OrderBook.DecodeMarketMaking | src/http/v1/order_book.rs:22-26 | an object decodes exactly when `asks` and `bids` are level lists that decode, and the fields are those lists |
| V1OrderBook.OrderBookFrom | src/http/v1/order_book.rs:10-20 | the field-by-field decode succeeds exactly when `pair` is a string, `currency` is absent, null or a string, and the levels and counters decode; it then agrees with every field |
| V1OrderBook.OrderBookLevels | src/http/v1/order_book.rs:10-20 | once pair and currency are read, the decode succeeds exactly when the levels, market-making data and counters decode; it keeps pair and currency and agrees with those keys |
| V1OrderBook.OrderBookCounters | src/http/v1/order_book.rs:10-20 | succeeds exactly when both counters are `usize` values; it keeps every field already decoded and reads the counters from their keys |
| V1OrderBook.DecodeOrderBook | src/http/v1/order_book.rs:10-20 | an accepted object agrees with every field; without `currency` the book's currency is `None`; a value that is neither an object nor an array is rejected |
| V1OrderBook.OrderBookNeedsRequiredKeys | src/http/v1/order_book.rs:10-20 | an object missing a required key is rejected |
| V1OrderBook.OrderBookFromFields | src/http/v1/order_book.rs:10-20 | an object whose fields describe a book decodes to exactly that book |
| V1OrderBook.BookDecodes | src/http/v1/order_book.rs:10-20 | an object with a string pair, a valid optional currency and valid levels and counters is accepted, with that pair and currency |
| V1OrderBook.LevelsValidIff | src/http/v1/order_book.rs:14-15 | a level list decodes exactly when each of its levels does |
| V1OrderBook.NumericLevel | src/http/v1/order_book.rs:28-34 | a level of three plain values such as `[9456, 1, "itbit"]` decodes to those values |
| V1OrderBook.MarketMakingDecodes | src/http/v1/order_book.rs:22-26 | market-making data whose level lists decode is accepted |
| V1OrderBook.SampleBidsDecode | src/http/v1/order_book.rs:69-85 | each of the sample reply's three top-level bids decodes, given that the float parser reads `1E-08` |
| V1OrderBook.SampleBodyDecodes | src/http/v1/order_book.rs:67-208 | a reply shaped like the test's sample body, with its extra `timestamps` key, decodes once each level does, with pair `btcusd` and currency `usd` |
| V1OrderBook.ExtraKeysIgnored | src/http/v1/order_book.rs:10-20 | adding unknown keys to a book object does not change its decoding |
| V1OrderBook.LevelsAgree | src/http/v1/order_book.rs:10-20 | two maps that agree on the level keys decode the same levels |
| V1OrderBook.OrderBookResource | src/http/v1/order_book.rs:53-58 | `markets/orderbook/` followed by the pair |
| V1OrderBook.OrderBookRequest | src/http/v1/order_book.rs:53-58 | a GET of that resource, read as JSON |
| V1OrderBook.OrderBookResourceInjective | src/http/v1/order_book.rs:53-58 | different pairs give different resources |

## Left out

- Asynchronous execution, the `tokio` runtime, `hyper`/`tungstenite` transport and TLS are not modelled. Each way the transport can fail is a parameter of the method instead.
- The `Arc<Mutex<…>>` around the websocket sink is not modelled. A poisoned lock is one of the sink faults, reported as `TxError`, as in `src/websocket/mod.rs:101-108`.
- Reading frames from the websocket is not modelled. The source has no frame classifier, and the model adds none.
- Reading the environment and the settings file is not modelled: `SFOX_AUTH_TOKEN`, the server URL and `src/settings` enter as parameters. The token is an optional string, so a value that is not valid Unicode (`VarError::NotUnicode`, with its own error text) is folded into "absent".
- `url_for_v1_resource` is not part of this model. A v1 target is kept as the resource string plus any suffix appended to its result.
- HTTP response handling beyond the `{}` rescue is not modelled: status codes, deserializing response bodies into the response records (other than the order book), and the TextResponse CSV bodies.
- `f64` parsing and formatting are parameters. The model does not capture their rounding or their exact spellings.
- `Json.DecodeF64` reads any JSON number, integer or float, as a `real`. Rounding to the nearest `f64` is not modelled.
- The text of a JSON document is abstracted to a `Json` value. `JsonText` reads back only the frames this client writes: objects whose values are strings or string arrays, with no surrogate `\u` escapes.
- When several fields of a message are wrong, the model does not pin down which error serde reports first; it only says that the decode fails.
- The externally tagged map spelling of unit enum variants (`{"Buy": null}`) is not accepted. Only the string spelling is.
- Record-only response types are not modelled: cancelled orders, quotes, approvals, loans, transaction history records and the like.
- The endpoint files outside the modelled core are not modelled, apart from the constant GETs that `Http.EndpointRequest` names. What those files do:
  - `account_balance`, `currency`, `transaction_history` and `fee` issue GETs of fixed resources. `withdraw_fee` appends the currency to its path.
  - `staking` adds two GETs, plus `stake` and `unstake`, which POST a `currency` and `quantity` map.
  - `withdraw` POSTs `address`, `amount`, `currency` and `isWire`. `ach_bank_transfer` POSTs `amount`.
  - `estimate`, `candlesticks` and `chart` build query strings from their arguments.
  - The `resources` copies that exist do the same through bare paths.
- `src/websocket/message/market.rs`, `src/websocket/message/market/market.rs` and `src/websocket/message/auth.rs` are not modelled. Each redeclares envelope and account payload records that the modules above already model.
- The unit tests' mock servers (`tests/`, `examples/`) are not modelled.
- V1Report.TransactionHistory: the source never uses the parameter map it builds, so the sent request does not depend on the arguments. The model returns the map as a separate result and states that.
- V1Report.OrdersReport: the same; the map of the two dates is built but not attached.
- V1PostTradeSettlement.WalletTransfer: the same; the transfer map is built but the POST carries no body.
- WsClient.Client.Authenticate: `src/websocket/auth.rs` calls a sink helper (`WsSink`, `message_type`) that is not defined in the same form in `src/websocket/mod.rs`. Authentication is modelled as the call it is written to be: send the auth frame through the client's sink.
- WsMarketOrderBook.SubscribeMsgRoundTrip: the `SubscribeMsg` of `src/websocket/market/order_book.rs` has the same wire shape as the one in `src/websocket/message/mod.rs`, so the model reuses `WsMessage.SubscribeMsg` for it.
- V1OrderBook.SampleBodyDecodes: the level lists of the test's sample body are parameters, and `SampleBidsDecode` shows only the sample's top-level bids concretely. The other lists are numeric levels, which `NumericLevel` covers, and the `timestamps` object may be any value.
- V1OrderBook.DecodeOrderBook: in the array form, serde requires all seven positions, including the optional `currency`. The model follows that, so the optional field is optional only for the object form.
