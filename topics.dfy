/** The streaming topic table: every feed the client can subscribe to, and the fact
    that a topic string names exactly one feed, because the family prefixes
    (`orderbook.`, `trades.sfox.`, `ticker.sfox.`, `private.user.`) never overlap. */
module Topics {

  import MarketOrderbook
  import MarketTrades
  import MarketTicker
  import Account

  datatype Topic =
    | OrderBook(basequote: string, bookType: MarketOrderbook.BookType)
    | Trades(basequote: string)
    | Ticker(basequote: string)
    | OpenOrders
    | Balances
    | PostTradeSettlement

  /** The topic string of each feed, as its own module builds it. */
  function TopicName(t: Topic): (s: string)
    ensures |s| >= 12
  {
    match t
    case OrderBook(b, k) => MarketOrderbook.OrderBookFeed(b, k)
    case Trades(b) => MarketTrades.TradeFeed(b)
    case Ticker(b) => MarketTicker.TickerFeed(b)
    case OpenOrders => Account.OPEN_ORDER_FEED
    case Balances => Account.BALANCE_FEED
    case PostTradeSettlement => Account.POST_TRADE_SETTLEMENT_FEED
  }

  /** The first character tells the order book (`o`), public trade and ticker (`t`)
      and account (`p`) families apart; the second separates `trades` from `ticker`. */
  lemma FamilyMarks(t: Topic)
    ensures t.OrderBook? ==> TopicName(t)[0] == 'o'
    ensures (t.Trades? || t.Ticker?) ==> TopicName(t)[0] == 't'
    ensures t.Trades? ==> TopicName(t)[1] == 'r'
    ensures t.Ticker? ==> TopicName(t)[1] == 'i'
    ensures (t.OpenOrders? || t.Balances? || t.PostTradeSettlement?) ==> TopicName(t)[0] == 'p'
  {
    match t
    case OrderBook(b, k) => assert TopicName(t)[..10] == "orderbook.";
    case Trades(b) => assert TopicName(t)[..12] == "trades.sfox.";
    case Ticker(b) => assert TopicName(t)[..12] == "ticker.sfox.";
    case _ =>
  }

  /** A topic string determines its feed: family, pair and book type. */
  lemma TopicNameInjective(a: Topic, b: Topic)
    requires TopicName(a) == TopicName(b)
    ensures a == b
  {
    FamilyMarks(a);
    FamilyMarks(b);
    Account.AccountFeeds();
    match a
    case OrderBook(x, k) =>
      assert b.OrderBook?;
      MarketOrderbook.OrderBookFeedInjective(x, k, b.basequote, b.bookType);
    case Trades(x) =>
      assert b.Trades?;
      MarketTrades.TradeFeedInjective(x, b.basequote);
    case Ticker(x) =>
      assert b.Ticker?;
      MarketTicker.TickerFeedInjective(x, b.basequote);
    case _ =>
  }
}
