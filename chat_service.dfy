/**
 * The chat endpoint: the classifier's answer, stripped of surrounding whitespace, is the
 * intent; "MARKET" answers from the latest market post, "OTHER" hands the message to the
 * general assistant, and anything else is read as a stock symbol.
 *
 * Both language-model agents are function parameters. The database returns rows in an
 * order it does not promise; `pick` stands for that choice among the rows a query allows.
 */
module ChatService {
  import opened Wrappers
  import opened Seqs
  import opened PyText
  import opened PostStore

  predicate IsMarketPost(p: Post) {
    p.level == Market
  }

  /** `WHERE stock_id = id` */
  function OfStock(id: int): Post -> bool {
    (p: Post) => p.stockId == Some(id)
  }

  /** `WHERE created_at = at` */
  function CreatedAt(at: int): Post -> bool {
    (p: Post) => p.createdAt == at
  }

  /** The latest `createdAt` among `ms`. */
  function LatestCreatedAt(ms: seq<Post>): (m: int)
    requires ms != []
    ensures exists i :: 0 <= i < |ms| && ms[i].createdAt == m
    ensures forall i :: 0 <= i < |ms| ==> ms[i].createdAt <= m
  {
    if |ms| == 1 then ms[0].createdAt
    else
      var rest := LatestCreatedAt(ms[1..]);
      if ms[0].createdAt >= rest then ms[0].createdAt else rest
  }

  /**
   * `get_stock_info(symbol)`: no row when the symbol is unknown or has no post; otherwise
   * one of its posts (the query has no ORDER BY, so which one is up to the database).
   */
  function StockInfo(stock: map<string, int>, posts: seq<Post>, symbol: string, pick: nat): (r: Option<Post>)
    ensures r.Some? <==> symbol in stock && exists i :: 0 <= i < |posts| && posts[i].stockId == Some(stock[symbol])
    ensures r.Some? ==> symbol in stock && r.value in posts && r.value.stockId == Some(stock[symbol])
  {
    if symbol !in stock then None
    else
      var id := stock[symbol];
      var matching := Filter(posts, OfStock(id));
      if matching == [] then
        FilterEmpty(posts, OfStock(id));
        None
      else
        Some(Choose(matching, pick))
  }

  /** Every post of the symbol's stock is a row `get_stock_info` may return. */
  lemma StockInfoReachesEveryPost(stock: map<string, int>, posts: seq<Post>, symbol: string, p: Post)
    requires symbol in stock && p in posts && p.stockId == Some(stock[symbol])
    ensures exists pick: nat :: StockInfo(stock, posts, symbol, pick) == Some(p)
  {
    var id := stock[symbol];
    var matching := Filter(posts, OfStock(id));
    var k :| 0 <= k < |posts| && posts[k] == p;
    FilterKeeps(posts, OfStock(id), k);
    var i :| 0 <= i < |matching| && matching[i] == p;
    assert StockInfo(stock, posts, symbol, i) == Some(p);
  }

  lemma LatestIsKept(ms: seq<Post>)
    requires ms != []
    ensures Filter(ms, CreatedAt(LatestCreatedAt(ms))) != []
  {
  }

  /**
   * `get_market_info()`: a MARKET post created no earlier than any other MARKET post, or
   * no row when there is none (ties on `created_at` are up to the database).
   */
  function MarketInfo(posts: seq<Post>, pick: nat): (r: Option<Post>)
    ensures r.None? <==> forall i :: 0 <= i < |posts| ==> posts[i].level != Market
    ensures r.Some? ==> r.value in posts && r.value.level == Market
    ensures r.Some? ==> forall i :: 0 <= i < |posts| && posts[i].level == Market ==> posts[i].createdAt <= r.value.createdAt
  {
    var market := Filter(posts, IsMarketPost);
    if market == [] then
      FilterEmpty(posts, IsMarketPost);
      None
    else
      var newest := Filter(market, CreatedAt(LatestCreatedAt(market)));
      LatestIsKept(market);
      FilterKeepsAll(posts, IsMarketPost);
      Some(Choose(newest, pick))
  }

  /** Every latest MARKET post is a row `get_market_info` may return. */
  lemma MarketInfoReachesEveryLatest(posts: seq<Post>, p: Post)
    requires p in posts && p.level == Market
    requires forall i :: 0 <= i < |posts| && posts[i].level == Market ==> posts[i].createdAt <= p.createdAt
    ensures exists pick: nat :: MarketInfo(posts, pick) == Some(p)
  {
    var market := Filter(posts, IsMarketPost);
    var k :| 0 <= k < |posts| && posts[k] == p;
    FilterKeeps(posts, IsMarketPost, k);
    var m :| 0 <= m < |market| && market[m] == p;
    var latest := LatestCreatedAt(market);
    assert latest == p.createdAt;
    var newest := Filter(market, CreatedAt(latest));
    FilterKeeps(market, CreatedAt(latest), m);
    var i :| 0 <= i < |newest| && newest[i] == p;
    assert MarketInfo(posts, i) == Some(p);
  }

  /** A market analysis saved later than every other one is the one the chat reports. */
  lemma NewestMarketPostWins(posts: seq<Post>, p: Post, pick: nat)
    requires p.level == Market
    requires forall i :: 0 <= i < |posts| && posts[i].level == Market ==> posts[i].createdAt < p.createdAt
    ensures MarketInfo(posts + [p], pick) == Some(p)
  {
    var all := posts + [p];
    var r := MarketInfo(all, pick);
    assert all[|posts|] == p;
    var k :| 0 <= k < |all| && all[k] == r.value;
  }

  const NoMarketAnswer := "No market analysis available at the moment."

  function MarketAnswer(content: string): string {
    "Market Analysis: " + content
  }

  function SymbolAnswer(symbol: string, content: string): string {
    "Information about " + symbol + ": " + content
  }

  function NotFoundAnswer(symbol: string): string {
    "No information found for symbol " + symbol + "."
  }

  /**
   * `chat(req)`: the `answer` field of the response to `message`, from the classifier's stripped
   * output. The answer is the assistant's, one of the two fixed messages, or built from the
   * content of a stored post.
   */
  function Chat(
    stock: map<string, int>, posts: seq<Post>, message: string,
    classify: string -> string, qa: string -> string, stockPick: nat, marketPick: nat): (answer: string)
    ensures var intent := Strip(classify(message));
      answer == qa(message) || answer == NoMarketAnswer || answer == NotFoundAnswer(intent)
      || exists i :: 0 <= i < |posts|
           && (answer == MarketAnswer(posts[i].content) || answer == SymbolAnswer(intent, posts[i].content))
  {
    var intent := Strip(classify(message));
    var answer := Reply(stock, posts, intent, message, qa, stockPick, marketPick);
    if intent == "MARKET" && MarketInfo(posts, marketPick).Some? then
      var p := MarketInfo(posts, marketPick).value;
      var i :| 0 <= i < |posts| && posts[i] == p;
      answer
    else if intent != "MARKET" && intent != "OTHER" && StockInfo(stock, posts, intent, stockPick).Some? then
      var p := StockInfo(stock, posts, intent, stockPick).value;
      var i :| 0 <= i < |posts| && posts[i] == p;
      answer
    else
      answer
  }

  /** The answer once the intent is known: MARKET, OTHER, or else a stock symbol. */
  function Reply(
    stock: map<string, int>, posts: seq<Post>, intent: string, message: string,
    qa: string -> string, stockPick: nat, marketPick: nat): (answer: string)
    ensures intent == "OTHER" ==> answer == qa(message)
    ensures intent == "MARKET" ==>
      (answer == NoMarketAnswer <==> forall i :: 0 <= i < |posts| ==> posts[i].level != Market)
    ensures intent != "MARKET" && intent != "OTHER" ==>
      (answer == NotFoundAnswer(intent) <==>
        (intent !in stock || forall i :: 0 <= i < |posts| ==> posts[i].stockId != Some(stock[intent])))
  {
    if intent == "MARKET" then
      match MarketInfo(posts, marketPick)
      case Some(p) =>
        assert MarketAnswer(p.content) != NoMarketAnswer by {
          assert MarketAnswer(p.content)[0] == 'M' && NoMarketAnswer[0] == 'N';
        }
        MarketAnswer(p.content)
      case None => NoMarketAnswer
    else if intent != "OTHER" then
      match StockInfo(stock, posts, intent, stockPick)
      case Some(p) =>
        assert SymbolAnswer(intent, p.content) != NotFoundAnswer(intent) by {
          assert SymbolAnswer(intent, p.content)[0] == 'I' && NotFoundAnswer(intent)[0] == 'N';
        }
        SymbolAnswer(intent, p.content)
      case None => NotFoundAnswer(intent)
    else
      qa(message)
  }

  /** Intent OTHER: the question-answering agent's answer, verbatim. */
  lemma ChatOtherAnswer(
    stock: map<string, int>, posts: seq<Post>, message: string,
    classify: string -> string, qa: string -> string, stockPick: nat, marketPick: nat)
    requires Strip(classify(message)) == "OTHER"
    ensures Chat(stock, posts, message, classify, qa, stockPick, marketPick) == qa(message)
  {
  }

  /** Intent MARKET: the no-market message exactly when there is no MARKET post. */
  lemma ChatMarketNoData(
    stock: map<string, int>, posts: seq<Post>, message: string,
    classify: string -> string, qa: string -> string, stockPick: nat, marketPick: nat)
    requires Strip(classify(message)) == "MARKET"
    ensures Chat(stock, posts, message, classify, qa, stockPick, marketPick) == NoMarketAnswer
      <==> forall i :: 0 <= i < |posts| ==> posts[i].level != Market
  {
  }

  /**
   * Any other intent is a symbol: the not-found message exactly when the symbol has no stock row
   * or no post carries its stock id.
   */
  lemma ChatSymbolNotFound(
    stock: map<string, int>, posts: seq<Post>, message: string,
    classify: string -> string, qa: string -> string, stockPick: nat, marketPick: nat)
    requires var intent := Strip(classify(message)); intent != "MARKET" && intent != "OTHER"
    ensures var intent := Strip(classify(message));
      Chat(stock, posts, message, classify, qa, stockPick, marketPick) == NotFoundAnswer(intent)
      <==> (intent !in stock || forall i :: 0 <= i < |posts| ==> posts[i].stockId != Some(stock[intent]))
  {
  }

  /** A market question is answered with the content of a latest MARKET post whenever there is one. */
  lemma ChatMarketAnswer(
    stock: map<string, int>, posts: seq<Post>, message: string,
    classify: string -> string, qa: string -> string, stockPick: nat, marketPick: nat)
    requires Strip(classify(message)) == "MARKET"
    requires exists i :: 0 <= i < |posts| && posts[i].level == Market
    ensures exists p :: (p in posts && p.level == Market
      && (forall i :: 0 <= i < |posts| && posts[i].level == Market ==> posts[i].createdAt <= p.createdAt)
      && Chat(stock, posts, message, classify, qa, stockPick, marketPick) == MarketAnswer(p.content))
  {
    var p := MarketInfo(posts, marketPick).value;
    assert p in posts;
  }

  /** A symbol question is answered with the content of one of that stock's posts whenever there is one. */
  lemma ChatSymbolAnswer(
    stock: map<string, int>, posts: seq<Post>, message: string,
    classify: string -> string, qa: string -> string, stockPick: nat, marketPick: nat)
    requires Strip(classify(message)) != "MARKET" && Strip(classify(message)) != "OTHER"
    requires Strip(classify(message)) in stock
    requires exists i :: 0 <= i < |posts| && posts[i].stockId == Some(stock[Strip(classify(message))])
    ensures var symbol := Strip(classify(message));
      exists p :: (p in posts && p.stockId == Some(stock[symbol])
        && Chat(stock, posts, message, classify, qa, stockPick, marketPick) == SymbolAnswer(symbol, p.content))
  {
  }

  /** An "OTHER" intent makes no query: the tables and the row choice play no part in the answer. */
  lemma ChatOtherIgnoresDatabase(
    stock: map<string, int>, posts: seq<Post>, stock': map<string, int>, posts': seq<Post>, message: string,
    classify: string -> string, qa: string -> string, stockPick: nat, marketPick: nat, stockPick': nat, marketPick': nat)
    requires Strip(classify(message)) == "OTHER"
    ensures Chat(stock, posts, message, classify, qa, stockPick, marketPick)
         == Chat(stock', posts', message, classify, qa, stockPick', marketPick')
  {
  }

  /** A "MARKET" intent never consults the stock table or the general assistant. */
  lemma ChatMarketIgnoresStock(
    stock: map<string, int>, stock': map<string, int>, posts: seq<Post>, message: string,
    classify: string -> string, qa: string -> string, qa': string -> string, stockPick: nat, stockPick': nat, marketPick: nat)
    requires Strip(classify(message)) == "MARKET"
    ensures Chat(stock, posts, message, classify, qa, stockPick, marketPick)
         == Chat(stock', posts, message, classify, qa', stockPick', marketPick)
  {
  }

  /** Whitespace the classifier puts around its answer does not change the reply. */
  lemma ChatIgnoresClassifierPadding(
    stock: map<string, int>, posts: seq<Post>, message: string,
    classify: string -> string, classify': string -> string, qa: string -> string,
    w1: string, w2: string, stockPick: nat, marketPick: nat)
    requires AllSpace(w1) && AllSpace(w2)
    requires classify'(message) == w1 + classify(message) + w2
    ensures Chat(stock, posts, message, classify', qa, stockPick, marketPick)
         == Chat(stock, posts, message, classify, qa, stockPick, marketPick)
  {
    StripIgnoresPadding(w1, classify(message), w2);
    assert Strip(classify'(message)) == Strip(classify(message));
  }
}
