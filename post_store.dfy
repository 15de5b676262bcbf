/**
 * The two tables the service reads and writes: `stock` (symbol to stock_id, owned by
 * another process) and the append-only `post` table, with the two save operations
 * that insert into it.
 */
module PostStore {
  import opened Wrappers
  import opened TradingSession

  /** `post.level` */
  datatype Level = Symbol | Market

  /** One row of `post`. `createdAt` is the value the database stamps on insert. */
  datatype Post = Post(
    title: string,
    content: string,
    stockId: Option<int>,
    sentiment: string,
    topic: string,
    session: Option<SessionCode>,
    level: Level,
    createdAt: int)

  /** The analyst output saved for one stock (`support_output`). */
  datatype SupportOutput = SupportOutput(
    title: string, analysisAdvice: string, symbol: string, sentiment: string, topic: string)

  /** The analyst output saved for the market as a whole (`market_analysis`). */
  datatype MarketAnalysis = MarketAnalysis(title: string, analysis: string, sentiment: string)

  /** The `ValueError` raised when the symbol has no `stock` row. */
  datatype SaveError = StockNotFound(message: string)

  function StockNotFoundMessage(symbol: string): string {
    "Stock with symbol " + symbol + " not found"
  }

  /** A row is consistent with the stock table: stock posts name an existing stock and carry a session, market posts neither. */
  predicate WellFormed(p: Post, stock: map<string, int>) {
    match p.level
    case Symbol => p.stockId.Some? && p.stockId.value in stock.Values && p.session.Some?
    case Market => p.stockId.None? && p.session.None? && p.topic == "MARKET"
  }

  class Database {
    /** `stock`: symbol to stock_id. Never written by this service. */
    var stock: map<string, int>
    /** `post`, in insertion order. */
    var posts: seq<Post>

    ghost predicate Valid()
      reads this
    {
      forall i :: 0 <= i < |posts| ==> WellFormed(posts[i], stock)
    }

    /** A connection to tables that already hold `stock` and `posts`. */
    constructor (stock: map<string, int>, posts: seq<Post>)
      requires forall i :: 0 <= i < |posts| ==> WellFormed(posts[i], stock)
      ensures Valid()
      ensures this.stock == stock && this.posts == posts
    {
      this.stock := stock;
      this.posts := posts;
    }

    /**
     * `save_support_output_to_db`: looks the symbol up and inserts one SYMBOL row stamped
     * with the session of `now`; an unknown symbol raises and inserts nothing.
     */
    method SaveSupportOutput(output: SupportOutput, now: Time, createdAt: int) returns (r: Outcome<SaveError>)
      requires Valid() && now.Valid()
      modifies this`posts
      ensures Valid()
      ensures output.symbol !in stock ==>
        r == Fail(StockNotFound(StockNotFoundMessage(output.symbol))) && posts == old(posts)
      ensures output.symbol in stock ==>
        r == Pass
        && posts == old(posts) + [Post(output.title, output.analysisAdvice, Some(stock[output.symbol]),
                                       output.sentiment, output.topic, Some(Session(now)), Symbol, createdAt)]
    {
      if output.symbol !in stock {
        return Fail(StockNotFound(StockNotFoundMessage(output.symbol)));
      }
      var stockId := stock[output.symbol];
      var session := Session(now);
      posts := posts + [Post(output.title, output.analysisAdvice, Some(stockId),
                             output.sentiment, output.topic, Some(session), Symbol, createdAt)];
      r := Pass;
    }

    /** `save_market_analysis_to_db`: always inserts one MARKET row with topic MARKET, no stock and no session. */
    method SaveMarketAnalysis(analysis: MarketAnalysis, createdAt: int)
      requires Valid()
      modifies this`posts
      ensures Valid()
      ensures posts == old(posts) + [Post(analysis.title, analysis.analysis, None, analysis.sentiment,
                                          "MARKET", None, Market, createdAt)]
    {
      posts := posts + [Post(analysis.title, analysis.analysis, None, analysis.sentiment,
                             "MARKET", None, Market, createdAt)];
    }
  }
}
