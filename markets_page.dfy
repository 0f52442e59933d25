/**
 * The markets page (app/dashboard/markets/page.tsx): the eight sample markets, the
 * case-insensitive search over name and symbol, and the sign shown before the 24h change.
 */
module MarketsPage {
  import opened JsString
  import opened SeqFilter

  /** `changeType: 'positive' | 'negative'`. */
  datatype ChangeType = Positive | Negative

  datatype Market = Market(
    id: int,
    name: string,
    symbol: string,
    price: real,
    change: real,
    changeType: ChangeType,
    marketCap: real,
    volume: real,
    starred: bool)

  /** The page's placeholder data. */
  const SampleMarkets: seq<Market> := [
    Market(1, "Bitcoin", "BTC", 50000.0, 2.4, Positive, 950000000000.0, 28000000000.0, true),
    Market(2, "Ethereum", "ETH", 2800.0, -1.2, Negative, 336000000000.0, 15000000000.0, true),
    Market(3, "Solana", "SOL", 110.0, 5.7, Positive, 45000000000.0, 2500000000.0, false),
    Market(4, "Cardano", "ADA", 0.9, 0.8, Positive, 31000000000.0, 1200000000.0, false),
    Market(5, "Binance Coin", "BNB", 320.0, -0.5, Negative, 49000000000.0, 1800000000.0, false),
    Market(6, "XRP", "XRP", 0.5, 1.2, Positive, 25000000000.0, 1100000000.0, false),
    Market(7, "Polkadot", "DOT", 18.0, -2.1, Negative, 18000000000.0, 900000000.0, false),
    Market(8, "Dogecoin", "DOGE", 0.08, 3.5, Positive, 11000000000.0, 800000000.0, false)
  ]

  /** The search: the query, lower-cased, occurs in the lower-cased name or symbol. */
  predicate MatchesQuery(m: Market, query: string) {
    MatchesIgnoringCase(m.name, query) || MatchesIgnoringCase(m.symbol, query)
  }

  /** `filteredCryptos`. */
  function FilteredMarkets(markets: seq<Market>, query: string): seq<Market> {
    Filter(markets, (m: Market) => MatchesQuery(m, query))
  }

  /** A market is listed iff it is one of the markets and its name or symbol matches. */
  lemma {:induction false} FilteredMembers(markets: seq<Market>, query: string, m: Market)
    ensures m in FilteredMarkets(markets, query) <==> m in markets && MatchesQuery(m, query)
  {
    FilterMembers(markets, (x: Market) => MatchesQuery(x, query), m);
  }

  /** The empty query lists every market, in the original order. */
  lemma {:induction false} EmptyQueryShowsAll(markets: seq<Market>)
    ensures FilteredMarkets(markets, "") == markets
  {
    forall i | 0 <= i < |markets|
      ensures MatchesQuery(markets[i], "")
    {
      EmptyQueryMatches(markets[i].name);
    }
    FilterKeepsAll(markets, (x: Market) => MatchesQuery(x, ""));
  }

  /** With no query the page lists all eight sample markets. */
  lemma {:induction false} EmptyQueryShowsEightMarkets()
    ensures FilteredMarkets(SampleMarkets, "") == SampleMarkets && |SampleMarkets| == 8
  {
    EmptyQueryShowsAll(SampleMarkets);
  }

  /** Filtering keeps the relative order of the markets. */
  lemma {:induction false} FilterKeepsOrder(a: seq<Market>, b: seq<Market>, query: string)
    ensures FilteredMarkets(a + b, query) == FilteredMarkets(a, query) + FilteredMarkets(b, query)
  {
    FilterAppend(a, b, (x: Market) => MatchesQuery(x, query));
  }

  /** "No cryptocurrencies found matching your search." shows iff no market matches. */
  lemma {:induction false} NoMatchMessage(markets: seq<Market>, query: string)
    ensures FilteredMarkets(markets, query) == []
        <==> forall i :: 0 <= i < |markets| ==> !MatchesQuery(markets[i], query)
  {
    FilterEmpty(markets, (x: Market) => MatchesQuery(x, query));
  }

  /** `changeType === 'positive' ? '+' : ''`: a negative change carries its own minus sign. */
  function ChangePrefix(m: Market): (r: string)
    ensures r == "+" <==> m.changeType == Positive
    ensures m.changeType == Negative ==> r == ""
  {
    if m.changeType == Positive then "+" else ""
  }

  /**
   * In the sample data the change type agrees with the number, so a change is shown with a
   * `+` exactly when it is positive.
   */
  lemma {:induction false} SamplePrefixAgreesWithChange()
    ensures forall i :: 0 <= i < |SampleMarkets| ==>
              (ChangePrefix(SampleMarkets[i]) == "+" <==> SampleMarkets[i].change > 0.0)
  {
  }
}
