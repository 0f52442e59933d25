/**
 * The market table (components/crypto/CryptoSearch.tsx): the case-insensitive name/symbol
 * search, the gainers/losers filter, the sort of the filtered copy by the chosen column and
 * direction, the favourites toggle and the "already held" test that disables quick-add.
 */
module CryptoSearch {
  import opened CryptoTypes
  import opened JsString
  import opened SeqFilter
  import ArraySort

  datatype SortField = MarketCap | Price | Change24h
  datatype SortOrder = Asc | Desc
  datatype ChangeFilter = All | Gainers | Losers

  /** The search: the lower-cased name or symbol contains the lower-cased term. */
  predicate MatchesSearch(asset: CryptoAsset, term: string) {
    MatchesIgnoringCase(asset.name, term) || MatchesIgnoringCase(asset.symbol, term)
  }

  /** The gainers/losers filter on the 24h change; zero change passes only `All`. */
  predicate PassesFilter(asset: CryptoAsset, filterBy: ChangeFilter) {
    match filterBy
    case All => true
    case Gainers => asset.priceChangePercentage24h > 0.0
    case Losers => asset.priceChangePercentage24h < 0.0
  }

  /** The column the comparator reads. */
  function SortKey(field: SortField): CryptoAsset -> real {
    match field
    case MarketCap => (a: CryptoAsset) => a.marketCap
    case Price => (a: CryptoAsset) => a.currentPrice
    case Change24h => (a: CryptoAsset) => a.priceChangePercentage24h
  }

  /** The search filter as the predicate handed to `filter`. */
  function SearchTest(term: string): CryptoAsset -> bool {
    (a: CryptoAsset) => MatchesSearch(a, term)
  }

  /** The change filter's predicate for `Gainers` and `Losers`. */
  const GainerTest: CryptoAsset -> bool := (a: CryptoAsset) => a.priceChangePercentage24h > 0.0
  const LoserTest: CryptoAsset -> bool := (a: CryptoAsset) => a.priceChangePercentage24h < 0.0

  /** The list before sorting: the search filter, then the change filter when one is chosen. */
  function Candidates(cryptoData: seq<CryptoAsset>, term: string, filterBy: ChangeFilter): seq<CryptoAsset> {
    var searched := Filter(cryptoData, SearchTest(term));
    match filterBy
    case All => searched
    case Gainers => Filter(searched, GainerTest)
    case Losers => Filter(searched, LoserTest)
  }

  /** An asset is a candidate iff it is listed, matches the search and passes the filter. */
  lemma {:induction false} CandidatesMembers(cryptoData: seq<CryptoAsset>, term: string, filterBy: ChangeFilter, x: CryptoAsset)
    ensures x in Candidates(cryptoData, term, filterBy)
        <==> x in cryptoData && MatchesSearch(x, term) && PassesFilter(x, filterBy)
  {
    FilterMembers(cryptoData, SearchTest(term), x);
    var searched := Filter(cryptoData, SearchTest(term));
    match filterBy {
      case All =>
      case Gainers => FilterMembers(searched, GainerTest, x);
      case Losers => FilterMembers(searched, LoserTest, x);
    }
  }

  /** An empty search term under `All` keeps every asset, in order. */
  lemma {:induction false} EmptySearchKeepsAll(cryptoData: seq<CryptoAsset>)
    ensures Candidates(cryptoData, "", All) == cryptoData
  {
    forall i | 0 <= i < |cryptoData|
      ensures MatchesSearch(cryptoData[i], "")
    {
      EmptyQueryMatches(cryptoData[i].name);
    }
    FilterKeepsAll(cryptoData, SearchTest(""));
  }

  /**
   * `filteredAndSortedData`: the candidates, copied into a fresh array and sorted there, so
   * the input list keeps its order.
   */
  method FilteredAndSorted(cryptoData: seq<CryptoAsset>, term: string, filterBy: ChangeFilter,
                           sortBy: SortField, sortOrder: SortOrder) returns (r: seq<CryptoAsset>)
    ensures r == ArraySort.SortBy(Candidates(cryptoData, term, filterBy), SortKey(sortBy), sortOrder == Desc)
  {
    var filtered := Filter(cryptoData, SearchTest(term));
    if filterBy == Gainers {
      filtered := Filter(filtered, GainerTest);
    } else if filterBy == Losers {
      filtered := Filter(filtered, LoserTest);
    }
    r := ArraySort.SortedCopy(filtered, SortKey(sortBy), sortOrder == Desc);
  }

  /**
   * What the table shows: exactly the candidates (nothing added, dropped or duplicated),
   * ordered by the chosen column, non-increasing for `Desc` and non-decreasing for `Asc`.
   */
  lemma {:induction false} ShownList(cryptoData: seq<CryptoAsset>, term: string, filterBy: ChangeFilter,
                  sortBy: SortField, sortOrder: SortOrder, x: CryptoAsset)
    ensures var r := ArraySort.SortBy(Candidates(cryptoData, term, filterBy), SortKey(sortBy), sortOrder == Desc);
            && multiset(r) == multiset(Candidates(cryptoData, term, filterBy))
            && ArraySort.Ordered(r, SortKey(sortBy), sortOrder == Desc)
            && (x in r <==> x in cryptoData && MatchesSearch(x, term) && PassesFilter(x, filterBy))
  {
    var c := Candidates(cryptoData, term, filterBy);
    ArraySort.SortByOrdered(c, SortKey(sortBy), sortOrder == Desc);
    ArraySort.SortByMembers(c, SortKey(sortBy), sortOrder == Desc, x);
    CandidatesMembers(cryptoData, term, filterBy, x);
  }

  /** The sort column and direction never change which assets are shown, nor how often. */
  lemma {:induction false} SortChoiceKeepsRows(cryptoData: seq<CryptoAsset>, term: string, filterBy: ChangeFilter,
                            f1: SortField, o1: SortOrder, f2: SortField, o2: SortOrder)
    ensures multiset(ArraySort.SortBy(Candidates(cryptoData, term, filterBy), SortKey(f1), o1 == Desc))
         == multiset(ArraySort.SortBy(Candidates(cryptoData, term, filterBy), SortKey(f2), o2 == Desc))
  {
    var c := Candidates(cryptoData, term, filterBy);
    ArraySort.SortByPermutes(c, SortKey(f1), o1 == Desc);
    ArraySort.SortByPermutes(c, SortKey(f2), o2 == Desc);
  }

  /** "No assets found" shows iff no listed asset matches the search and passes the filter. */
  lemma {:induction false} NoAssetsFound(cryptoData: seq<CryptoAsset>, term: string, filterBy: ChangeFilter,
                      sortBy: SortField, sortOrder: SortOrder)
    ensures |ArraySort.SortBy(Candidates(cryptoData, term, filterBy), SortKey(sortBy), sortOrder == Desc)| == 0
        <==> forall i :: 0 <= i < |cryptoData| ==> !(MatchesSearch(cryptoData[i], term) && PassesFilter(cryptoData[i], filterBy))
  {
    var c := Candidates(cryptoData, term, filterBy);
    ArraySort.SortByOrdered(c, SortKey(sortBy), sortOrder == Desc);
    if c != [] {
      CandidatesMembers(cryptoData, term, filterBy, c[0]);
    } else {
      forall i | 0 <= i < |cryptoData|
        ensures !(MatchesSearch(cryptoData[i], term) && PassesFilter(cryptoData[i], filterBy))
      {
        CandidatesMembers(cryptoData, term, filterBy, cryptoData[i]);
      }
    }
  }

  /** `toggleFavorite(assetId)`: removes every occurrence when present, appends it otherwise. */
  function ToggleFavorite(favorites: seq<string>, assetId: string): (r: seq<string>)
    ensures assetId in favorites ==> assetId !in r
    ensures assetId in favorites ==> r == Filter(favorites, (id: string) => id != assetId)
    ensures assetId !in favorites ==> r == favorites + [assetId]
    ensures forall id :: id != assetId ==> (id in r <==> id in favorites)
  {
    if assetId in favorites then
      var kept := Filter(favorites, (id: string) => id != assetId);
      FilterMembers(favorites, (id: string) => id != assetId, assetId);
      assert forall id :: id != assetId ==> (id in kept <==> id in favorites) by {
        forall id | id != assetId
          ensures id in kept <==> id in favorites
        {
          FilterMembers(favorites, (id: string) => id != assetId, id);
        }
      }
      kept
    else favorites + [assetId]
  }

  /** Toggling twice restores membership of every id; from an unstarred id it restores the list itself. */
  lemma {:induction false} ToggleTwice(favorites: seq<string>, assetId: string)
    ensures forall id :: id in ToggleFavorite(ToggleFavorite(favorites, assetId), assetId) <==> id in favorites
    ensures assetId !in favorites ==> ToggleFavorite(ToggleFavorite(favorites, assetId), assetId) == favorites
  {
    if assetId !in favorites {
      var p := (id: string) => id != assetId;
      FilterAppend(favorites, [assetId], p);
      FilterKeepsAll(favorites, p);
      assert Filter([assetId], p) == [];
    }
  }

  /** `isInPortfolio(assetId)`: `portfolio.some(p => p.id === assetId)`. */
  function IsInPortfolio(portfolio: seq<PortfolioAsset>, assetId: string): (r: bool)
    ensures r <==> exists k :: 0 <= k < |portfolio| && portfolio[k].id == assetId
  {
    if portfolio == [] then false
    else if portfolio[0].id == assetId then true
    else
      var r := IsInPortfolio(portfolio[1..], assetId);
      assert r ==> exists k :: 0 <= k < |portfolio[1..]| && portfolio[1..][k].id == assetId;
      r
  }
}
