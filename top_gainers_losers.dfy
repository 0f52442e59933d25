/**
 * The market movers card (components/crypto/TopGainersLosers.tsx): a copy of the market list
 * sorted by 24h change, down for gainers and up for losers, cut to its first five entries.
 */
module TopGainersLosers {
  import opened CryptoTypes
  import ArraySort
  import opened JsString

  const TopCount: nat := 5

  datatype Tab = GainersTab | LosersTab

  function Change(a: CryptoAsset): real {
    a.priceChangePercentage24h
  }

  /** `[...cryptoData].sort((a, b) => b.change - a.change).slice(0, 5)`. */
  function Gainers(cryptoData: seq<CryptoAsset>): seq<CryptoAsset> {
    Take(ArraySort.SortBy(cryptoData, Change, true), TopCount)
  }

  /** `[...cryptoData].sort((a, b) => a.change - b.change).slice(0, 5)`. */
  function Losers(cryptoData: seq<CryptoAsset>): seq<CryptoAsset> {
    Take(ArraySort.SortBy(cryptoData, Change, false), TopCount)
  }

  /** `activeTab === 'gainers' ? gainers : losers`. */
  function CurrentData(tab: Tab, cryptoData: seq<CryptoAsset>): (r: seq<CryptoAsset>)
    ensures tab == GainersTab ==> r == Gainers(cryptoData)
    ensures tab == LosersTab ==> r == Losers(cryptoData)
  {
    if tab == GainersTab then Gainers(cryptoData) else Losers(cryptoData)
  }

  /**
   * In a list ordered by `key`, no element after position `n` should come before an element
   * of the first `n`.
   */
  lemma {:induction false} PrefixDominates<T>(s: seq<T>, n: nat, key: T -> real, descending: bool)
    requires n <= |s| && ArraySort.Ordered(s, key, descending)
    ensures forall x, y :: x in s[..n] && y in multiset(s[n..]) ==> !ArraySort.Before(key, descending, y, x)
  {
    forall x, y | x in s[..n] && y in multiset(s[n..])
      ensures !ArraySort.Before(key, descending, y, x)
    {
      var i :| 0 <= i < n && s[..n][i] == x;
      assert y in s[n..];
      var j :| 0 <= j < |s| - n && s[n..][j] == y;
      assert s[i] == x && s[n + j] == y;
    }
  }

  /** What a prefix leaves out is exactly the rest of the list. */
  lemma {:induction false} PrefixSplit<T>(s: seq<T>, n: nat)
    requires n <= |s|
    ensures multiset(s[..n]) <= multiset(s)
    ensures multiset(s) - multiset(s[..n]) == multiset(s[n..])
  {
    assert s == s[..n] + s[n..];
  }

  /** A prefix of an ordered list is ordered. */
  lemma {:induction false} PrefixOrdered<T>(s: seq<T>, n: nat, key: T -> real, descending: bool)
    requires n <= |s| && ArraySort.Ordered(s, key, descending)
    ensures ArraySort.Ordered(s[..n], key, descending)
  {
    forall i, j | 0 <= i < j < n
      ensures !ArraySort.Before(key, descending, s[..n][j], s[..n][i])
    {
      assert s[..n][i] == s[i] && s[..n][j] == s[j];
    }
  }

  /**
   * The selection of a top-five list: the `min(5, n)` entries it keeps come from the input,
   * in order, and none of the entries it leaves out should have been ranked before them.
   */
  lemma {:induction false} TopFive(cryptoData: seq<CryptoAsset>, descending: bool)
    ensures var sorted := ArraySort.SortBy(cryptoData, Change, descending);
            var top := Take(sorted, TopCount);
            && |top| == (if |cryptoData| < 5 then |cryptoData| else 5)
            && ArraySort.Ordered(top, Change, descending)
            && multiset(top) <= multiset(cryptoData)
            && forall x, y :: x in top && y in multiset(cryptoData) - multiset(top) ==>
                 !ArraySort.Before(Change, descending, y, x)
  {
    var sorted := ArraySort.SortBy(cryptoData, Change, descending);
    ArraySort.SortByOrdered(cryptoData, Change, descending);
    var top := Take(sorted, TopCount);
    var n := |top|;
    assert top == sorted[..n];
    PrefixSplit(sorted, n);
    PrefixOrdered(sorted, n, Change, descending);
    PrefixDominates(sorted, n, Change, descending);
  }

  /** One kept and one left-out entry of a top-five list, in their ranking order. */
  lemma {:induction false} TopDominates(cryptoData: seq<CryptoAsset>, descending: bool, x: CryptoAsset, y: CryptoAsset)
    requires var top := Take(ArraySort.SortBy(cryptoData, Change, descending), TopCount);
             x in top && y in multiset(cryptoData) - multiset(top)
    ensures !ArraySort.Before(Change, descending, y, x)
  {
    TopFive(cryptoData, descending);
  }

  /** Every gainer changed at least as much as every asset left out of the gainers. */
  lemma {:induction false} GainersDominate(cryptoData: seq<CryptoAsset>, x: CryptoAsset, y: CryptoAsset)
    requires x in Gainers(cryptoData) && y in multiset(cryptoData) - multiset(Gainers(cryptoData))
    ensures x.priceChangePercentage24h >= y.priceChangePercentage24h
  {
    TopDominates(cryptoData, true, x, y);
  }

  /** Every loser changed at most as much as every asset left out of the losers. */
  lemma {:induction false} LosersDominate(cryptoData: seq<CryptoAsset>, x: CryptoAsset, y: CryptoAsset)
    requires x in Losers(cryptoData) && y in multiset(cryptoData) - multiset(Losers(cryptoData))
    ensures x.priceChangePercentage24h <= y.priceChangePercentage24h
  {
    TopDominates(cryptoData, false, x, y);
  }

  /** Gainers are non-increasing and losers non-decreasing by change, each `min(5, n)` long. */
  lemma {:induction false} GainersAndLosersShape(cryptoData: seq<CryptoAsset>)
    ensures |Gainers(cryptoData)| == |Losers(cryptoData)| == (if |cryptoData| < 5 then |cryptoData| else 5)
    ensures forall i, j :: 0 <= i < j < |Gainers(cryptoData)| ==>
              Gainers(cryptoData)[i].priceChangePercentage24h >= Gainers(cryptoData)[j].priceChangePercentage24h
    ensures forall i, j :: 0 <= i < j < |Losers(cryptoData)| ==>
              Losers(cryptoData)[i].priceChangePercentage24h <= Losers(cryptoData)[j].priceChangePercentage24h
  {
    TopFive(cryptoData, true);
    TopFive(cryptoData, false);
  }
}
