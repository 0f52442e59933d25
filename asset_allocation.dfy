/**
 * The allocation card (components/crypto/AssetAllocation.tsx): one entry per holding that has
 * a price, its share of the total in percent, the symbol's colour, and the list shown beside
 * the chart, sorted by share in place.
 */
module AssetAllocation {
  import opened Options
  import opened CryptoTypes
  import opened JsString
  import ArraySort
  import UsePortfolio

  /** One slice of the chart, before its percentage is known. */
  datatype Entry = Entry(name: string, value: real, amount: real, price: real, color: string)

  /** `{...item, percentage}`. */
  datatype Row = Row(entry: Entry, percentage: real)

  const DefaultColor: string := "#8B5CF6"

  /** The colour table, keyed by upper-case symbol. */
  const Colors: map<string, string> := map[
    "BTC" := "#F7931A",
    "ETH" := "#627EEA",
    "BNB" := "#F3BA2F",
    "ADA" := "#0033AD",
    "SOL" := "#9945FF",
    "DOT" := "#E6007A",
    "AVAX" := "#E84142",
    "MATIC" := "#8247E5",
    "LINK" := "#375BD2",
    "UNI" := "#FF007A"
  ]

  /** `getAssetColor(symbol)`: the table entry of the upper-cased symbol, else the default. */
  function AssetColor(symbol: string): (r: string)
    ensures ToUpper(symbol) in Colors ==> r == Colors[ToUpper(symbol)]
    ensures ToUpper(symbol) !in Colors ==> r == DefaultColor
  {
    var key := ToUpper(symbol);
    if key in Colors then Colors[key] else DefaultColor
  }

  /** The lookup ignores case: symbols that agree once upper-cased get the same colour. */
  lemma {:induction false} AssetColorIgnoresCase(a: string, b: string)
    requires ToUpper(a) == ToUpper(b)
    ensures AssetColor(a) == AssetColor(b)
  {
  }

  /** Upper-casing the symbol first changes nothing. */
  lemma {:induction false} AssetColorOfUpperCase(symbol: string)
    ensures AssetColor(ToUpper(symbol)) == AssetColor(symbol)
  {
    ToUpperIdempotent(symbol);
  }

  /** A listed symbol, in whatever case, gets its own colour, never the default. */
  lemma {:induction false} ListedSymbolsAreColoured(symbol: string)
    requires ToUpper(symbol) in Colors
    ensures AssetColor(symbol) != DefaultColor
  {
    assert DefaultColor !in Colors.Values;
  }

  /** The entry of a holding priced by `c`. */
  function EntryOf(asset: PortfolioAsset, c: CryptoAsset): (e: Entry)
    ensures e.value == asset.amount * c.currentPrice
    ensures e.name == ToUpper(c.symbol) && e.color == AssetColor(c.symbol)
    ensures e.amount == asset.amount && e.price == c.currentPrice
  {
    Entry(ToUpper(c.symbol), asset.amount * c.currentPrice, asset.amount, c.currentPrice, AssetColor(c.symbol))
  }

  /** What one holding contributes to `allocationData`: its entry when priced, nothing otherwise. */
  function PricedEntry(asset: PortfolioAsset, cryptoData: seq<CryptoAsset>): (r: seq<Entry>)
    ensures !Priced(cryptoData, asset.id) ==> r == []
    ensures Priced(cryptoData, asset.id) ==> r == [EntryOf(asset, Find(cryptoData, asset.id).value)]
  {
    match Find(cryptoData, asset.id)
    case None => []
    case Some(c) => [EntryOf(asset, c)]
  }

  /** `allocationData`: `portfolio.map(...)` with `null` for an unpriced holding, then `.filter(Boolean)`. */
  function AllocationData(portfolio: seq<PortfolioAsset>, cryptoData: seq<CryptoAsset>): (r: seq<Entry>)
    ensures |r| <= |portfolio|
  {
    if portfolio == [] then []
    else PricedEntry(portfolio[0], cryptoData) + AllocationData(portfolio[1..], cryptoData)
  }

  /**
   * The entries are those of the holdings, in portfolio order: the entries of a concatenation
   * are the entries of each part, so each holding contributes its `PricedEntry` in place.
   */
  lemma {:induction false} AllocationDataAppend(a: seq<PortfolioAsset>, b: seq<PortfolioAsset>, cryptoData: seq<CryptoAsset>)
    ensures AllocationData(a + b, cryptoData) == AllocationData(a, cryptoData) + AllocationData(b, cryptoData)
  {
    if a == [] {
      assert a + b == b;
    } else {
      var ab := a + b;
      assert ab[0] == a[0] && ab[1..] == a[1..] + b;
      AllocationDataAppend(a[1..], b, cryptoData);
      var h := PricedEntry(a[0], cryptoData);
      calc {
        AllocationData(ab, cryptoData);
        h + AllocationData(a[1..] + b, cryptoData);
        h + (AllocationData(a[1..], cryptoData) + AllocationData(b, cryptoData));
        (h + AllocationData(a[1..], cryptoData)) + AllocationData(b, cryptoData);
      }
    }
  }

  /** With no holding priced there is nothing to chart. */
  lemma {:induction false} UnpricedHoldingsAreExcluded(portfolio: seq<PortfolioAsset>, cryptoData: seq<CryptoAsset>)
    requires forall k :: 0 <= k < |portfolio| ==> !Priced(cryptoData, portfolio[k].id)
    ensures AllocationData(portfolio, cryptoData) == []
  {
    if portfolio != [] {
      UnpricedHoldingsAreExcluded(portfolio[1..], cryptoData);
    }
  }

  /** `allocationData.reduce((sum, item) => sum + item.value, 0)`. */
  function Total(entries: seq<Entry>): real {
    if entries == [] then 0.0 else entries[0].value + Total(entries[1..])
  }

  /** The chart's total is the portfolio value the portfolio hook computes for the same data. */
  lemma {:induction false} TotalIsPortfolioValue(portfolio: seq<PortfolioAsset>, cryptoData: seq<CryptoAsset>)
    ensures Total(AllocationData(portfolio, cryptoData)) == UsePortfolio.TotalValue(portfolio, cryptoData)
  {
    if portfolio != [] {
      var x, rest := portfolio[0], portfolio[1..];
      TotalIsPortfolioValue(rest, cryptoData);
      assert [x] + rest == portfolio;
      UsePortfolio.TotalValueAppend([x], rest, cryptoData);
      PricedEntryTotal(x, cryptoData);
      TotalAppend(PricedEntry(x, cryptoData), AllocationData(rest, cryptoData));
    }
  }

  /** One holding: its entry's value, if any, is what it adds to the portfolio value. */
  lemma {:induction false} PricedEntryTotal(asset: PortfolioAsset, cryptoData: seq<CryptoAsset>)
    ensures Total(PricedEntry(asset, cryptoData)) == UsePortfolio.TotalValue([asset], cryptoData)
  {
    assert [asset][..0] == [];
    assert UsePortfolio.TotalValue([asset], cryptoData) == UsePortfolio.Contribution(asset, cryptoData);
  }

  lemma {:induction false} TotalAppend(a: seq<Entry>, b: seq<Entry>)
    ensures Total(a + b) == Total(a) + Total(b)
  {
    if a == [] {
      assert a + b == b;
    } else {
      assert (a + b)[1..] == a[1..] + b;
      TotalAppend(a[1..], b);
    }
  }

  /** The share of one entry: `value / total * 100` when the total is positive, else 0. */
  function Percentage(value: real, total: real): (p: real)
    ensures total <= 0.0 ==> p == 0.0
    ensures total > 0.0 ==> p * total == value * 100.0
  {
    if total > 0.0 then value / total * 100.0 else 0.0
  }

  /** `dataWithPercentage`. */
  function WithPercentage(entries: seq<Entry>, total: real): (r: seq<Row>)
    ensures |r| == |entries|
    ensures forall i :: 0 <= i < |r| ==> r[i].entry == entries[i] && r[i].percentage == Percentage(entries[i].value, total)
  {
    seq(|entries|, i requires 0 <= i < |entries| => Row(entries[i], Percentage(entries[i].value, total)))
  }

  function PercentageSum(rows: seq<Row>): real {
    if rows == [] then 0.0 else rows[0].percentage + PercentageSum(rows[1..])
  }

  lemma {:induction false} PercentageSumScales(entries: seq<Entry>, total: real)
    requires total > 0.0
    ensures PercentageSum(WithPercentage(entries, total)) * total == Total(entries) * 100.0
  {
    if entries != [] {
      var rows := WithPercentage(entries, total);
      assert rows[1..] == WithPercentage(entries[1..], total);
      PercentageSumScales(entries[1..], total);
      var p := Percentage(entries[0].value, total);
      calc {
        PercentageSum(rows) * total;
        (p + PercentageSum(rows[1..])) * total;
        p * total + PercentageSum(rows[1..]) * total;
        entries[0].value * 100.0 + Total(entries[1..]) * 100.0;
      }
    }
  }

  /** With a positive total the shares add up to exactly 100. */
  lemma {:induction false} PercentagesAddUpTo100(entries: seq<Entry>)
    requires Total(entries) > 0.0
    ensures PercentageSum(WithPercentage(entries, Total(entries))) == 100.0
  {
    var total := Total(entries);
    PercentageSumScales(entries, total);
    Cancel(PercentageSum(WithPercentage(entries, total)), 100.0, total);
  }

  lemma {:induction false} Cancel(x: real, y: real, t: real)
    requires t > 0.0 && x * t == y * t
    ensures x == y
  {
    assert (x - y) * t == 0.0;
  }

  /** With no positive total every share is 0. */
  lemma {:induction false} NoTotalNoShares(entries: seq<Entry>)
    requires Total(entries) <= 0.0
    ensures forall i :: 0 <= i < |entries| ==> WithPercentage(entries, Total(entries))[i].percentage == 0.0
  {
  }

  function Share(row: Row): real {
    row.percentage
  }

  /**
   * The list beside the chart: the rows with their percentages, sorted in place by share,
   * largest first (a stable sort, so equal shares keep portfolio order).
   */
  method DisplayList(portfolio: seq<PortfolioAsset>, cryptoData: seq<CryptoAsset>) returns (list: seq<Row>)
    ensures list == ArraySort.SortBy(WithPercentage(AllocationData(portfolio, cryptoData),
                                                    Total(AllocationData(portfolio, cryptoData))), Share, true)
  {
    var allocationData := AllocationData(portfolio, cryptoData);
    var totalValue := Total(allocationData);
    var rows := WithPercentage(allocationData, totalValue);
    list := ArraySort.SortedCopy(rows, Share, true);
  }

  /** The displayed list holds the same rows, largest share first. */
  lemma {:induction false} DisplayListOrdered(portfolio: seq<PortfolioAsset>, cryptoData: seq<CryptoAsset>)
    ensures var rows := WithPercentage(AllocationData(portfolio, cryptoData), Total(AllocationData(portfolio, cryptoData)));
            var list := ArraySort.SortBy(rows, Share, true);
            && multiset(list) == multiset(rows)
            && forall i, j :: 0 <= i < j < |list| ==> list[i].percentage >= list[j].percentage
  {
    var rows := WithPercentage(AllocationData(portfolio, cryptoData), Total(AllocationData(portfolio, cryptoData)));
    ArraySort.SortByOrdered(rows, Share, true);
  }
}
