/**
 * The statistics of the portfolio overview (components/crypto/PortfolioOverview.tsx,
 * `calculateStats`): the 24h change in value over the priced holdings, that change as a
 * percentage of the value a day earlier, the number of holdings, and the best and worst
 * performer by 24h change.
 */
module PortfolioOverview {
  import opened Options
  import opened CryptoTypes
  import opened JsString
  import UsePortfolio

  datatype Performer = Performer(symbol: string, change: real)

  /**
   * The statistics record. `totalChangePercent24h` is `None` where the source divides by zero
   * (the value a day earlier is 0), which JavaScript turns into a non-finite number.
   */
  datatype Stats = Stats(
    totalChange24h: real,
    totalChangePercent24h: Option<real>,
    totalAssets: nat,
    bestPerformer: Option<Performer>,
    worstPerformer: Option<Performer>)

  /** `assetValue * (price_change_percentage_24h / 100)`. */
  function HoldingChange(asset: PortfolioAsset, c: CryptoAsset): real {
    asset.amount * c.currentPrice * (c.priceChangePercentage24h / 100.0)
  }

  /** The sum of the holdings' 24h changes, over the holdings that have a price. */
  function TotalChange(portfolio: seq<PortfolioAsset>, cryptoData: seq<CryptoAsset>): real {
    if portfolio == [] then 0.0
    else
      var last := portfolio[|portfolio| - 1];
      TotalChange(portfolio[..|portfolio| - 1], cryptoData) + PricedChange(last, cryptoData)
  }

  /** What one holding adds to the total change: its change when it has a price, else 0. */
  function PricedChange(asset: PortfolioAsset, cryptoData: seq<CryptoAsset>): real {
    match Find(cryptoData, asset.id)
    case None => 0.0
    case Some(c) => HoldingChange(asset, c)
  }

  /** `x` replaces the current best (`highest`) or worst performer with change `y`: a strict comparison. */
  predicate Beats(x: real, y: real, highest: bool) {
    if highest then x > y else x < y
  }

  /** The change of a priced holding. */
  function ChangeOf(cryptoData: seq<CryptoAsset>, asset: PortfolioAsset): real
    requires Priced(cryptoData, asset.id)
  {
    Find(cryptoData, asset.id).value.priceChangePercentage24h
  }

  /** The performer a priced holding is reported as. */
  function PerformerOf(cryptoData: seq<CryptoAsset>, asset: PortfolioAsset): Performer
    requires Priced(cryptoData, asset.id)
  {
    var c := Find(cryptoData, asset.id).value;
    Performer(ToUpper(c.symbol), c.priceChangePercentage24h)
  }

  /** The best (`highest`) or worst performer after walking `portfolio`; `None` for the `∓Infinity` start. */
  function Extreme(portfolio: seq<PortfolioAsset>, cryptoData: seq<CryptoAsset>, highest: bool): Option<Performer> {
    if portfolio == [] then None
    else
      var sofar := Extreme(portfolio[..|portfolio| - 1], cryptoData, highest);
      var last := portfolio[|portfolio| - 1];
      if Priced(cryptoData, last.id)
         && (sofar.None? || Beats(ChangeOf(cryptoData, last), sofar.value.change, highest))
      then Some(PerformerOf(cryptoData, last))
      else sofar
  }

  /** There is a best (or worst) performer iff some holding has a price. */
  lemma {:induction false} ExtremeExistsIffPriced(portfolio: seq<PortfolioAsset>, cryptoData: seq<CryptoAsset>, highest: bool)
    ensures Extreme(portfolio, cryptoData, highest).None?
        <==> forall k :: 0 <= k < |portfolio| ==> !Priced(cryptoData, portfolio[k].id)
  {
    if portfolio != [] {
      var n := |portfolio| - 1;
      ExtremeExistsIffPriced(portfolio[..n], cryptoData, highest);
      assert forall k :: 0 <= k < n ==> portfolio[..n][k] == portfolio[k];
    }
  }

  /** No priced holding beats the performer found: the best has the highest change, the worst the lowest. */
  lemma {:induction false} ExtremeIsUnbeaten(portfolio: seq<PortfolioAsset>, cryptoData: seq<CryptoAsset>, highest: bool)
    ensures var e := Extreme(portfolio, cryptoData, highest);
            e.Some? ==> forall k :: 0 <= k < |portfolio| && Priced(cryptoData, portfolio[k].id) ==>
                          !Beats(ChangeOf(cryptoData, portfolio[k]), e.value.change, highest)
  {
    if portfolio != [] {
      var n := |portfolio| - 1;
      var init, last := portfolio[..n], portfolio[n];
      ExtremeIsUnbeaten(init, cryptoData, highest);
      ExtremeExistsIffPriced(init, cryptoData, highest);
      var sofar := Extreme(init, cryptoData, highest);
      var e := Extreme(portfolio, cryptoData, highest);
      var replaced := Priced(cryptoData, last.id) && (sofar.None? || Beats(ChangeOf(cryptoData, last), sofar.value.change, highest));
      if e.Some? {
        forall k | 0 <= k < |portfolio| && Priced(cryptoData, portfolio[k].id)
          ensures !Beats(ChangeOf(cryptoData, portfolio[k]), e.value.change, highest)
        {
          if k < n {
            assert portfolio[k] == init[k];
            assert sofar.Some?;
            assert !Beats(ChangeOf(cryptoData, init[k]), sofar.value.change, highest);
          } else if replaced {
            assert e.value.change == ChangeOf(cryptoData, last);
          } else {
            assert e == sofar;
          }
        }
      }
    }
  }

  /**
   * `p` is the performer of the priced holding at `k`, and every priced holding before it has a
   * strictly worse change (for the worst, strictly better).
   */
  predicate FirstExtremeAt(portfolio: seq<PortfolioAsset>, cryptoData: seq<CryptoAsset>, highest: bool, p: Performer, k: int) {
    && 0 <= k < |portfolio| && Priced(cryptoData, portfolio[k].id)
    && p == PerformerOf(cryptoData, portfolio[k])
    && forall m :: 0 <= m < k && Priced(cryptoData, portfolio[m].id) ==>
         Beats(p.change, ChangeOf(cryptoData, portfolio[m]), highest)
  }

  /** The performer found is that of a priced holding, the earliest with its change. */
  lemma {:induction false} ExtremeIsFirst(portfolio: seq<PortfolioAsset>, cryptoData: seq<CryptoAsset>, highest: bool)
    ensures var e := Extreme(portfolio, cryptoData, highest);
            e.Some? ==> exists k :: FirstExtremeAt(portfolio, cryptoData, highest, e.value, k)
  {
    if portfolio != [] {
      var n := |portfolio| - 1;
      var init, last := portfolio[..n], portfolio[n];
      var sofar := Extreme(init, cryptoData, highest);
      var e := Extreme(portfolio, cryptoData, highest);
      if Priced(cryptoData, last.id) && (sofar.None? || Beats(ChangeOf(cryptoData, last), sofar.value.change, highest)) {
        ExtremeIsUnbeaten(init, cryptoData, highest);
        ExtremeExistsIffPriced(init, cryptoData, highest);
        forall m | 0 <= m < n && Priced(cryptoData, portfolio[m].id)
          ensures Beats(e.value.change, ChangeOf(cryptoData, portfolio[m]), highest)
        {
          assert portfolio[m] == init[m];
          assert !Beats(ChangeOf(cryptoData, init[m]), sofar.value.change, highest);
        }
        assert FirstExtremeAt(portfolio, cryptoData, highest, e.value, n);
      } else if sofar.Some? {
        ExtremeIsFirst(init, cryptoData, highest);
        var k :| FirstExtremeAt(init, cryptoData, highest, sofar.value, k);
        FirstExtremeAtExtends(init, portfolio, cryptoData, highest, sofar.value, k);
      }
    }
  }

  /** A first-extreme position in a prefix stays one in the whole list. */
  lemma {:induction false} FirstExtremeAtExtends(init: seq<PortfolioAsset>, portfolio: seq<PortfolioAsset>, cryptoData: seq<CryptoAsset>,
                              highest: bool, p: Performer, k: int)
    requires init <= portfolio && FirstExtremeAt(init, cryptoData, highest, p, k)
    ensures FirstExtremeAt(portfolio, cryptoData, highest, p, k)
  {
    assert forall m :: 0 <= m <= k ==> portfolio[m] == init[m];
  }

  /** The 24h change as a percentage of the value a day earlier; 0 unless the total is positive. */
  function ChangePercent(totalValue: real, totalChange: real): (r: Option<real>)
    ensures totalValue <= 0.0 ==> r == Some(0.0)
    ensures r.None? <==> totalValue > 0.0 && totalValue == totalChange
    ensures totalValue > 0.0 && r.Some? ==> r.value * (totalValue - totalChange) == totalChange * 100.0
  {
    if totalValue > 0.0 then
      if totalValue - totalChange == 0.0 then None else Some(totalChange / (totalValue - totalChange) * 100.0)
    else Some(0.0)
  }

  /** `calculateStats()`: one pass over the holdings, as the source's `forEach`. */
  method CalculateStats(totalValue: real, portfolio: seq<PortfolioAsset>, cryptoData: seq<CryptoAsset>) returns (stats: Stats)
    ensures portfolio == [] || cryptoData == [] ==> stats == Stats(0.0, Some(0.0), 0, None, None)
    ensures portfolio != [] && cryptoData != [] ==>
              && stats.totalChange24h == TotalChange(portfolio, cryptoData)
              && stats.totalChangePercent24h == ChangePercent(totalValue, TotalChange(portfolio, cryptoData))
              && stats.totalAssets == |portfolio|
              && stats.bestPerformer == Extreme(portfolio, cryptoData, true)
              && stats.worstPerformer == Extreme(portfolio, cryptoData, false)
  {
    if |portfolio| == 0 || |cryptoData| == 0 {
      return Stats(0.0, Some(0.0), 0, None, None);
    }
    var totalChange24h := 0.0;
    var best: Option<Performer> := None;
    var worst: Option<Performer> := None;
    var i := 0;
    while i < |portfolio|
      invariant 0 <= i <= |portfolio|
      invariant totalChange24h == TotalChange(portfolio[..i], cryptoData)
      invariant best == Extreme(portfolio[..i], cryptoData, true)
      invariant worst == Extreme(portfolio[..i], cryptoData, false)
    {
      var asset := portfolio[i];
      assert portfolio[..i + 1][..i] == portfolio[..i];
      var cryptoAsset := Find(cryptoData, asset.id);
      if cryptoAsset.Some? {
        var c := cryptoAsset.value;
        var assetValue := asset.amount * c.currentPrice;
        var change24h := assetValue * (c.priceChangePercentage24h / 100.0);
        totalChange24h := totalChange24h + change24h;
        if best.None? || c.priceChangePercentage24h > best.value.change {
          best := Some(Performer(ToUpper(c.symbol), c.priceChangePercentage24h));
        }
        if worst.None? || c.priceChangePercentage24h < worst.value.change {
          worst := Some(Performer(ToUpper(c.symbol), c.priceChangePercentage24h));
        }
      }
      i := i + 1;
    }
    assert portfolio[..i] == portfolio;
    var percent := ChangePercent(totalValue, totalChange24h);
    stats := Stats(totalChange24h, percent, |portfolio|, best, worst);
  }

  /**
   * Holdings without a price entry count for nothing: with none priced the change is 0 and
   * there is neither a best nor a worst performer.
   */
  lemma {:induction false} NoPricedHoldings(portfolio: seq<PortfolioAsset>, cryptoData: seq<CryptoAsset>)
    requires forall k :: 0 <= k < |portfolio| ==> !Priced(cryptoData, portfolio[k].id)
    ensures TotalChange(portfolio, cryptoData) == 0.0
    ensures Extreme(portfolio, cryptoData, true).None? && Extreme(portfolio, cryptoData, false).None?
  {
    if portfolio != [] {
      NoPricedHoldings(portfolio[..|portfolio| - 1], cryptoData);
    }
  }
}
