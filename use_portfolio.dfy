/**
 * The portfolio hook (hooks/usePortfolio.ts): the signed-in user's holdings collection (keyed
 * by asset id), the transaction collection, the total value and the loading flag. The
 * collections are kept here as a map and an append-only sequence; a failed database write is
 * an argument.
 */
module UsePortfolio {
  import opened Options
  import opened CryptoTypes
  import ArraySort

  /** What one holding adds to the total: `amount * current_price` when it has a price entry. */
  function Contribution(asset: PortfolioAsset, cryptoData: seq<CryptoAsset>): (v: real)
    ensures !Priced(cryptoData, asset.id) ==> v == 0.0
    ensures Priced(cryptoData, asset.id) ==> v == asset.amount * Find(cryptoData, asset.id).value.currentPrice
  {
    match Find(cryptoData, asset.id)
    case None => 0.0
    case Some(c) => asset.amount * c.currentPrice
  }

  /** Σ amount × current price over the holdings that have a price entry, in list order. */
  function TotalValue(portfolio: seq<PortfolioAsset>, cryptoData: seq<CryptoAsset>): real {
    if portfolio == [] then 0.0
    else TotalValue(portfolio[..|portfolio| - 1], cryptoData) + Contribution(portfolio[|portfolio| - 1], cryptoData)
  }

  lemma {:induction false} TotalValueAppend(a: seq<PortfolioAsset>, b: seq<PortfolioAsset>, cryptoData: seq<CryptoAsset>)
    ensures TotalValue(a + b, cryptoData) == TotalValue(a, cryptoData) + TotalValue(b, cryptoData)
    decreases |b|
  {
    if b == [] {
      assert a + b == a;
    } else {
      assert (a + b)[..|a + b| - 1] == a + b[..|b| - 1];
      TotalValueAppend(a, b[..|b| - 1], cryptoData);
    }
  }

  /** A holding with no price entry adds nothing, wherever it stands. */
  lemma {:induction false} UnpricedAddsNothing(a: seq<PortfolioAsset>, asset: PortfolioAsset, b: seq<PortfolioAsset>, cryptoData: seq<CryptoAsset>)
    requires !Priced(cryptoData, asset.id)
    ensures TotalValue(a + [asset] + b, cryptoData) == TotalValue(a + b, cryptoData)
  {
    TotalValueAppend(a + [asset], b, cryptoData);
    TotalValueAppend(a, [asset], cryptoData);
    TotalValueAppend(a, b, cryptoData);
    assert TotalValue([asset], cryptoData) == TotalValue([], cryptoData) + Contribution(asset, cryptoData);
  }

  /** With no priced holding (in particular, an empty portfolio) the total is 0. */
  lemma {:induction false} NoPricedHoldingsTotalZero(portfolio: seq<PortfolioAsset>, cryptoData: seq<CryptoAsset>)
    requires forall k :: 0 <= k < |portfolio| ==> !Priced(cryptoData, portfolio[k].id)
    ensures TotalValue(portfolio, cryptoData) == 0.0
  {
    if portfolio != [] {
      NoPricedHoldingsTotalZero(portfolio[..|portfolio| - 1], cryptoData);
    }
  }

  /** Non-negative amounts at non-negative prices never total below 0. */
  lemma {:induction false} TotalValueNonNegative(portfolio: seq<PortfolioAsset>, cryptoData: seq<CryptoAsset>)
    requires forall k :: 0 <= k < |portfolio| ==> portfolio[k].amount >= 0.0
    requires forall k :: 0 <= k < |cryptoData| ==> cryptoData[k].currentPrice >= 0.0
    ensures TotalValue(portfolio, cryptoData) >= 0.0
  {
    if portfolio != [] {
      TotalValueNonNegative(portfolio[..|portfolio| - 1], cryptoData);
      ContributionNonNegative(portfolio[|portfolio| - 1], cryptoData);
    }
  }

  lemma {:induction false} ContributionNonNegative(asset: PortfolioAsset, cryptoData: seq<CryptoAsset>)
    requires asset.amount >= 0.0
    requires forall k :: 0 <= k < |cryptoData| ==> cryptoData[k].currentPrice >= 0.0
    ensures Contribution(asset, cryptoData) >= 0.0
  {
    if Priced(cryptoData, asset.id) {
      var c := Find(cryptoData, asset.id).value;
      assert c in cryptoData;
      assert c.currentPrice >= 0.0;
    }
  }

  /** Which of the two database writes of an add fail, if any. */
  datatype WriteOutcome = BothSucceed | HoldingWriteFails | TransactionWriteFails

  /** The amount a holding has after buying `amount` more of it. */
  function NewAmount(holdings: map<string, PortfolioAsset>, id: string, amount: real): (r: real)
    ensures id in holdings ==> r == holdings[id].amount + amount
    ensures id !in holdings ==> r == amount
  {
    if id in holdings then holdings[id].amount + amount else amount
  }

  class PortfolioStore {
    /** The hook's `userId` argument. */
    const userId: Option<string>
    /** The `users/{userId}/portfolio` collection: one document per asset id. */
    var holdings: map<string, PortfolioAsset>
    /** The `users/{userId}/transactions` collection, in the order the documents were added. */
    var transactions: seq<Transaction>
    var totalValue: real
    var loading: bool

    constructor (userId: Option<string>, holdings: map<string, PortfolioAsset>, transactions: seq<Transaction>)
      ensures this.userId == userId && this.holdings == holdings && this.transactions == transactions
      ensures totalValue == 0.0 && loading
    {
      this.userId := userId;
      this.holdings := holdings;
      this.transactions := transactions;
      totalValue := 0.0;
      loading := true;
    }

    /** The subscription effect: without a user there is nothing to load. */
    method Subscribe()
      modifies this
      ensures userId.None? || userId.value == "" ==> !loading
      ensures userId.Some? && userId.value != "" ==> loading == old(loading)
      ensures holdings == old(holdings) && transactions == old(transactions) && totalValue == old(totalValue)
    {
      if userId.None? || userId.value == "" {
        loading := false;
      }
    }

    /** The first portfolio snapshot ends loading. */
    method OnPortfolioSnapshot()
      modifies this
      ensures !loading
      ensures holdings == old(holdings) && transactions == old(transactions) && totalValue == old(totalValue)
    {
      loading := false;
    }

    /** `calculateTotalValue(portfolioData, cryptoData)`: walks the holdings, adding each priced one. */
    method CalculateTotalValue(portfolioData: seq<PortfolioAsset>, cryptoData: seq<CryptoAsset>)
      modifies this
      ensures totalValue == TotalValue(portfolioData, cryptoData)
      ensures holdings == old(holdings) && transactions == old(transactions) && loading == old(loading)
    {
      var total := 0.0;
      var i := 0;
      while i < |portfolioData|
        invariant 0 <= i <= |portfolioData|
        invariant total == TotalValue(portfolioData[..i], cryptoData)
      {
        var asset := portfolioData[i];
        var found := Find(cryptoData, asset.id);
        if found.Some? {
          total := total + asset.amount * found.value.currentPrice;
        }
        assert portfolioData[..i + 1][..i] == portfolioData[..i];
        i := i + 1;
      }
      assert portfolioData[..i] == portfolioData;
      totalValue := total;
    }

    predicate SignedIn()
      reads this
    {
      userId.Some? && userId.value != ""
    }

    /** `addTransaction(tx)`: appends the record under the id the database assigns. */
    method AddTransaction(tx: Transaction, fails: bool)
      modifies this
      ensures SignedIn() && !fails ==> transactions == old(transactions) + [tx]
      ensures !SignedIn() || fails ==> transactions == old(transactions)
      ensures holdings == old(holdings) && totalValue == old(totalValue) && loading == old(loading)
    {
      if SignedIn() && !fails {
        transactions := transactions + [tx];
      }
    }

    /**
     * `addToPortfolio(asset, amount)`: writes the holding with its new amount, then records a
     * purchase of `amount` at the current price. `txId` is the id the database gives the
     * transaction; `now` is the current time as written into the holding and in milliseconds.
     */
    method AddToPortfolio(asset: CryptoAsset, amount: real, now: string, nowMs: int, txId: string, outcome: WriteOutcome)
      modifies this
      ensures !SignedIn() || outcome == HoldingWriteFails ==>
                holdings == old(holdings) && transactions == old(transactions)
      ensures SignedIn() && outcome != HoldingWriteFails ==>
                holdings == old(holdings)[asset.id := PortfolioAsset(asset.id, asset.symbol, asset.name,
                                                                     NewAmount(old(holdings), asset.id, amount), now)]
      ensures SignedIn() && outcome == BothSucceed ==>
                transactions == old(transactions)
                  + [Transaction(txId, Buy, asset.id, asset.symbol, amount, asset.currentPrice, amount * asset.currentPrice, nowMs)]
      ensures SignedIn() && outcome == TransactionWriteFails ==> transactions == old(transactions)
      ensures totalValue == old(totalValue) && loading == old(loading)
    {
      if !SignedIn() {
        return;
      }
      if outcome == HoldingWriteFails {
        return;
      }
      var newAmount := if asset.id in holdings then holdings[asset.id].amount + amount else amount;
      holdings := holdings[asset.id := PortfolioAsset(asset.id, asset.symbol, asset.name, newAmount, now)];
      var tx := Transaction(txId, Buy, asset.id, asset.symbol, amount, asset.currentPrice, amount * asset.currentPrice, nowMs);
      AddTransaction(tx, outcome == TransactionWriteFails);
    }

    /** `removeFromPortfolio(assetId)`: deletes that holding's document. */
    method RemoveFromPortfolio(assetId: string, fails: bool)
      modifies this
      ensures SignedIn() && !fails ==> holdings == old(holdings) - {assetId}
      ensures !SignedIn() || fails ==> holdings == old(holdings)
      ensures transactions == old(transactions) && totalValue == old(totalValue) && loading == old(loading)
    {
      if SignedIn() && !fails {
        holdings := holdings - {assetId};
      }
    }

    /** The transactions as the hook reads them: newest first. */
    function ReadTransactions(): (r: seq<Transaction>)
      reads this
      ensures ArraySort.Ordered(r, Timestamp, true)
      ensures multiset(r) == multiset(transactions)
    {
      ArraySort.SortByOrdered(transactions, Timestamp, true);
      ArraySort.SortBy(transactions, Timestamp, true)
    }
  }

  function Timestamp(t: Transaction): real {
    t.timestamp as real
  }

  /** Adding an asset already held adds to its amount; any other holding is untouched. */
  lemma {:induction false} AddUpsertsOneHolding(holdings: map<string, PortfolioAsset>, asset: CryptoAsset, amount: real, now: string, other: string)
    requires other != asset.id
    ensures var after := holdings[asset.id := PortfolioAsset(asset.id, asset.symbol, asset.name, NewAmount(holdings, asset.id, amount), now)];
            && after[asset.id].amount == (if asset.id in holdings then holdings[asset.id].amount else 0.0) + amount
            && (other in after <==> other in holdings)
            && (other in holdings ==> after[other] == holdings[other])
  {
  }

  /** Two purchases of the same asset leave one holding whose amount is their sum. */
  lemma {:induction false} TwoPurchasesAccumulate(holdings: map<string, PortfolioAsset>, asset: CryptoAsset, a1: real, a2: real, t1: string, t2: string)
    requires asset.id !in holdings
    ensures var h1 := holdings[asset.id := PortfolioAsset(asset.id, asset.symbol, asset.name, NewAmount(holdings, asset.id, a1), t1)];
            var h2 := h1[asset.id := PortfolioAsset(asset.id, asset.symbol, asset.name, NewAmount(h1, asset.id, a2), t2)];
            h2[asset.id].amount == a1 + a2 && h2.Keys == holdings.Keys + {asset.id}
  {
  }
}
