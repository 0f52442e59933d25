/**
 * The record shapes of the dashboard (types/crypto.ts), restricted to the fields the modelled
 * code reads, and the `find`-by-id lookup every component uses to join a holding to its price.
 */
module CryptoTypes {
  import opened Options

  /** A market-data entry. Prices, capitalisation and percentages are exact reals. */
  datatype CryptoAsset = CryptoAsset(
    id: string,
    symbol: string,
    name: string,
    currentPrice: real,
    marketCap: real,
    priceChangePercentage24h: real)

  /** One holding of the signed-in user. */
  datatype PortfolioAsset = PortfolioAsset(
    id: string,
    symbol: string,
    name: string,
    amount: real,
    addedAt: string)

  datatype TransactionType = Buy | Sell

  /** A transaction record; `timestamp` is the instant it names, in milliseconds. */
  datatype Transaction = Transaction(
    id: string,
    kind: TransactionType,
    assetId: string,
    symbol: string,
    amount: real,
    price: real,
    total: real,
    timestamp: int)

  datatype Condition = Above | Below

  datatype PriceAlert = PriceAlert(
    id: string,
    assetId: string,
    symbol: string,
    targetPrice: real,
    condition: Condition,
    isActive: bool,
    createdAt: string,
    triggeredAt: Option<string>)

  /** `cryptoData.find(c => c.id === id)`: the first entry with that id, if any. */
  function Find(cryptoData: seq<CryptoAsset>, id: string): (r: Option<CryptoAsset>)
    ensures r.None? <==> forall k :: 0 <= k < |cryptoData| ==> cryptoData[k].id != id
    ensures r.Some? ==> r.value in cryptoData && r.value.id == id
    ensures r.Some? ==> exists k :: 0 <= k < |cryptoData| && cryptoData[k] == r.value
                                   && forall m :: 0 <= m < k ==> cryptoData[m].id != id
  {
    if cryptoData == [] then None
    else if cryptoData[0].id == id then Some(cryptoData[0])
    else
      var r := Find(cryptoData[1..], id);
      assert r.Some? ==> exists k :: 0 <= k < |cryptoData[1..]| && cryptoData[1..][k] == r.value
                                   && forall m :: 0 <= m < k ==> cryptoData[1..][m].id != id;
      r
  }

  /** Whether a holding has a price entry to be valued against. */
  predicate Priced(cryptoData: seq<CryptoAsset>, id: string) {
    Find(cryptoData, id).Some?
  }
}
