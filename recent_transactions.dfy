/**
 * The transaction list (components/crypto/RecentTransactions.tsx): the empty state, the first
 * five transactions or all of them, the "View All" and "Load More" buttons, and each row's
 * verb and sign.
 */
module RecentTransactions {
  import opened CryptoTypes
  import opened JsString

  const PreviewCount: nat := 5
  const LoadMoreAfter: nat := 10

  /** One rendered row: "Bought BTC" or "Sold BTC", then the signed total. */
  datatype Row = Row(verb: string, symbol: string, sign: char, total: real)

  datatype View =
    | EmptyState(filterButton: bool)
    | Listing(title: string, filterButton: bool, viewAll: bool, rows: seq<Row>, loadMore: bool)

  /** `transaction.type === 'buy' ? 'Bought' : 'Sold'`. */
  function Verb(kind: TransactionType): string {
    if kind == Buy then "Bought" else "Sold"
  }

  /** `transaction.type === 'buy' ? '-' : '+'`: money leaves on a purchase and arrives on a sale. */
  function Sign(kind: TransactionType): char {
    if kind == Buy then '-' else '+'
  }

  function RowOf(t: Transaction): (r: Row)
    ensures r.symbol == ToUpper(t.symbol) && r.total == t.total
    ensures t.kind == Buy ==> r.verb == "Bought" && r.sign == '-'
    ensures t.kind == Sell ==> r.verb == "Sold" && r.sign == '+'
  {
    Row(Verb(t.kind), ToUpper(t.symbol), Sign(t.kind), t.total)
  }

  /** `showAll ? transactions : transactions.slice(0, 5)`. */
  function DisplayTransactions(transactions: seq<Transaction>, showAll: bool): (r: seq<Transaction>)
    ensures showAll ==> r == transactions
    ensures !showAll ==> |r| == (if |transactions| < PreviewCount then |transactions| else PreviewCount)
    ensures r == transactions[..|r|]
  {
    if showAll || |transactions| <= PreviewCount then transactions else transactions[..PreviewCount]
  }

  /** The component's output for a list of transactions and the `showAll` flag. */
  function Render(transactions: seq<Transaction>, showAll: bool): View {
    if |transactions| == 0 then EmptyState(showAll)
    else
      var shown := DisplayTransactions(transactions, showAll);
      Listing(if showAll then "All Transactions" else "Recent Transactions",
              showAll,
              !showAll && |transactions| > PreviewCount,
              seq(|shown|, i requires 0 <= i < |shown| => RowOf(shown[i])),
              showAll && |transactions| > LoadMoreAfter)
  }

  /** An empty list always shows the empty state, and only an empty list does. */
  lemma {:induction false} EmptyStateIffNoTransactions(transactions: seq<Transaction>, showAll: bool)
    ensures Render(transactions, showAll).EmptyState? <==> transactions == []
  {
  }

  /**
   * A listing shows the rows of the first `min(5, n)` transactions (all of them with `showAll`)
   * in order, and "View All" appears exactly when that preview hides some transaction.
   */
  lemma {:induction false} ListingRows(transactions: seq<Transaction>, showAll: bool)
    requires transactions != []
    ensures var v := Render(transactions, showAll);
            && v.Listing?
            && |v.rows| == (if showAll || |transactions| < PreviewCount then |transactions| else PreviewCount)
            && (forall i :: 0 <= i < |v.rows| ==> v.rows[i] == RowOf(transactions[i]))
            && (v.viewAll <==> !showAll && |v.rows| < |transactions|)
  {
  }

  /**
   * A listing shows "Load More" exactly in the full list of more than ten transactions, and
   * never together with "View All".
   */
  lemma {:induction false} LoadMoreOnlyInFullList(transactions: seq<Transaction>, showAll: bool)
    requires transactions != []
    ensures Render(transactions, showAll).Listing?
    ensures Render(transactions, showAll).loadMore <==> showAll && |transactions| > LoadMoreAfter
    ensures Render(transactions, showAll).loadMore ==> !Render(transactions, showAll).viewAll
  {
  }
}
