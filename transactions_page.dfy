/**
 * The wallet transactions page (app/dashboard/transactions/page.tsx): the six sample
 * transfers, the case-insensitive search over asset, description, sender and recipient,
 * and the per-row sign, counterparty and status label.
 */
module TransactionsPage {
  import opened JsString
  import opened SeqFilter

  datatype Direction = Received | Sent

  datatype Transfer = Transfer(
    id: int,
    kind: Direction,
    asset: string,
    symbol: string,
    amount: real,
    value: real,
    from: string,
    to: string,
    date: string,
    status: string,
    description: string)

  /** The page's placeholder data. */
  const SampleTransfers: seq<Transfer> := [
    Transfer(1, Received, "Bitcoin", "BTC", 0.025, 1250.0, "Alex Johnson", "Your Wallet",
             "2023-06-15T10:30:00", "completed", "Payment for design work"),
    Transfer(2, Sent, "Ethereum", "ETH", 0.5, 1400.0, "Your Wallet", "Marketplace",
             "2023-06-14T15:45:00", "completed", "NFT Purchase"),
    Transfer(3, Received, "Solana", "SOL", 5.0, 550.0, "Trading Bot", "Your Wallet",
             "2023-06-12T09:15:00", "completed", "Trading profit"),
    Transfer(4, Sent, "Bitcoin", "BTC", 0.01, 500.0, "Your Wallet", "Sarah Williams",
             "2023-06-10T18:20:00", "completed", "Dinner split"),
    Transfer(5, Received, "Cardano", "ADA", 100.0, 90.0, "Staking Rewards", "Your Wallet",
             "2023-06-08T00:00:00", "completed", "Staking reward"),
    Transfer(6, Sent, "Ethereum", "ETH", 0.2, 560.0, "Your Wallet", "DeFi Protocol",
             "2023-06-05T14:30:00", "pending", "Liquidity provision")
  ]

  /** The search: the query, lower-cased, occurs in the asset, description, sender or recipient. */
  predicate MatchesQuery(tx: Transfer, query: string) {
    || MatchesIgnoringCase(tx.asset, query)
    || MatchesIgnoringCase(tx.description, query)
    || MatchesIgnoringCase(tx.from, query)
    || MatchesIgnoringCase(tx.to, query)
  }

  /** `filteredTransactions`. */
  function FilteredTransactions(transactions: seq<Transfer>, query: string): seq<Transfer> {
    Filter(transactions, (tx: Transfer) => MatchesQuery(tx, query))
  }

  /** A row is shown iff it is one of the transactions and matches the query. */
  lemma {:induction false} FilteredMembers(transactions: seq<Transfer>, query: string, tx: Transfer)
    ensures tx in FilteredTransactions(transactions, query) <==> tx in transactions && MatchesQuery(tx, query)
  {
    FilterMembers(transactions, (t: Transfer) => MatchesQuery(t, query), tx);
  }

  /** The empty query shows every row, in the original order. */
  lemma {:induction false} EmptyQueryShowsAll(transactions: seq<Transfer>)
    ensures FilteredTransactions(transactions, "") == transactions
  {
    forall i | 0 <= i < |transactions|
      ensures MatchesQuery(transactions[i], "")
    {
      EmptyQueryMatches(transactions[i].asset);
    }
    FilterKeepsAll(transactions, (t: Transfer) => MatchesQuery(t, ""));
  }

  /** Filtering keeps the relative order: the rows of two runs of transactions stay in sequence. */
  lemma {:induction false} FilterKeepsOrder(a: seq<Transfer>, b: seq<Transfer>, query: string)
    ensures FilteredTransactions(a + b, query) == FilteredTransactions(a, query) + FilteredTransactions(b, query)
  {
    FilterAppend(a, b, (t: Transfer) => MatchesQuery(t, query));
  }

  /** The symbol is not searched: transfers that differ only in symbol (and figures) match the same queries. */
  lemma {:induction false} SymbolIsNotSearched(x: Transfer, y: Transfer, query: string)
    requires x.asset == y.asset && x.description == y.description && x.from == y.from && x.to == y.to
    ensures MatchesQuery(x, query) <==> MatchesQuery(y, query)
  {
  }

  /** "No transactions found matching your search." shows iff no transaction matches. */
  lemma {:induction false} NoMatchMessage(transactions: seq<Transfer>, query: string)
    ensures FilteredTransactions(transactions, query) == []
        <==> forall i :: 0 <= i < |transactions| ==> !MatchesQuery(transactions[i], query)
  {
    FilterEmpty(transactions, (t: Transfer) => MatchesQuery(t, query));
  }

  /** `tx.type === 'received' ? '+' : '-'`. */
  function AmountSign(tx: Transfer): (c: char)
    ensures c == '+' <==> tx.kind == Received
    ensures c == '+' || c == '-'
  {
    if tx.kind == Received then '+' else '-'
  }

  /** The sender for money received, the recipient for money sent. */
  function Counterparty(tx: Transfer): (r: string)
    ensures tx.kind == Received ==> r == "From: " + tx.from
    ensures tx.kind == Sent ==> r == "To: " + tx.to
  {
    (if tx.kind == Received then "From: " else "To: ") + (if tx.kind == Received then tx.from else tx.to)
  }

  /** `status.charAt(0).toUpperCase() + status.slice(1)`. */
  function StatusLabel(status: string): (r: string)
    ensures |r| == |status|
    ensures status != [] ==> r[0] == UpperChar(status[0]) && r[1..] == status[1..]
  {
    if status == [] then [] else ToUpper(status[..1]) + status[1..]
  }

  /** A lower-case word is shown with a capital letter and is otherwise unchanged. */
  lemma {:induction false} StatusLabelCapitalises(status: string)
    requires status != [] && 'a' <= status[0] <= 'z'
    ensures 'A' <= StatusLabel(status)[0] <= 'Z'
    ensures StatusLabel(status)[0] as int == status[0] as int - 32 && StatusLabel(status)[1..] == status[1..]
  {
  }
}
