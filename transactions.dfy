/** The transaction history page (src/pages/Transactions.tsx): the type
    filter over the fetched records, which arrive newest first, and the
    sign shown in front of each amount. */
module Transactions {
  import opened Sequences
  import opened Settlement

  /** The filter buttons: 'all', 'BUY' and 'SELL'. */
  datatype TxFilter = All | Only(txType: TxType)

  /** `filteredTransactions`. */
  function FilteredTransactions(txs: seq<Tx>, filter: TxFilter): (r: seq<Tx>)
    ensures filter == All ==> r == txs
    ensures filter.Only? ==> forall tx :: tx in r <==> tx in txs && tx.txType == filter.txType
    ensures |r| <= |txs|
  {
    if filter == All then txs
    else Filter(txs, (tx: Tx) => tx.txType == filter.txType)
  }

  /** The filter keeps the fetched order: filtering a list split in two
      filters each part. */
  lemma FilteredKeepsOrder(a: seq<Tx>, b: seq<Tx>, filter: TxFilter)
    ensures FilteredTransactions(a + b, filter) == FilteredTransactions(a, filter) + FilteredTransactions(b, filter)
  {
    if filter.Only? {
      FilterAppend(a, b, (tx: Tx) => tx.txType == filter.txType);
    }
  }

  /** A kept record appears as often as in the full list. */
  lemma FilteredKeepsDuplicates(txs: seq<Tx>, t: TxType, tx: Tx)
    requires tx.txType == t
    ensures multiset(FilteredTransactions(txs, Only(t)))[tx] == multiset(txs)[tx]
  {
    FilterMultiplicity(txs, (x: Tx) => x.txType == t, tx);
  }

  /** Every record is either a purchase or a sale. */
  lemma BuysAndSellsPartition(txs: seq<Tx>)
    ensures |FilteredTransactions(txs, Only(BUY))| + |FilteredTransactions(txs, Only(SELL))| == |txs|
  {
    FilterComplement(txs, (tx: Tx) => tx.txType == Only(BUY).txType, (tx: Tx) => tx.txType == Only(SELL).txType);
  }

  /** The sign in front of the amount. */
  function AmountSign(t: TxType): char
  {
    if t == BUY then '-' else '+'
  }

  /** The amount as displayed, the sign applied to the total. */
  function DisplayedAmount(tx: Tx): (amount: real)
    ensures tx.txType == BUY ==> amount == -tx.totalAmount
    ensures tx.txType == SELL ==> amount == tx.totalAmount
  {
    if AmountSign(tx.txType) == '-' then -tx.totalAmount else tx.totalAmount
  }

  /** The sign shows the direction in which the trade moved the cash:
      the displayed amount is the record's effect on the balance. */
  lemma SignIsCashDirection(tx: Tx)
    ensures DisplayedAmount(tx) == CashDelta(tx)
    ensures AmountSign(tx.txType) == '-' <==> tx.txType == BUY
  {
  }
}
