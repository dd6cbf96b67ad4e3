/** The transaction list of src/pages/Transactions.jsx: money in, money out
    and the sign and label shown for each kind. */
module Transactions {
  import opened Common
  import opened WalletContext
  import Reports

  datatype Totals = Totals(moneyIn: real, moneyOut: real, netFlow: real, totalTransactions: nat)

  /** `tx => tx.type === 'customer_deposit' || tx.type === 'withdrawal'`. */
  function IsOutgoing(): Tx -> bool
  {
    (t: Tx) => t.kind == DepositKind || t.kind == WithdrawalKind
  }

  /** `calculateTotals` (lines 116-133). */
  function CalculateTotals(txs: seq<Tx>): Totals
  {
    var moneyIn := SumBy(Filter(txs, IsKind(TopUpKind)), TxAmount);
    var moneyOut := SumBy(Filter(txs, IsOutgoing()), TxAmount);
    Totals(moneyIn, moneyOut, moneyIn - moneyOut, |txs|)
  }

  /** Summing over both outgoing kinds at once is the sum of their totals. */
  lemma {:induction false} OutgoingIsTotal(txs: seq<Tx>)
    ensures SumBy(Filter(txs, IsOutgoing()), TxAmount) == TotalOf(txs, DepositKind) + TotalOf(txs, WithdrawalKind)
  {
    if txs != [] {
      OutgoingIsTotal(txs[1..]);
      var head := if IsOutgoing()(txs[0]) then [txs[0]] else [];
      SumByAppend(head, Filter(txs[1..], IsOutgoing()), TxAmount);
    }
  }

  /** Money in is the top-up total, money out the deposit and withdrawal
      totals, net flow their difference, and every record is counted. */
  lemma TotalsByKind(txs: seq<Tx>)
    ensures var r := CalculateTotals(txs);
      r.moneyIn == TotalOf(txs, TopUpKind)
      && r.moneyOut == TotalOf(txs, DepositKind) + TotalOf(txs, WithdrawalKind)
      && r.netFlow == r.moneyIn - r.moneyOut
      && r.totalTransactions == |txs|
  {
    FilterSumIsTotal(txs, TopUpKind);
    OutgoingIsTotal(txs);
  }

  /** Over one day's records, the page's net flow is the daily statement's
      closing minus opening balance. */
  lemma NetFlowIsDailyMovement(txs: seq<Tx>, customers: seq<Customer>, walletBalance: real)
    ensures var stats := Reports.CalculateDailyStats(txs, customers, walletBalance);
      CalculateTotals(txs).netFlow == stats.closingBalance - stats.openingBalance
      && CalculateTotals(txs).moneyOut == stats.totalCustomerDeposits + stats.totalWithdrawals
  {
    TotalsByKind(txs);
    Reports.StatsAreKindTotals(txs, customers, walletBalance);
  }

  /** `getAmountSign` (lines 103-113). */
  function AmountSign(kind: string): (r: string)
    ensures r == "+" <==> kind == TopUpKind
    ensures r == "-" <==> kind == DepositKind || kind == WithdrawalKind
    ensures r == "" <==> kind != TopUpKind && kind != DepositKind && kind != WithdrawalKind
  {
    if kind == TopUpKind then "+"
    else if kind == DepositKind || kind == WithdrawalKind then "-"
    else ""
  }

  /** The sign agrees with the totals: "+" exactly on what counts as money in,
      "-" exactly on what counts as money out. */
  lemma SignMatchesTotals(t: Tx)
    ensures AmountSign(t.kind) == "+" <==> IsKind(TopUpKind)(t)
    ensures AmountSign(t.kind) == "-" <==> IsOutgoing()(t)
  {
  }

  /** `getTransactionLabel` (lines 54-65). */
  function TransactionLabel(kind: string): (r: string)
    ensures kind == TopUpKind ==> r == "Money In (Top-up)"
    ensures kind == DepositKind ==> r == "Money Out (Customer Deposit)"
    ensures kind == WithdrawalKind ==> r == "Money Out (Withdrawal)"
    ensures r == kind <==> kind != TopUpKind && kind != DepositKind && kind != WithdrawalKind
  {
    if kind == TopUpKind then "Money In (Top-up)"
    else if kind == DepositKind then "Money Out (Customer Deposit)"
    else if kind == WithdrawalKind then "Money Out (Withdrawal)"
    else kind
  }
}
