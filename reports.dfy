/** The daily statement of src/pages/Reports.jsx: the day's totals per
    transaction kind, the balance at the start of the day worked back from the
    current one, and the one-row CSV export. */
module Reports {
  import opened Common
  import opened Text
  import opened WalletContext

  datatype DailyStats = DailyStats(
    totalTopup: real,
    totalCustomerDeposits: real,
    totalWithdrawals: real,
    transactionCount: nat,
    customerCount: nat,
    openingBalance: real,
    closingBalance: real,
    totalDeposits: real)

  /** `customer.amount || 0`. */
  function CustomerAmount(c: Customer): real { AmountOr0(c.amount) }

  /** `customers.reduce((sum, c) => sum + (c.amount || 0), 0)`. */
  function DepositsHeld(customers: seq<Customer>): real
  {
    SumBy(customers, CustomerAmount)
  }

  /** `calculateDailyStats` (lines 82-118) over the day's transactions, all
      customers and the stored balance. */
  function CalculateDailyStats(txs: seq<Tx>, customers: seq<Customer>, walletBalance: real): DailyStats
  {
    if |txs| == 0 then
      DailyStats(0.0, 0.0, 0.0, 0, |customers|, walletBalance, walletBalance, DepositsHeld(customers))
    else
      var totalTopup := SumBy(Filter(txs, IsKind(TopUpKind)), TxAmount);
      var totalCustomerDeposits := SumBy(Filter(txs, IsKind(DepositKind)), TxAmount);
      var totalWithdrawals := SumBy(Filter(txs, IsKind(WithdrawalKind)), TxAmount);
      DailyStats(totalTopup, totalCustomerDeposits, totalWithdrawals, |txs|, |customers|,
        walletBalance + totalCustomerDeposits + totalWithdrawals - totalTopup, walletBalance,
        DepositsHeld(customers))
  }

  /** The three totals are the per-kind totals of the day, and the closing
      balance is the current one, with or without transactions. */
  lemma StatsAreKindTotals(txs: seq<Tx>, customers: seq<Customer>, walletBalance: real)
    ensures var r := CalculateDailyStats(txs, customers, walletBalance);
      r.totalTopup == TotalOf(txs, TopUpKind)
      && r.totalCustomerDeposits == TotalOf(txs, DepositKind)
      && r.totalWithdrawals == TotalOf(txs, WithdrawalKind)
      && r.transactionCount == |txs| && r.customerCount == |customers|
      && r.closingBalance == walletBalance
  {
    FilterSumIsTotal(txs, TopUpKind);
    FilterSumIsTotal(txs, DepositKind);
    FilterSumIsTotal(txs, WithdrawalKind);
  }

  /** A day without transactions opens and closes at the current balance. */
  lemma EmptyDay(customers: seq<Customer>, walletBalance: real)
    ensures var r := CalculateDailyStats([], customers, walletBalance);
      r.openingBalance == r.closingBalance == walletBalance
      && r.totalTopup == r.totalCustomerDeposits == r.totalWithdrawals == 0.0
      && r.transactionCount == 0
  {
  }

  /** The day's "Net Movement" (line 265) is the closing balance minus the
      opening balance. */
  lemma NetMovement(txs: seq<Tx>, customers: seq<Customer>, walletBalance: real)
    ensures var r := CalculateDailyStats(txs, customers, walletBalance);
      r.closingBalance - r.openingBalance == r.totalTopup - r.totalCustomerDeposits - r.totalWithdrawals
  {
  }

  /** A transaction of any other kind (a refund, say) adds to the count and to
      none of the totals. */
  lemma OtherKindOnlyCounted(txs: seq<Tx>, t: Tx, customers: seq<Customer>, walletBalance: real)
    requires t.kind != TopUpKind && t.kind != DepositKind && t.kind != WithdrawalKind
    ensures var before := CalculateDailyStats(txs, customers, walletBalance);
      CalculateDailyStats(txs + [t], customers, walletBalance)
        == before.(transactionCount := |txs| + 1)
  {
    StatsFromTotals(txs, customers, walletBalance);
    StatsFromTotals(txs + [t], customers, walletBalance);
    OtherKindAddsNothing(txs, t, TopUpKind);
    OtherKindAddsNothing(txs, t, DepositKind);
    OtherKindAddsNothing(txs, t, WithdrawalKind);
  }

  /** The day's figures written out from the per-kind totals. */
  lemma StatsFromTotals(txs: seq<Tx>, customers: seq<Customer>, walletBalance: real)
    ensures var topup, deposits, withdrawals := TotalOf(txs, TopUpKind), TotalOf(txs, DepositKind), TotalOf(txs, WithdrawalKind);
      CalculateDailyStats(txs, customers, walletBalance)
        == DailyStats(topup, deposits, withdrawals, |txs|, |customers|,
             walletBalance + deposits + withdrawals - topup, walletBalance, DepositsHeld(customers))
  {
    StatsAreKindTotals(txs, customers, walletBalance);
  }

  lemma OtherKindAddsNothing(txs: seq<Tx>, t: Tx, kind: string)
    requires t.kind != kind
    ensures TotalOf(txs + [t], kind) == TotalOf(txs, kind)
  {
    TotalOfAppend(txs, [t], kind);
    var one: seq<Tx> := [t];
    assert one[1..] == [];
  }

  /** Each customer adds its amount, a missing one adding nothing. */
  lemma {:induction false} DepositsHeldAppend(customers: seq<Customer>, c: Customer)
    ensures DepositsHeld(customers + [c]) == DepositsHeld(customers) + AmountOr0(c.amount)
  {
    SumByAppend(customers, [c], CustomerAmount);
    var one: seq<Customer> := [c];
    assert one[1..] == [];
  }

  /** `getTransactionTypeLabel` (lines 128-139). */
  function TypeLabel(kind: string): (r: string)
    ensures kind == TopUpKind ==> r == "Wallet Top-up"
    ensures kind == DepositKind ==> r == "Customer Deposit"
    ensures kind == WithdrawalKind ==> r == "Withdrawal"
    ensures r == kind <==> kind != TopUpKind && kind != DepositKind && kind != WithdrawalKind
  {
    if kind == TopUpKind then "Wallet Top-up"
    else if kind == DepositKind then "Customer Deposit"
    else if kind == WithdrawalKind then "Withdrawal"
    else kind
  }

  // ------------------------------------------------------------ CSV export

  const Headers: seq<string> := ["Date", "Opening Balance", "Wallet Top-ups", "Customer Deposits",
    "Withdrawals", "Closing Balance", "Total Transactions", "Total Customers"]

  /** The data row of `generateCSVReport` (lines 587-596); `show` is
      JavaScript's rendering of a number as text. */
  function CsvRow(date: string, stats: DailyStats, show: real -> string): (r: seq<string>)
    ensures |r| == |Headers|
  {
    [date, show(stats.openingBalance), show(stats.totalTopup), show(stats.totalCustomerDeposits),
     show(stats.totalWithdrawals), show(stats.closingBalance),
     NatText(stats.transactionCount), NatText(stats.customerCount)]
  }

  /** The file: the header line and the data row. */
  function CsvReport(date: string, stats: DailyStats, show: real -> string): string
  {
    Join([Join(Headers, ','), Join(CsvRow(date, stats, show), ',')], '\n')
  }

  lemma HeadersPlain()
    ensures forall i :: 0 <= i < |Headers| ==> Plain(Headers[i])
  {
  }

  lemma NatTextPlain(n: nat)
    ensures Plain(NatText(n))
  {
    var t := NatText(n);
    assert forall j :: 0 <= j < |t| ==> IsDigit(t[j]);
  }

  lemma RowPlain(date: string, stats: DailyStats, show: real -> string)
    requires Plain(date)
    requires forall x :: Plain(show(x))
    ensures forall i :: 0 <= i < |CsvRow(date, stats, show)| ==> Plain(CsvRow(date, stats, show)[i])
  {
    NatTextPlain(stats.transactionCount);
    NatTextPlain(stats.customerCount);
  }

  /** When the date and the rendered amounts hold no comma or line break, the
      file reads back as two lines, the 8 headers and 8 values in the same
      order. */
  lemma CsvReadsBack(date: string, stats: DailyStats, show: real -> string)
    requires Plain(date)
    requires forall x :: Plain(show(x))
    ensures var lines := Split(CsvReport(date, stats, show), '\n');
      |lines| == 2
      && Split(lines[0], ',') == Headers
      && Split(lines[1], ',') == CsvRow(date, stats, show)
  {
    var row := CsvRow(date, stats, show);
    CsvLines(date, stats, show);
    RowPlain(date, stats, show);
    HeadersPlain();
    SplitJoin(Headers, ',');
    SplitJoin(row, ',');
  }

  /** The file splits at line breaks into the header line and the row. */
  lemma CsvLines(date: string, stats: DailyStats, show: real -> string)
    requires Plain(date)
    requires forall x :: Plain(show(x))
    ensures Split(CsvReport(date, stats, show), '\n') == [Join(Headers, ','), Join(CsvRow(date, stats, show), ',')]
  {
    var row := CsvRow(date, stats, show);
    RowPlain(date, stats, show);
    HeadersPlain();
    JoinNoSep(Headers, ',', '\n');
    JoinNoSep(row, ',', '\n');
    SplitJoin([Join(Headers, ','), Join(row, ',')], '\n');
  }
}
