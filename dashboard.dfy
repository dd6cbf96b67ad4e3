/** The overview figures of src/pages/Dashboard.jsx: the day's income and
    expense accumulated over the day's records, and the record counts. */
module Dashboard {
  import opened Common
  import opened WalletContext
  import Transactions

  /** The kind the expense loop tests for as written (line 58). */
  const PaymentKind := "customer_payment"

  /** The kinds the ledger writes as money out, which the expense figure is
      evidently meant to add up. */
  const OutgoingKinds: set<string> := {DepositKind, WithdrawalKind}

  /** The reference expense: amounts of the records whose kind is one of
      `kinds`, a top-up never counting (the loop tests for it first). */
  function ExpenseOf(txs: seq<Tx>, kinds: set<string>): real
  {
    if txs == [] then 0.0
    else (if txs[0].kind != TopUpKind && txs[0].kind in kinds then TxAmount(txs[0]) else 0.0) + ExpenseOf(txs[1..], kinds)
  }

  lemma {:induction false} ExpenseOfAppend(a: seq<Tx>, b: seq<Tx>, kinds: set<string>)
    ensures ExpenseOf(a + b, kinds) == ExpenseOf(a, kinds) + ExpenseOf(b, kinds)
  {
    if a == [] {
      assert a + b == b;
    } else {
      assert (a + b)[1..] == a[1..] + b;
      ExpenseOfAppend(a[1..], b, kinds);
    }
  }

  /** The `forEach` of lines 52-61 over the day's records, which may be null:
      top-ups go to income, records of an expense kind to expense. */
  method AccumulateToday(data: Option<seq<Tx>>, expenseKinds: set<string>) returns (income: real, expense: real)
    ensures data.None? ==> income == 0.0 && expense == 0.0
    ensures data.Some? ==> income == TotalOf(data.value, TopUpKind) && expense == ExpenseOf(data.value, expenseKinds)
  {
    income, expense := 0.0, 0.0;
    if data.None? {
      return;
    }
    var txs := data.value;
    var i := 0;
    while i < |txs|
      invariant 0 <= i <= |txs|
      invariant income == TotalOf(txs[..i], TopUpKind)
      invariant expense == ExpenseOf(txs[..i], expenseKinds)
    {
      var t := txs[i];
      TotalOfAppend(txs[..i], [t], TopUpKind);
      ExpenseOfAppend(txs[..i], [t], expenseKinds);
      assert txs[..i + 1] == txs[..i] + [t];
      if t.kind == TopUpKind {
        income := income + TxAmount(t);
      } else if t.kind in expenseKinds {
        expense := expense + TxAmount(t);
      }
      i := i + 1;
    }
    assert txs[..i] == txs;
  }

  /** Records of the kinds the ledger writes: top-ups and customer deposits. */
  predicate LedgerWritten(txs: seq<Tx>)
  {
    forall i :: 0 <= i < |txs| ==> txs[i].kind == TopUpKind || txs[i].kind == DepositKind
  }

  /** As written the expense adds up `customer_payment` records, and the
      ledger writes none: over anything it wrote, the expense is 0. */
  lemma {:induction false} ExpenseAsWrittenIsZero(txs: seq<Tx>)
    requires LedgerWritten(txs)
    ensures ExpenseOf(txs, {PaymentKind}) == 0.0
  {
    if txs != [] {
      assert txs[0].kind != PaymentKind;
      assert LedgerWritten(txs[1..]) by {
        assert forall i :: 1 <= i < |txs| ==> txs[1..][i - 1] == txs[i];
      }
      ExpenseAsWrittenIsZero(txs[1..]);
    }
  }

  /** One customer deposit of 5 shows an expense of 0 as written and of 5
      when the expense counts the outgoing kinds. */
  lemma ExpenseCounterexample()
    ensures ExpenseOf([DepositRecord(5.0, None)], {PaymentKind}) == 0.0
    ensures ExpenseOf([DepositRecord(5.0, None)], OutgoingKinds) == 5.0
  {
    var txs := [DepositRecord(5.0, None)];
    assert txs[1..] == [];
  }

  /** Counting the outgoing kinds, the day's expense is the transactions
      page's money out and the income its money in. */
  lemma {:induction false} ExpenseIsMoneyOut(txs: seq<Tx>)
    ensures ExpenseOf(txs, OutgoingKinds) == Transactions.CalculateTotals(txs).moneyOut
    ensures TotalOf(txs, TopUpKind) == Transactions.CalculateTotals(txs).moneyIn
  {
    Transactions.TotalsByKind(txs);
    OutgoingSplit(txs);
  }

  lemma {:induction false} OutgoingSplit(txs: seq<Tx>)
    ensures ExpenseOf(txs, OutgoingKinds) == TotalOf(txs, DepositKind) + TotalOf(txs, WithdrawalKind)
  {
    if txs != [] {
      OutgoingSplit(txs[1..]);
    }
  }

  datatype DashboardStats = DashboardStats(totalCustomers: nat, totalTransactions: nat, todayIncome: real, todayExpense: real)

  /** `count || 0` for a head-only count that may come back null. */
  function CountOr0(count: Option<nat>): (r: nat)
    ensures count.None? ==> r == 0
    ensures count.Some? ==> r == count.value
  {
    if count.Some? then count.value else 0
  }

  /** The statistics of lines 35-68, with the expense over the outgoing kinds. */
  method FetchStats(customerCount: Option<nat>, transactionCount: Option<nat>, today: Option<seq<Tx>>)
    returns (stats: DashboardStats)
    ensures stats.totalCustomers == CountOr0(customerCount)
    ensures stats.totalTransactions == CountOr0(transactionCount)
    ensures today.None? ==> stats.todayIncome == 0.0 && stats.todayExpense == 0.0
    ensures today.Some? ==>
      stats.todayIncome == Transactions.CalculateTotals(today.value).moneyIn
      && stats.todayExpense == Transactions.CalculateTotals(today.value).moneyOut
  {
    var income, expense := AccumulateToday(today, OutgoingKinds);
    if today.Some? {
      ExpenseIsMoneyOut(today.value);
    }
    stats := DashboardStats(CountOr0(customerCount), CountOr0(transactionCount), income, expense);
  }
}
