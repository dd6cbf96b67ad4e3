/** The dashboard's customer table of src/components/CustomerTable.jsx: its
    statistics over possibly null query data, its relative dates and its
    delete, which refreshes the list and the wallet balance. */
module CustomerTable {
  import opened Common
  import opened WalletContext
  import Customers

  const DeleteFailed := "Failed to delete customer"
  const LoadFailed := "Failed to load customers"

  datatype TableStats = TableStats(todayTotal: real, todayCount: nat, allTimeTotal: real, allTimeCount: nat)

  /** `calculateStats(customerData)` (lines 66-85); the data may be null. */
  function CalculateStats(data: Option<seq<Customer>>, startOfDay: int): TableStats
  {
    var today := if data.Some? then Filter(data.value, Customers.TodayFilter(startOfDay)) else [];
    TableStats(
      SumBy(today, Customers.Deposit),
      |today|,
      if data.Some? then SumBy(data.value, Customers.Deposit) else 0.0,
      if data.Some? then |data.value| else 0)
  }

  /** Null data gives all-zero statistics, and a list gives the same figures
      as the customers page: the same today test, the same sums. */
  lemma StatsAgreeWithPage(data: Option<seq<Customer>>, startOfDay: int)
    ensures data.None? ==> CalculateStats(data, startOfDay) == TableStats(0.0, 0, 0.0, 0)
    ensures data.Some? ==>
      var page := Customers.CalculateStats(data.value, startOfDay);
      var r := CalculateStats(data, startOfDay);
      r.todayTotal == page.todayTotal && r.todayCount == page.todayCount
      && r.allTimeTotal == page.allTotal && r.allTimeCount == page.allCount
  {
  }

  /** Today's count and total never exceed the all-time ones when no deposit
      is negative. */
  lemma TodayWithinAllTime(data: Option<seq<Customer>>, startOfDay: int)
    requires data.Some? ==> forall i :: 0 <= i < |data.value| ==> Customers.Deposit(data.value[i]) >= 0.0
    ensures var r := CalculateStats(data, startOfDay);
      r.todayCount <= r.allTimeCount && r.todayTotal <= r.allTimeTotal
  {
    if data.Some? {
      Customers.TodayWithinAll(data.value, startOfDay);
    }
  }

  /** `formatDate` (lines 148-169): the same buckets and wording as the
      customers page; after a week the locale's date text. */
  function FormatDate(diffMs: int, dateText: string): string
  {
    Customers.RelativeTime(diffMs, dateText)
  }

  /** What `handleDelete` reports in its alert. */
  datatype Notice = NoNotice | Deleted(name: string) | Failed

  class Table {
    var customers: seq<Customer>
    var stats: TableStats
    var error: string
    var loading: bool

    /** `fetchCustomers` (lines 33-64): rows replace the list and the
        statistics; an error sets the message and keeps the list. */
    method FetchCustomers(result: Customers.Fetched, startOfDay: int)
      modifies this
      ensures result.QueryFailed? ==> customers == old(customers) && stats == old(stats) && error == LoadFailed
      ensures result.Rows? ==>
        customers == Customers.RowsOr0(result.data) && stats == CalculateStats(result.data, startOfDay)
        && error == old(error)
      ensures !loading
    {
      loading := true;
      if result.QueryFailed? {
        error := LoadFailed;
      } else {
        customers := Customers.RowsOr0(result.data);
        stats := CalculateStats(result.data, startOfDay);
      }
      loading := false;
    }

    /** `handleDelete` (lines 110-132). Declining changes nothing; a delete
        that succeeds reloads the list and refreshes the balance, with no
        refund; one that fails refreshes nothing. */
    method HandleDelete(w: Wallet, id: Id, name: string, confirmed: bool, call: Call,
                        reload: Customers.Fetched, refresh: RefreshFaults, startOfDay: int)
      returns (notice: Notice)
      modifies this, w
      ensures !confirmed ==> notice == NoNotice && w.Snapshot() == old(w.Snapshot()) && Snapshot() == old(Snapshot())
      ensures confirmed && call.Fail? ==>
        notice == Failed && w.Snapshot() == old(w.Snapshot()) && Snapshot() == old(Snapshot())
      ensures confirmed && call.Ok? ==>
        notice == Deleted(name)
        && w.Snapshot() == Fetch(DeleteCustomer(old(w.Snapshot()), id, call).state, refresh)
        && (reload.Rows? ==>
              customers == Customers.RowsOr0(reload.data) && stats == CalculateStats(reload.data, startOfDay)
              && error == old(error))
        && (reload.QueryFailed? ==> customers == old(customers) && stats == old(stats) && error == LoadFailed)
        && !loading
    {
      if !confirmed {
        return NoNotice;
      }
      var ok := w.DeleteCustomerRow(id, call);
      if !ok {
        return Failed;
      }
      FetchCustomers(reload, startOfDay);
      w.FetchBalance(refresh);
      return Deleted(name);
    }

    function Snapshot(): (seq<Customer>, TableStats, string, bool)
      reads this
    {
      (customers, stats, error, loading)
    }
  }

  /** A delete from the table followed by the balance refresh leaves the
      stored balance and the records as they were: the deposit is not refunded. */
  lemma DeleteThenRefreshNoRefund(s: State, id: Id, call: Call, refresh: RefreshFaults)
    ensures var r := Fetch(DeleteCustomer(s, id, call).state, refresh);
      Stored(r) == Stored(s) && r.transactions == s.transactions && r.activities == s.activities
      && r.customers == (if call.Ok? then s.customers - {id} else s.customers)
  {
  }
}
