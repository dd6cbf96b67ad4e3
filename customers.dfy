/** The customer list of src/pages/Customers.jsx: which customers count as
    today's, the page's statistics, the name search, the relative times, the
    CSV export and deletion. Times are milliseconds since the epoch and the
    start of the current day is an input. */
module Customers {
  import opened Common
  import opened Text
  import opened WalletContext

  /** Created today, or updated today (`isCustomerToday`, lines 184-189, and
      the filter of lines 78-82). */
  predicate IsToday(c: Customer, startOfDay: int)
  {
    c.createdAt >= startOfDay || (c.updatedAt.Some? && c.updatedAt.value >= startOfDay)
  }

  function TodayFilter(startOfDay: int): Customer -> bool
  {
    (c: Customer) => IsToday(c, startOfDay)
  }

  /** `customer.amount || 0`. */
  function Deposit(c: Customer): real { AmountOr0(c.amount) }

  datatype CustomerStats = CustomerStats(todayCount: nat, todayTotal: real, allCount: nat, allTotal: real, avgDeposit: real)

  /** `calculateStats` (lines 74-95). */
  function CalculateStats(customers: seq<Customer>, startOfDay: int): CustomerStats
  {
    var today := Filter(customers, TodayFilter(startOfDay));
    var allTotal := SumBy(customers, Deposit);
    CustomerStats(|today|, SumBy(today, Deposit), |customers|, allTotal,
      if |customers| > 0 then allTotal / |customers| as real else 0.0)
  }

  /** Today's customers are a part of all of them: no more of them, and no
      more deposits when no deposit is negative. */
  lemma TodayWithinAll(customers: seq<Customer>, startOfDay: int)
    ensures var r := CalculateStats(customers, startOfDay);
      r.todayCount <= r.allCount
      && ((forall i :: 0 <= i < |customers| ==> Deposit(customers[i]) >= 0.0) ==> 0.0 <= r.todayTotal <= r.allTotal)
  {
    if forall i :: 0 <= i < |customers| ==> Deposit(customers[i]) >= 0.0 {
      SumByFilterAtMost(customers, TodayFilter(startOfDay), Deposit);
      var today := Filter(customers, TodayFilter(startOfDay));
      forall i | 0 <= i < |today|
        ensures Deposit(today[i]) >= 0.0
      {
        var j :| 0 <= j < |customers| && customers[j] == today[i];
      }
      SumByNonNegative(today, Deposit);
    }
  }

  /** The average deposit times the number of customers is the total, and it
      is 0 for an empty list. */
  lemma AverageTimesCount(customers: seq<Customer>, startOfDay: int)
    ensures var r := CalculateStats(customers, startOfDay);
      r.avgDeposit * r.allCount as real == r.allTotal
  {
    var r := CalculateStats(customers, startOfDay);
    if |customers| > 0 {
      var n := |customers| as real;
      assert r.avgDeposit == r.allTotal / n && r.allCount as real == n;
      DividedTimesDivisor(r.allTotal, n);
    }
  }

  lemma DividedTimesDivisor(x: real, n: real)
    requires n > 0.0
    ensures x / n * n == x
  {
  }

  /** The today count is taken over exactly the customers the row badge marks
      as today's. */
  lemma TodayMembers(customers: seq<Customer>, startOfDay: int)
    ensures var today := Filter(customers, TodayFilter(startOfDay));
      (forall i :: 0 <= i < |today| ==> IsToday(today[i], startOfDay) && today[i] in customers)
      && (forall i :: 0 <= i < |customers| && IsToday(customers[i], startOfDay) ==> customers[i] in today)
  {
  }

  /** With everyone created today, today's figures are the all-time ones. */
  lemma AllTodayAgree(customers: seq<Customer>, startOfDay: int)
    requires forall i :: 0 <= i < |customers| ==> customers[i].createdAt >= startOfDay
    ensures var r := CalculateStats(customers, startOfDay);
      r.todayCount == r.allCount && r.todayTotal == r.allTotal
  {
    FilterAll(customers, TodayFilter(startOfDay));
  }

  // ------------------------------------------------------------ search

  function NameMatches(term: string): Customer -> bool
  {
    (c: Customer) => Contains(Lower(c.name), Lower(term))
  }

  /** `filteredCustomers` (lines 115-117). */
  function Filtered(customers: seq<Customer>, term: string): seq<Customer>
  {
    Filter(customers, NameMatches(term))
  }

  /** The search keeps exactly the customers whose lowercased name contains
      the lowercased term, in order, and an empty term keeps everyone. */
  lemma SearchKeepsMatches(customers: seq<Customer>, term: string)
    ensures var r := Filtered(customers, term);
      (forall i :: 0 <= i < |r| ==> r[i] in customers && Contains(Lower(r[i].name), Lower(term)))
      && (forall i :: 0 <= i < |customers| && Contains(Lower(customers[i].name), Lower(term)) ==> customers[i] in r)
    ensures term == "" ==> Filtered(customers, term) == customers
  {
    if term == "" {
      forall i | 0 <= i < |customers|
        ensures NameMatches(term)(customers[i])
      {
        ContainsEmpty(Lower(customers[i].name));
      }
      FilterAll(customers, NameMatches(term));
    }
  }

  // ------------------------------------------------------------ relative time

  const MinuteMs := 60000
  const HourMs := 3600000
  const DayMs := 86400000

  /** The unit `formatRelativeTime` settles on, and its count. */
  datatype Ago = Minutes(count: int) | Hours(count: int) | Days(count: int) | OnDate

  /** The branches of lines 131-148 on `diffMs = now - date`; `Math.floor` of a
      quotient by a positive divisor is Dafny's division. */
  function Bucket(diffMs: int): Ago
  {
    if diffMs / MinuteMs < 60 then Minutes(diffMs / MinuteMs)
    else if diffMs / HourMs < 24 then Hours(diffMs / HourMs)
    else if diffMs / DayMs < 7 then Days(diffMs / DayMs)
    else OnDate
  }

  /** The buckets in milliseconds: under an hour, under a day, under a week,
      otherwise a date; the count is the number of whole units elapsed. */
  lemma BucketThresholds(diffMs: int)
    ensures Bucket(diffMs).Minutes? <==> diffMs < HourMs
    ensures Bucket(diffMs).Hours? <==> HourMs <= diffMs < DayMs
    ensures Bucket(diffMs).Days? <==> DayMs <= diffMs < 7 * DayMs
    ensures Bucket(diffMs).OnDate? <==> diffMs >= 7 * DayMs
    ensures Bucket(diffMs).Minutes? ==> Bucket(diffMs).count * MinuteMs <= diffMs < (Bucket(diffMs).count + 1) * MinuteMs
    ensures Bucket(diffMs).Hours? ==> 1 <= Bucket(diffMs).count < 24
    ensures Bucket(diffMs).Days? ==> 1 <= Bucket(diffMs).count < 7
  {
    FloorBelow(diffMs, MinuteMs, 60);
    FloorBelow(diffMs, HourMs, 24);
    FloorBelow(diffMs, DayMs, 7);
  }

  /** `floor(d / unit) < n` exactly when `d < n * unit`. */
  lemma FloorBelow(d: int, unit: int, n: int)
    requires unit > 0
    ensures d / unit < n <==> d < n * unit
    ensures (d / unit) * unit <= d < (d / unit + 1) * unit
  {
    var q := d / unit;
    assert q * unit + d % unit == d;
    if q < n {
      assert q + 1 <= n;
      assert (q + 1) * unit <= n * unit;
    } else {
      assert n * unit <= q * unit;
    }
  }

  /** `${n} unit${n !== 1 ? 's' : ''} ago`. */
  function UnitText(n: int, unit: string): string
  {
    IntText(n) + " " + unit + (if n != 1 then "s" else "") + " ago"
  }

  /** The plural "s" is left off exactly for a count of 1. */
  lemma SingularExactlyForOne(n: int, unit: string)
    ensures UnitText(n, unit) == IntText(n) + " " + unit + " ago" <==> n == 1
  {
    var a := IntText(n) + " " + unit;
    if n != 1 {
      assert UnitText(n, unit) == a + "s ago";
      assert |a + "s ago"| != |a + " ago"|;
    }
  }

  /** `formatRelativeTime` (lines 131-148); `dateText` is the date as the
      date library renders it, used after a week. */
  function RelativeTime(diffMs: int, dateText: string): string
  {
    match Bucket(diffMs)
    case Minutes(n) => UnitText(n, "min")
    case Hours(n) => UnitText(n, "hour")
    case Days(n) => UnitText(n, "day")
    case OnDate => dateText
  }

  // ------------------------------------------------------------ CSV export

  const ExportHeaders: seq<string> := ["Customer Name", "Deposit Amount", "Status", "Created Date", "Last Updated"]

  /** One line of `exportToCSV` (lines 154-160). `show` renders a number;
      `stamp` renders a time; `join` writes null as the empty string, and
      `new Date(null)` is the epoch. */
  function ExportFields(c: Customer, show: real -> string, stamp: int -> string): (r: seq<string>)
    ensures |r| == |ExportHeaders|
  {
    ["\"" + c.name + "\"",
     if c.amount.Some? then show(c.amount.value) else "",
     if c.status.Some? then c.status.value else "",
     stamp(c.createdAt),
     stamp(if c.updatedAt.Some? then c.updatedAt.value else 0)]
  }

  function ExportLines(cs: seq<Customer>, show: real -> string, stamp: int -> string): (r: seq<string>)
    ensures |r| == |cs|
    ensures forall i :: 0 <= i < |cs| ==> r[i] == Join(ExportFields(cs[i], show, stamp), ',')
  {
    if cs == [] then [] else [Join(ExportFields(cs[0], show, stamp), ',')] + ExportLines(cs[1..], show, stamp)
  }

  /** The exported file over the filtered list. */
  function ExportCsv(customers: seq<Customer>, term: string, show: real -> string, stamp: int -> string): string
  {
    Join([Join(ExportHeaders, ',')] + ExportLines(Filtered(customers, term), show, stamp), '\n')
  }

  /** A customer whose own fields, rendered, hold no separator. */
  predicate PlainCustomer(c: Customer, show: real -> string, stamp: int -> string)
  {
    forall i :: 0 <= i < |ExportFields(c, show, stamp)| ==> Plain(ExportFields(c, show, stamp)[i])
  }

  lemma HeadersPlain()
    ensures forall i :: 0 <= i < |ExportHeaders| ==> Plain(ExportHeaders[i])
  {
  }

  /** With no separator inside a field, the file reads back as the header line
      plus one line per listed customer, each of 5 fields in header order. */
  lemma ExportReadsBack(customers: seq<Customer>, term: string, show: real -> string, stamp: int -> string)
    requires forall i :: 0 <= i < |customers| ==> PlainCustomer(customers[i], show, stamp)
    ensures var shown := Filtered(customers, term);
      var lines := Split(ExportCsv(customers, term, show, stamp), '\n');
      |lines| == 1 + |shown|
      && Split(lines[0], ',') == ExportHeaders
      && forall i :: 0 <= i < |shown| ==> Split(lines[i + 1], ',') == ExportFields(shown[i], show, stamp)
  {
    var shown := Filtered(customers, term);
    var parts := [Join(ExportHeaders, ',')] + ExportLines(shown, show, stamp);
    ExportSplitsIntoLines(customers, term, show, stamp);
    HeadersPlain();
    SplitJoin(ExportHeaders, ',');
    forall i | 0 <= i < |shown|
      ensures Split(parts[i + 1], ',') == ExportFields(shown[i], show, stamp)
    {
      assert shown[i] in customers;
      SplitJoin(ExportFields(shown[i], show, stamp), ',');
    }
  }

  /** The file splits at line breaks into the header line and one line per
      listed customer. */
  lemma ExportSplitsIntoLines(customers: seq<Customer>, term: string, show: real -> string, stamp: int -> string)
    requires forall i :: 0 <= i < |customers| ==> PlainCustomer(customers[i], show, stamp)
    ensures Split(ExportCsv(customers, term, show, stamp), '\n')
      == [Join(ExportHeaders, ',')] + ExportLines(Filtered(customers, term), show, stamp)
  {
    var shown := Filtered(customers, term);
    var parts := [Join(ExportHeaders, ',')] + ExportLines(shown, show, stamp);
    HeadersPlain();
    JoinNoSep(ExportHeaders, ',', '\n');
    forall i | 0 <= i < |parts|
      ensures '\n' !in parts[i]
    {
      if i > 0 {
        var c := shown[i - 1];
        assert c in customers;
        JoinNoSep(ExportFields(c, show, stamp), ',', '\n');
      }
    }
    SplitJoin(parts, '\n');
  }

  // ------------------------------------------------------------ the page

  /** What a customers query returns: an error, or rows, possibly null. */
  datatype Fetched = QueryFailed | Rows(data: Option<seq<Customer>>)

  /** `data || []`. */
  function RowsOr0(data: Option<seq<Customer>>): seq<Customer>
  {
    if data.Some? then data.value else []
  }

  class Page {
    var customers: seq<Customer>
    var stats: CustomerStats
    var totalDeposits: real
    var loading: bool

    /** `fetchCustomers` (lines 38-72) given what the query returned; an
        error keeps the previous list. */
    method FetchCustomers(result: Fetched, startOfDay: int)
      modifies this
      ensures result.QueryFailed? ==> customers == old(customers) && stats == old(stats) && totalDeposits == old(totalDeposits)
      ensures result.Rows? ==>
        customers == RowsOr0(result.data)
        && stats == CalculateStats(customers, startOfDay)
        && totalDeposits == stats.allTotal
      ensures !loading
    {
      loading := true;
      if result.Rows? {
        customers := RowsOr0(result.data);
        stats := CalculateStats(customers, startOfDay);
        totalDeposits := SumBy(customers, Deposit);
      }
      loading := false;
    }

    /** `handleDelete` (lines 97-108): on confirmation delete the row, and
        refetch only when the delete reported no error. The wallet is not
        touched. */
    method HandleDelete(w: Wallet, id: Id, confirmed: bool, call: Call, reload: Fetched, startOfDay: int)
      modifies this, w
      ensures w.Snapshot() == if confirmed then DeleteCustomer(old(w.Snapshot()), id, call).state else old(w.Snapshot())
      ensures !(confirmed && call.Ok?) ==>
        customers == old(customers) && stats == old(stats) && totalDeposits == old(totalDeposits) && loading == old(loading)
      ensures confirmed && call.Ok? && reload.Rows? ==>
        customers == RowsOr0(reload.data) && stats == CalculateStats(customers, startOfDay)
        && totalDeposits == stats.allTotal && !loading
      ensures confirmed && call.Ok? && reload.QueryFailed? ==>
        customers == old(customers) && stats == old(stats) && totalDeposits == old(totalDeposits) && !loading
    {
      if confirmed {
        var ok := w.DeleteCustomerRow(id, call);
        if ok {
          FetchCustomers(reload, startOfDay);
        }
      }
    }
  }

  /** Deleting a customer, as both lists do, removes only the row: the balance
      and the records stay as they were, so the deposit is not refunded. */
  lemma DeleteNoRefund(s: State, id: Id, call: Call)
    ensures var r := DeleteCustomer(s, id, call).state;
      Stored(r) == Stored(s) && r.transactions == s.transactions && r.activities == s.activities
      && (id !in r.customers <==> call.Ok? || id !in s.customers)
  {
  }
}
