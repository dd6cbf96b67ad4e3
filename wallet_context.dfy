/** The shared wallet ledger of src/contexts/WalletContext.jsx.

    There is one balance row (fixed id 00000000-0000-0000-0000-000000000000),
    an append-only `transactions` table, a best-effort activity log and the
    `customers` table the forms write. Every call to the hosted backend is a
    step on `State` that may fail: a `bool` flag for calls whose failure the
    code ignores or turns into a default, a `Call` for calls whose error
    message the code rethrows. The `update_wallet_balance` RPC is an atomic
    `balance += delta` on the row. The functions below are the specification;
    class `Wallet` performs the same steps in place. */
module WalletContext {
  import opened Common

  type Id = nat

  const TopUpKind := "topup"
  const DepositKind := "customer_deposit"
  const WithdrawalKind := "withdrawal"
  const Completed := "completed"

  /** A row of `transactions`: the amount is a magnitude, the kind gives its direction. */
  datatype Tx = Tx(kind: string, amount: Option<real>, customerId: Option<Id>, status: string)

  /** A row written by the `log_daily_activity` RPC. */
  datatype Activity = Activity(kind: string, amount: Option<real>, note: string, referenceId: Option<Id>)

  /** A row of `customers`; times are milliseconds since the epoch. */
  datatype Customer = Customer(name: string, amount: Option<real>, createdAt: int, updatedAt: Option<int>, status: Option<string>)

  /** The backend tables plus the provider's `walletBalance` state (`shown`). */
  datatype State = State(
    balanceExists: bool,
    balance: real,
    transactions: seq<Tx>,
    activities: seq<Activity>,
    customers: map<Id, Customer>,
    nextId: Id,
    shown: real)

  /** The balance the row holds, 0 while there is no row. */
  function Stored(s: State): real
  {
    if s.balanceExists then s.balance else 0.0
  }

  datatype EnsureFaults = EnsureFaults(checkFails: bool, insertFails: bool)
  datatype RefreshFaults = RefreshFaults(ensure: EnsureFaults, readFails: bool)

  /** What fails during one `topUpWallet` or `deductFromWallet`. */
  datatype LedgerFaults = LedgerFaults(
    ensure: EnsureFaults,
    readFails: bool,
    rpcFails: bool,
    update: Call,
    txInsertFails: bool,
    activityFails: bool,
    refresh: RefreshFaults)

  datatype Step = Step(state: State, ok: bool)

  datatype LedgerError = Insufficient(available: real) | WriteFailed(message: string)

  /** The prefix of the error `deductFromWallet` throws when the balance is too low. */
  const InsufficientPrefix := "Insufficient wallet balance. Available: \U{20A6}"

  /** `error.message` of what the ledger throws; `show` renders an amount
      (`toLocaleString`). */
  function ErrorMessage(e: LedgerError, show: real -> string): string
  {
    match e
    case Insufficient(available) => InsufficientPrefix + show(available)
    case WriteFailed(message) => message
  }

  /** The state after a ledger operation and the error it throws, if any. */
  datatype Outcome = Outcome(state: State, error: Option<LedgerError>)

  /** The wallet as seen by callers: everything but the provider's local state. */
  predicate SameWallet(a: State, b: State)
  {
    Stored(a) == Stored(b) && a.transactions == b.transactions && a.activities == b.activities
    && a.customers == b.customers && a.nextId == b.nextId
  }

  // ------------------------------------------------------------ balance row

  /** `ensureWalletBalanceExists` (lines 38-76): look the row up; when the
      lookup succeeds and finds nothing, insert it at 0. */
  function EnsureRow(s: State, f: EnsureFaults): (r: Step)
    ensures r.state.(balanceExists := s.balanceExists, balance := s.balance) == s
    ensures Stored(r.state) == Stored(s)
    ensures s.balanceExists ==> r.state == s
    ensures r.ok <==> !f.checkFails && (s.balanceExists || !f.insertFails)
    ensures r.state.balanceExists <==> s.balanceExists || r.ok
  {
    if f.checkFails then Step(s, false)
    else if s.balanceExists then Step(s, true)
    else if f.insertFails then Step(s, false)
    else Step(s.(balanceExists := true, balance := 0.0), true)
  }

  /** Once a call has succeeded, any further call changes nothing: calling it
      twice is calling it once. */
  lemma EnsureIdempotent(s: State, f: EnsureFaults, g: EnsureFaults)
    requires EnsureRow(s, f).ok
    ensures EnsureRow(EnsureRow(s, f).state, g).state == EnsureRow(s, f).state
  {
  }

  /** `data?.balance || 0` after a `.single()` read of the row. */
  function ReadBalance(s: State, readFails: bool): (r: real)
    ensures r == if readFails then 0.0 else Stored(s)
  {
    if readFails || !s.balanceExists then 0.0 else s.balance
  }

  /** `fetchWalletBalance` (lines 78-102): ensure the row, read it, and set
      the provider's balance to it, or to 0 on a read error or missing row. */
  function Fetch(s: State, f: RefreshFaults): (r: State)
    ensures SameWallet(r, s)
    ensures r.shown == if f.readFails then 0.0 else Stored(s)
  {
    var e := EnsureRow(s, f.ensure).state;
    e.(shown := ReadBalance(e, f.readFails))
  }

  /** The balance row with `delta` added, when there is a row. */
  function Adjusted(s: State, delta: real): State
  {
    if s.balanceExists then s.(balance := s.balance + delta) else s
  }

  /** The balance row overwritten with `value`; an update that matches no row
      changes nothing and reports no error. */
  function Overwritten(s: State, value: real): State
  {
    if s.balanceExists then s.(balance := value) else s
  }

  /** The balance write of lines 123-147 and 224-245: the RPC, and when it
      fails the read-then-write fallback from the balance read earlier. */
  function ApplyDelta(s: State, current: real, delta: real, rpcFails: bool, update: Call): (r: Step)
    ensures r.state.(balance := s.balance) == s
    ensures r.ok <==> !rpcFails || update.Ok?
    ensures !r.ok ==> r.state == s
    ensures r.ok && s.balanceExists ==>
      r.state.balance == if rpcFails then current + delta else s.balance + delta
  {
    if !rpcFails then Step(Adjusted(s, delta), true)
    else if update.Fail? then Step(s, false)
    else Step(Overwritten(s, current + delta), true)
  }

  /** An insert into `transactions` whose error is logged and ignored. */
  function RecordTx(s: State, tx: Tx, fails: bool): (r: State)
    ensures r.transactions == if fails then s.transactions else s.transactions + [tx]
    ensures r.(transactions := s.transactions) == s
  {
    if fails then s else s.(transactions := s.transactions + [tx])
  }

  /** A `log_daily_activity` call whose failure is swallowed. */
  function LogActivity(s: State, a: Activity, fails: bool): (r: State)
    ensures r.activities == if fails then s.activities else s.activities + [a]
    ensures r.(activities := s.activities) == s
  {
    if fails then s else s.(activities := s.activities + [a])
  }

  // ------------------------------------------------------------ operations

  /** The balance `topUpWallet` and `deductFromWallet` read before writing:
      0 when that read fails or finds no row. */
  function CurrentBalance(s: State, f: LedgerFaults): real
  {
    ReadBalance(EnsureRow(s, f.ensure).state, f.readFails)
  }

  /** Whether the balance row exists once the operation has ensured it. */
  predicate RowReady(s: State, f: LedgerFaults)
  {
    EnsureRow(s, f.ensure).state.balanceExists
  }

  function TopUpRecord(amount: real): Tx { Tx(TopUpKind, Some(amount), None, Completed) }

  function DepositRecord(amount: real, customerId: Option<Id>): Tx
  {
    Tx(DepositKind, Some(amount), customerId, Completed)
  }

  /** `description || 'No description'` behind the deposit's activity text. */
  function DepositNote(description: string): string
  {
    "Customer deposit: " + (if description == "" then "No description" else description)
  }

  /** The activity a top-up logs; `show` renders the amount (`toLocaleString`). */
  function TopUpActivity(amount: real, show: real -> string): Activity
  {
    Activity("wallet_topup", Some(amount), "Wallet topped up with \U{20A6}" + show(amount), None)
  }

  /** `topUpWallet(amount)` (lines 104-199). */
  function TopUp(s: State, amount: real, f: LedgerFaults, show: real -> string): (r: Outcome)
    // the only error is a failed balance write, and it is thrown before any record
    ensures r.error.Some? <==> f.rpcFails && f.update.Fail?
    ensures r.error.Some? ==> r.error.value == WriteFailed(f.update.message) && SameWallet(r.state, s)
    // the provider's balance is set only after a successful write
    ensures r.error.Some? ==> r.state.shown == s.shown
    // after a balance change exactly one completed top-up record, unless its insert failed
    ensures r.error.None? ==>
      r.state.transactions == s.transactions + (if f.txInsertFails then [] else [TopUpRecord(amount)])
    ensures r.error.None? ==>
      r.state.activities == s.activities + (if f.activityFails then [] else [TopUpActivity(amount, show)])
    // the balance grows by the amount; the fallback write after a failed read overwrites it
    ensures r.error.None? && RowReady(s, f) ==>
      Stored(r.state) == if f.rpcFails && f.readFails then amount else Stored(s) + amount
    ensures !RowReady(s, f) ==> Stored(r.state) == Stored(s)
    ensures r.state.customers == s.customers && r.state.nextId == s.nextId
    ensures r.error.None? ==> r.state.shown == if f.refresh.readFails then 0.0 else Stored(r.state)
  {
    var e := EnsureRow(s, f.ensure).state;
    TopUpWrite(e, ReadBalance(e, f.readFails), amount, f, show)
  }

  /** The part of `topUpWallet` after the balance read (lines 121-196): the
      write, the record, the activity, the local balance and the refresh. */
  function TopUpWrite(e: State, current: real, amount: real, f: LedgerFaults, show: real -> string): (r: Outcome)
    ensures r.error.Some? <==> f.rpcFails && f.update.Fail?
    ensures r.error.Some? ==> r.state == e
    ensures r.error.None? && e.balanceExists ==>
      Stored(r.state) == if f.rpcFails then current + amount else Stored(e) + amount
    ensures r.state.customers == e.customers && r.state.nextId == e.nextId
  {
    var d := ApplyDelta(e, current, amount, f.rpcFails, f.update);
    if !d.ok then Outcome(d.state, Some(WriteFailed(f.update.message)))
    else
      var t := RecordTx(d.state, TopUpRecord(amount), f.txInsertFails);
      var a := LogActivity(t, TopUpActivity(amount, show), f.activityFails);
      Outcome(Fetch(a.(shown := a.shown + amount), f.refresh), None)
  }

  /** `deductFromWallet(amount, description, customerId)` (lines 201-282). */
  function Deduct(s: State, amount: real, description: string, customerId: Option<Id>, f: LedgerFaults): (r: Outcome)
    // too little money: throw, write nothing
    ensures CurrentBalance(s, f) < amount ==>
      r.error == Some(Insufficient(CurrentBalance(s, f))) && SameWallet(r.state, s)
    // a failed balance write: throw before any record
    ensures CurrentBalance(s, f) >= amount && f.rpcFails && f.update.Fail? ==>
      r.error == Some(WriteFailed(f.update.message)) && SameWallet(r.state, s)
    ensures r.error.None? <==> CurrentBalance(s, f) >= amount && (!f.rpcFails || f.update.Ok?)
    // after the balance change exactly one completed deposit record for this customer
    ensures r.error.None? ==>
      r.state.transactions == s.transactions + (if f.txInsertFails then [] else [DepositRecord(amount, customerId)])
    ensures r.error.None? ==>
      r.state.activities == s.activities + (if f.activityFails then [] else [Activity(DepositKind, Some(amount), DepositNote(description), None)])
    ensures r.error.None? && RowReady(s, f) && !(f.rpcFails && f.readFails) ==>
      Stored(r.state) == Stored(s) - amount
    // the balance never goes below zero
    ensures Stored(s) >= 0.0 ==> Stored(r.state) >= 0.0
    ensures r.state.customers == s.customers && r.state.nextId == s.nextId
    // every path ends by refreshing the provider's balance
    ensures r.state.shown == if f.refresh.readFails then 0.0 else Stored(r.state)
  {
    var e := EnsureRow(s, f.ensure).state;
    DeductChecked(e, ReadBalance(e, f.readFails), amount, description, customerId, f)
  }

  /** The sufficiency check of lines 216-218 on the balance read, then the
      optimistic update of the provider's balance and the write. */
  function DeductChecked(e: State, current: real, amount: real, description: string, customerId: Option<Id>, f: LedgerFaults): (r: Outcome)
    ensures current < amount ==> r.error == Some(Insufficient(current)) && SameWallet(r.state, e)
    ensures r.error.None? <==> current >= amount && (!f.rpcFails || f.update.Ok?)
    ensures r.error.None? && e.balanceExists ==>
      Stored(r.state) == if f.rpcFails then current - amount else Stored(e) - amount
    ensures r.state.customers == e.customers && r.state.nextId == e.nextId
  {
    if current < amount then Outcome(Fetch(e, f.refresh), Some(Insufficient(current)))
    else DeductWrite(e.(shown := current - amount), current, amount, description, customerId, f)
  }

  /** The part of `deductFromWallet` after the sufficiency check (lines 220-275). */
  function DeductWrite(s: State, current: real, amount: real, description: string, customerId: Option<Id>, f: LedgerFaults): (r: Outcome)
    ensures r.error.None? <==> !f.rpcFails || f.update.Ok?
    ensures r.error.Some? ==> r.error == Some(WriteFailed(f.update.message)) && SameWallet(r.state, s)
    ensures r.error.None? ==>
      r.state.transactions == s.transactions + (if f.txInsertFails then [] else [DepositRecord(amount, customerId)])
    ensures r.error.None? ==>
      r.state.activities == s.activities + (if f.activityFails then [] else [Activity(DepositKind, Some(amount), DepositNote(description), None)])
    ensures r.error.None? && s.balanceExists ==>
      Stored(r.state) == if f.rpcFails then current - amount else Stored(s) - amount
    ensures !s.balanceExists ==> Stored(r.state) == Stored(s)
    ensures r.state.customers == s.customers && r.state.nextId == s.nextId
    ensures r.state.shown == if f.refresh.readFails then 0.0 else Stored(r.state)
  {
    var d := ApplyDelta(s, current, -amount, f.rpcFails, f.update);
    if !d.ok then Outcome(Fetch(d.state, f.refresh), Some(WriteFailed(f.update.message)))
    else
      var t := RecordTx(d.state, DepositRecord(amount, customerId), f.txInsertFails);
      var a := LogActivity(t, Activity(DepositKind, Some(amount), DepositNote(description), None), f.activityFails);
      Outcome(Fetch(a, f.refresh), None)
  }


  /** The ledger operations leave the customers table and its id counter alone. */
  lemma LedgerKeepsFreshIds(s: State, amount: real, description: string, customerId: Option<Id>,
                            f: LedgerFaults, show: real -> string)
    requires FreshIds(s)
    ensures FreshIds(TopUp(s, amount, f, show).state)
    ensures FreshIds(Deduct(s, amount, description, customerId, f).state)
  {
  }

  /** A top-up whose balance read and RPC both fail writes the amount over
      the balance: the degraded read-then-write path loses what was there. */
  lemma TopUpFallbackAfterFailedRead(s: State, amount: real, f: LedgerFaults, show: real -> string)
    requires s.balanceExists && f.rpcFails && f.readFails && f.update.Ok?
    ensures Stored(TopUp(s, amount, f, show).state) == amount
  {
  }

  /** `getTransactionHistory(limit)` (lines 300-317), newest first; an error
      yields the empty list. */
  function History(txs: seq<Tx>, limit: nat, queryFails: bool): (r: seq<Tx>)
    ensures queryFails ==> r == []
    ensures !queryFails ==> |r| == if limit < |txs| then limit else |txs|
    ensures forall i :: 0 <= i < |r| ==> r[i] == txs[|txs| - 1 - i]
  {
    if queryFails then [] else Latest(txs, limit)
  }

  function Latest(txs: seq<Tx>, limit: nat): (r: seq<Tx>)
    ensures |r| == if limit < |txs| then limit else |txs|
    ensures forall i :: 0 <= i < |r| ==> r[i] == txs[|txs| - 1 - i]
  {
    if limit == 0 || txs == [] then []
    else [txs[|txs| - 1]] + Latest(txs[..|txs| - 1], limit - 1)
  }

  // ------------------------------------------------------------ ledger totals

  /** `tx.amount || 0`. */
  function TxAmount(t: Tx): real { AmountOr0(t.amount) }

  /** `tx => tx.type === kind`. */
  function IsKind(kind: string): Tx -> bool { (t: Tx) => t.kind == kind }

  /** The reference total of the amounts recorded under one kind. */
  function TotalOf(txs: seq<Tx>, kind: string): real
  {
    if txs == [] then 0.0
    else (if txs[0].kind == kind then TxAmount(txs[0]) else 0.0) + TotalOf(txs[1..], kind)
  }

  lemma {:induction false} TotalOfAppend(a: seq<Tx>, b: seq<Tx>, kind: string)
    ensures TotalOf(a + b, kind) == TotalOf(a, kind) + TotalOf(b, kind)
  {
    if a == [] {
      assert a + b == b;
    } else {
      assert (a + b)[1..] == a[1..] + b;
      TotalOfAppend(a[1..], b, kind);
    }
  }

  /** The pages' `filter(type === kind).reduce(sum + amount)` is the total. */
  lemma {:induction false} FilterSumIsTotal(txs: seq<Tx>, kind: string)
    ensures SumBy(Filter(txs, IsKind(kind)), TxAmount) == TotalOf(txs, kind)
  {
    if txs != [] {
      FilterSumIsTotal(txs[1..], kind);
      var head := if IsKind(kind)(txs[0]) then [txs[0]] else [];
      SumByAppend(head, Filter(txs[1..], IsKind(kind)), TxAmount);
    }
  }

  // ------------------------------------------------------------ customers table

  /** Every customer id in use is below the next one to be handed out: the
      database never reuses a key. */
  predicate FreshIds(s: State)
  {
    forall k :: k in s.customers ==> k < s.nextId
  }

  /** `insert([...]).select().single()` on `customers`: the new row gets the
      next id, which no row holds yet. */
  function InsertCustomer(s: State, c: Customer, call: Call): (r: Step)
    ensures r.ok <==> call.Ok?
    ensures r.ok ==> r.state.customers == s.customers[s.nextId := c] && r.state.nextId == s.nextId + 1
    ensures r.ok && FreshIds(s) ==> s.nextId !in s.customers
    ensures !r.ok ==> r.state == s
    ensures r.state.(customers := s.customers, nextId := s.nextId) == s
    ensures FreshIds(s) ==> FreshIds(r.state)
  {
    if call.Fail? then Step(s, false)
    else Step(s.(customers := s.customers[s.nextId := c], nextId := s.nextId + 1), true)
  }

  /** `update({name, amount}).eq('id', id)`: only name and amount change, and
      an id that matches no row changes nothing. */
  function UpdateCustomer(s: State, id: Id, name: string, amount: real, call: Call): (r: Step)
    ensures r.ok <==> call.Ok?
    ensures r.state.(customers := s.customers) == s
    ensures r.state.customers.Keys == s.customers.Keys
    ensures forall k :: k in s.customers && k != id ==> r.state.customers[k] == s.customers[k]
    ensures r.ok && id in s.customers ==>
      r.state.customers[id] == s.customers[id].(name := name, amount := Some(amount))
    ensures FreshIds(s) ==> FreshIds(r.state)
  {
    if call.Fail? then Step(s, false)
    else if id !in s.customers then Step(s, true)
    else Step(s.(customers := s.customers[id := s.customers[id].(name := name, amount := Some(amount))]), true)
  }

  /** `delete().eq('id', id)` on `customers`. */
  function DeleteCustomer(s: State, id: Id, call: Call): (r: Step)
    ensures r.ok <==> call.Ok?
    ensures r.state.customers == if call.Ok? then s.customers - {id} else s.customers
    ensures r.state.(customers := s.customers) == s
    ensures FreshIds(s) ==> FreshIds(r.state)
  {
    if call.Fail? then Step(s, false) else Step(s.(customers := s.customers - {id}), true)
  }

  // ------------------------------------------------------------ the provider

  /** The wallet provider together with the tables it and the forms write;
      its methods take the backend calls one at a time. */
  class Wallet {
    var balanceExists: bool
    var balance: real
    var transactions: seq<Tx>
    var activities: seq<Activity>
    var customers: map<Id, Customer>
    var nextId: Id
    var shown: real

    function Snapshot(): State
      reads this
    {
      State(balanceExists, balance, transactions, activities, customers, nextId, shown)
    }

    /** The invariant every step keeps: no customer id is reused. */
    predicate Valid()
      reads this
    {
      FreshIds(Snapshot())
    }

    /** A fresh backend: no balance row, empty tables, `walletBalance` 0. */
    constructor ()
      ensures Snapshot() == State(false, 0.0, [], [], map[], 0, 0.0)
      ensures Valid()
    {
      balanceExists, balance := false, 0.0;
      transactions, activities := [], [];
      customers, nextId := map[], 0;
      shown := 0.0;
    }

    method EnsureBalanceRow(f: EnsureFaults) returns (ok: bool)
      modifies this
      ensures Step(Snapshot(), ok) == EnsureRow(old(Snapshot()), f)
    {
      if f.checkFails {
        return false;
      }
      if !balanceExists {
        if f.insertFails {
          return false;
        }
        balanceExists, balance := true, 0.0;
      }
      return true;
    }

    method ReadBalanceValue(readFails: bool) returns (current: real)
      ensures current == if readFails then 0.0 else Stored(Snapshot())
    {
      if readFails || !balanceExists {
        current := 0.0;
      } else {
        current := balance;
      }
    }

    method FetchBalance(f: RefreshFaults)
      modifies this
      ensures Snapshot() == Fetch(old(Snapshot()), f)
    {
      var _ := EnsureBalanceRow(f.ensure);
      shown := ReadBalanceValue(f.readFails);
    }

    method WriteBalance(current: real, delta: real, rpcFails: bool, update: Call) returns (ok: bool)
      modifies this
      ensures Step(Snapshot(), ok) == ApplyDelta(old(Snapshot()), current, delta, rpcFails, update)
    {
      if !rpcFails {
        if balanceExists {
          balance := balance + delta;
        }
        return true;
      }
      if update.Fail? {
        return false;
      }
      if balanceExists {
        balance := current + delta;
      }
      return true;
    }

    method InsertTransaction(tx: Tx, fails: bool)
      modifies this
      ensures Snapshot() == RecordTx(old(Snapshot()), tx, fails)
    {
      if !fails {
        transactions := transactions + [tx];
      }
    }

    method LogDailyActivity(a: Activity, fails: bool)
      modifies this
      ensures Snapshot() == LogActivity(old(Snapshot()), a, fails)
    {
      if !fails {
        activities := activities + [a];
      }
    }

    method TopUpWallet(amount: real, f: LedgerFaults, show: real -> string) returns (err: Option<LedgerError>)
      modifies this
      ensures Outcome(Snapshot(), err) == TopUp(old(Snapshot()), amount, f, show)
      ensures old(Valid()) ==> Valid()
    {
      var _ := EnsureBalanceRow(f.ensure);
      var current := ReadBalanceValue(f.readFails);
      err := WriteTopUp(current, amount, f, show);
    }

    method WriteTopUp(current: real, amount: real, f: LedgerFaults, show: real -> string) returns (err: Option<LedgerError>)
      modifies this
      ensures Outcome(Snapshot(), err) == TopUpWrite(old(Snapshot()), current, amount, f, show)
    {
      var ok := WriteBalance(current, amount, f.rpcFails, f.update);
      if !ok {
        return Some(WriteFailed(f.update.message));
      }
      InsertTransaction(TopUpRecord(amount), f.txInsertFails);
      LogDailyActivity(TopUpActivity(amount, show), f.activityFails);
      shown := shown + amount;
      FetchBalance(f.refresh);
      return None;
    }

    method DeductFromWallet(amount: real, description: string, customerId: Option<Id>, f: LedgerFaults)
      returns (err: Option<LedgerError>)
      modifies this
      ensures Outcome(Snapshot(), err) == Deduct(old(Snapshot()), amount, description, customerId, f)
      ensures old(Valid()) ==> Valid()
    {
      var _ := EnsureBalanceRow(f.ensure);
      var current := ReadBalanceValue(f.readFails);
      err := CheckAndWrite(current, amount, description, customerId, f);
    }

    method CheckAndWrite(current: real, amount: real, description: string, customerId: Option<Id>, f: LedgerFaults)
      returns (err: Option<LedgerError>)
      modifies this
      ensures Outcome(Snapshot(), err) == DeductChecked(old(Snapshot()), current, amount, description, customerId, f)
    {
      if current < amount {
        FetchBalance(f.refresh);
        return Some(Insufficient(current));
      }
      shown := current - amount;
      err := WriteDeduction(current, amount, description, customerId, f);
    }

    method WriteDeduction(current: real, amount: real, description: string, customerId: Option<Id>, f: LedgerFaults)
      returns (err: Option<LedgerError>)
      modifies this
      ensures Outcome(Snapshot(), err) == DeductWrite(old(Snapshot()), current, amount, description, customerId, f)
    {
      var ok := WriteBalance(current, -amount, f.rpcFails, f.update);
      if !ok {
        FetchBalance(f.refresh);
        return Some(WriteFailed(f.update.message));
      }
      InsertTransaction(DepositRecord(amount, customerId), f.txInsertFails);
      LogDailyActivity(Activity(DepositKind, Some(amount), DepositNote(description), None), f.activityFails);
      FetchBalance(f.refresh);
      return None;
    }

    function TransactionHistory(limit: nat, queryFails: bool): seq<Tx>
      reads this
    {
      History(transactions, limit, queryFails)
    }

    method InsertCustomerRow(c: Customer, call: Call) returns (id: Option<Id>)
      requires Valid()
      modifies this
      ensures Valid()
      ensures Step(Snapshot(), id.Some?) == InsertCustomer(old(Snapshot()), c, call)
      ensures id.Some? ==> id.value == old(nextId)
    {
      if call.Fail? {
        return None;
      }
      id := Some(nextId);
      customers := customers[nextId := c];
      nextId := nextId + 1;
    }

    method UpdateCustomerRow(id: Id, name: string, amount: real, call: Call) returns (ok: bool)
      modifies this
      ensures old(Valid()) ==> Valid()
      ensures Step(Snapshot(), ok) == UpdateCustomer(old(Snapshot()), id, name, amount, call)
    {
      if call.Fail? {
        return false;
      }
      if id in customers {
        customers := customers[id := customers[id].(name := name, amount := Some(amount))];
      }
      return true;
    }

    method DeleteCustomerRow(id: Id, call: Call) returns (ok: bool)
      modifies this
      ensures old(Valid()) ==> Valid()
      ensures Step(Snapshot(), ok) == DeleteCustomer(old(Snapshot()), id, call)
    {
      if call.Fail? {
        return false;
      }
      customers := customers - {id};
      return true;
    }
  }
}
