/** The add/edit customer form of src/components/CustomerForm.jsx.

    Creating a customer inserts the row, deducts the deposit from the wallet
    and, when the deduction throws, deletes the row again. Editing rewrites the
    row's name and amount and nothing else. `show` stands for
    `toLocaleString` of a number (the insufficient-balance message) and
    `text` for `String(n)` (the template literal of the activity note). */
module CustomerForm {
  import opened Common
  import opened Text
  import opened WalletContext

  const NameRequired := "Customer name is required"
  const NegativeAmount := "Amount cannot be negative"
  const DeductPrefix := "Failed to deduct from wallet: "
  const CustomerAdded := "customer_added"

  /** The form's React state. */
  datatype FormState = FormState(
    name: string,
    amount: string,
    loading: bool,
    error: string,
    success: bool,
    insufficient: bool)

  /** The calls a submit makes and how each of them fails. */
  datatype SubmitFaults = SubmitFaults(
    update: Call,
    insert: Call,
    ledger: LedgerFaults,
    delete: Call,
    activityFails: bool)

  /** The store after the writes of a submit and the message it throws, if any. */
  datatype Saved = Saved(state: State, error: Option<string>)

  /** `parseFloat(formData.amount) || 0`. */
  function AmountOf(text: string): real { ParseOr0(text) }

  /** The checks of lines 44-56, in order; `walletBalance` is the provider's
      balance, and only a new customer is checked against it. */
  function Validate(name: string, amount: real, walletBalance: real, creating: bool, show: real -> string): (r: Option<string>)
    ensures r.None? <==> !Blank(name) && amount >= 0.0 && !(creating && amount > walletBalance)
    ensures Blank(name) ==> r == Some(NameRequired)
    ensures !Blank(name) && amount < 0.0 ==> r == Some(NegativeAmount)
  {
    TrimEmptyIffBlank(name);
    if Trim(name) == [] then Some(NameRequired)
    else if amount < 0.0 then Some(NegativeAmount)
    else if creating && amount > walletBalance then Some(InsufficientPrefix + show(walletBalance))
    else None
  }

  /** The activity logged after a customer is added (lines 110-116); the
      amount is written with `String(n)`, not `toLocaleString`. */
  function AddedActivity(name: string, amount: real, id: Id, text: real -> string): Activity
  {
    Activity(CustomerAdded, Some(amount), "Added customer: " + name + " with deposit of \U{20A6}" + text(amount), Some(id))
  }

  /** The deduction of lines 90-108: none for a zero amount. */
  function DepositFor(s: State, amount: real, name: string, id: Id, f: LedgerFaults): Outcome
  {
    if amount > 0.0 then Deduct(s, amount, "Customer deposit: " + name, Some(id), f)
    else Outcome(s, None)
  }

  /** Lines 76-121: insert, deduct, compensate on a failed deduction, log. */
  function Create(s: State, name: string, amount: real, now: int, f: SubmitFaults, show: real -> string, text: real -> string): (r: Saved)
    // a failed insert writes nothing
    ensures f.insert.Fail? ==> r == Saved(s, Some(f.insert.message))
    ensures f.insert.Ok? ==> r.state.nextId == s.nextId + 1
    // on success the new row is kept under the next id
    ensures r.error.None? ==> r.state.customers == s.customers[s.nextId := Customer(name, Some(amount), now, None, None)]
    // a zero deposit never touches the wallet
    ensures amount == 0.0 ==> Stored(r.state) == Stored(s) && r.state.transactions == s.transactions
  {
    var ins := InsertCustomer(s, Customer(name, Some(amount), now, None, None), f.insert);
    if !ins.ok then Saved(ins.state, Some(f.insert.message))
    else
      var d := DepositFor(ins.state, amount, name, s.nextId, f.ledger);
      if d.error.Some? then
        Saved(DeleteCustomer(d.state, s.nextId, f.delete).state, Some(DeductPrefix + ErrorMessage(d.error.value, show)))
      else
        Saved(LogActivity(d.state, AddedActivity(name, amount, s.nextId, text), f.activityFails), None)
  }

  /** Lines 61-73: rewrite the row, no wallet call. */
  function Edit(s: State, id: Id, name: string, amount: real, call: Call): (r: Saved)
    ensures r.error.None? <==> call.Ok?
    ensures call.Fail? ==> r == Saved(s, Some(call.message))
    ensures r.state.(customers := s.customers) == s
  {
    var u := UpdateCustomer(s, id, name, amount, call);
    Saved(u.state, if u.ok then None else Some(call.message))
  }

  /** The `useEffect` of lines 28-35: the insufficient-balance flag follows the
      amount and the wallet balance. */
  function WithFlag(form: FormState, walletBalance: real): FormState
  {
    form.(insufficient := AmountOf(form.amount) > walletBalance)
  }

  /** The checks and the writes of `handleSubmit`: the store afterwards and
      the message shown, if any. */
  function Save(s: State, name: string, amount: real, editing: Option<Id>, now: int, f: SubmitFaults, show: real -> string, text: real -> string): (r: Saved)
    // nothing is saved that fails a check
    ensures r.error.None? ==> !Blank(name) && amount >= 0.0 && (editing.None? ==> amount <= s.shown)
    // an edit touches only the customers table
    ensures editing.Some? ==> r.state.(customers := s.customers) == s
  {
    var v := Validate(name, amount, s.shown, editing.None?, show);
    if v.Some? then Saved(s, v)
    else if editing.Some? then Edit(s, editing.value, name, amount, f.update)
    else Create(s, name, amount, now, f, show, text)
  }

  /** `handleSubmit` (lines 37-151).
      `editing` is the id of the customer being edited, `now` the insert time. */
  function Submitted(form: FormState, s: State, editing: Option<Id>, now: int, f: SubmitFaults, show: real -> string, text: real -> string): (r: (FormState, State))
    ensures !r.0.loading
    ensures r.0.success <==> Save(s, form.name, AmountOf(form.amount), editing, now, f, show, text).error.None?
    ensures r.0.success ==> r.0.error == ""
    // only a successful create empties the form
    ensures r.0.success && editing.None? ==> r.0.name == "" && r.0.amount == ""
    ensures !r.0.success || editing.Some? ==> r.0.name == form.name && r.0.amount == form.amount
  {
    var saved := Save(s, form.name, AmountOf(form.amount), editing, now, f, show, text);
    var busy := form.(loading := true, error := "", success := false);
    (Finish(busy, saved.error, editing.Some?), saved.state)
  }

  /** The form after the writes: the error shown, or success and, for a new
      customer, an emptied form; never loading. */
  function Finish(form: FormState, error: Option<string>, editing: bool): FormState
  {
    if error.Some? then form.(loading := false, error := error.value, success := false)
    else if editing then form.(loading := false, error := "", success := true)
    else form.(name := "", amount := "", loading := false, error := "", success := true)
  }

  // ------------------------------------------------------------ properties

  /** Every rejection by validation happens before any write. */
  lemma InvalidWritesNothing(form: FormState, s: State, editing: Option<Id>, now: int, f: SubmitFaults, show: real -> string, text: real -> string)
    requires Validate(form.name, AmountOf(form.amount), s.shown, editing.None?, show).Some?
    ensures Submitted(form, s, editing, now, f, show, text).1 == s
    ensures !Submitted(form, s, editing, now, f, show, text).0.success
  {
  }

  /** A blank name is refused with "Customer name is required". */
  lemma BlankNameRejected(form: FormState, s: State, editing: Option<Id>, now: int, f: SubmitFaults, show: real -> string, text: real -> string)
    requires Blank(form.name)
    ensures Submitted(form, s, editing, now, f, show, text).1 == s
    ensures Submitted(form, s, editing, now, f, show, text).0.error == NameRequired
  {
  }

  /** A negative amount is refused, for a new customer and an edit alike. */
  lemma NegativeAmountRejected(form: FormState, s: State, editing: Option<Id>, now: int, f: SubmitFaults, show: real -> string, text: real -> string)
    requires !Blank(form.name) && AmountOf(form.amount) < 0.0
    ensures Submitted(form, s, editing, now, f, show, text).1 == s
    ensures Submitted(form, s, editing, now, f, show, text).0.error == NegativeAmount
  {
  }

  /** A new customer whose deposit exceeds the provider's balance is refused
      before the insert; the message starts with the insufficient-balance text. */
  lemma CreateOverBalanceRejected(form: FormState, s: State, now: int, f: SubmitFaults, show: real -> string, text: real -> string)
    requires !Blank(form.name) && AmountOf(form.amount) >= 0.0 && AmountOf(form.amount) > s.shown
    ensures Submitted(form, s, None, now, f, show, text).1 == s
    ensures IsPrefix(InsufficientPrefix, Submitted(form, s, None, now, f, show, text).0.error)
  {
    OverBalanceSave(s, form.name, AmountOf(form.amount), now, f, show, text);
  }

  lemma OverBalanceSave(s: State, name: string, amount: real, now: int, f: SubmitFaults, show: real -> string, text: real -> string)
    requires !Blank(name) && amount >= 0.0 && amount > s.shown
    ensures var r := Save(s, name, amount, None, now, f, show, text);
      r.state == s && r.error.Some? && IsPrefix(InsufficientPrefix, r.error.value)
  {
    var e := InsufficientPrefix + show(s.shown);
    assert e[..|InsufficientPrefix|] == InsufficientPrefix;
  }

  /** An edit is not checked against the balance and makes no wallet call:
      only the row's name and amount change. */
  lemma EditOnlyRewritesRow(form: FormState, s: State, id: Id, now: int, f: SubmitFaults, show: real -> string, text: real -> string)
    requires !Blank(form.name) && AmountOf(form.amount) >= 0.0
    ensures var r := Submitted(form, s, Some(id), now, f, show, text);
      r.1.(customers := s.customers) == s
      && (r.0.success <==> f.update.Ok?)
      && (f.update.Ok? && id in s.customers ==>
            r.1.customers == s.customers[id := s.customers[id].(name := form.name, amount := Some(AmountOf(form.amount)))])
      && (f.update.Fail? ==> r.1 == s && r.0.error == f.update.message)
  {
    assert Validate(form.name, AmountOf(form.amount), s.shown, false, show).None?;
  }

  /** A new customer with amount 0 is inserted without any deduction. */
  lemma CreateZeroNoDeduct(form: FormState, s: State, now: int, f: SubmitFaults, show: real -> string, text: real -> string)
    requires !Blank(form.name) && AmountOf(form.amount) == 0.0 && s.shown >= 0.0 && f.insert.Ok?
    requires FreshIds(s)
    ensures var r := Submitted(form, s, None, now, f, show, text);
      r.0.success
      && Stored(r.1) == Stored(s) && r.1.transactions == s.transactions
      && r.1.customers == s.customers[s.nextId := Customer(form.name, Some(0.0), now, None, None)]
  {
    assert Validate(form.name, 0.0, s.shown, true, show).None?;
  }

  /** When the deduction throws and the compensating delete succeeds, no new
      customer row remains and the wallet is as it was; the message is the
      deduction's, prefixed. */
  lemma FailedDeductCompensated(form: FormState, s: State, now: int, f: SubmitFaults, show: real -> string, text: real -> string)
    requires !Blank(form.name) && 0.0 < AmountOf(form.amount) <= s.shown
    requires f.insert.Ok? && f.delete.Ok? && FreshIds(s)
    requires var c := InsertCustomer(s, Customer(form.name, Some(AmountOf(form.amount)), now, None, None), f.insert).state;
      Deduct(c, AmountOf(form.amount), "Customer deposit: " + form.name, Some(s.nextId), f.ledger).error.Some?
    ensures var r := Submitted(form, s, None, now, f, show, text);
      !r.0.success && IsPrefix(DeductPrefix, r.0.error)
      && r.1.customers == s.customers && SameWallet(r.1.(customers := s.customers, nextId := s.nextId), s)
  {
    CompensatedSave(s, form.name, AmountOf(form.amount), now, f, show, text);
  }

  lemma CompensatedSave(s: State, name: string, a: real, now: int, f: SubmitFaults, show: real -> string, text: real -> string)
    requires !Blank(name) && 0.0 < a <= s.shown
    requires f.insert.Ok? && f.delete.Ok? && FreshIds(s)
    requires var c := InsertCustomer(s, Customer(name, Some(a), now, None, None), f.insert).state;
      Deduct(c, a, "Customer deposit: " + name, Some(s.nextId), f.ledger).error.Some?
    ensures var r := Save(s, name, a, None, now, f, show, text);
      r.error.Some? && IsPrefix(DeductPrefix, r.error.value)
      && r.state.customers == s.customers && SameWallet(r.state.(customers := s.customers, nextId := s.nextId), s)
  {
    assert Validate(name, a, s.shown, true, show).None?;
    var d := DepositFor(InsertCustomer(s, Customer(name, Some(a), now, None, None), f.insert).state, a, name, s.nextId, f.ledger);
    CompensatedRows(s, name, a, now, f);
    var e := DeductPrefix + ErrorMessage(d.error.value, show);
    assert e[..|DeductPrefix|] == DeductPrefix;
  }

  /** The compensating delete removes exactly the row the insert added. */
  lemma CompensatedRows(s: State, name: string, a: real, now: int, f: SubmitFaults)
    requires 0.0 < a && f.insert.Ok? && f.delete.Ok? && FreshIds(s)
    ensures var d := DepositFor(InsertCustomer(s, Customer(name, Some(a), now, None, None), f.insert).state, a, name, s.nextId, f.ledger);
      DeleteCustomer(d.state, s.nextId, f.delete).state.customers == s.customers
  {
    var c := InsertCustomer(s, Customer(name, Some(a), now, None, None), f.insert).state;
    assert c.customers - {s.nextId} == s.customers;
  }

  /** When the compensating delete itself fails, its error is ignored and the
      new row stays although the wallet was not charged. */
  lemma FailedCompensationKeepsRow(form: FormState, s: State, now: int, f: SubmitFaults, show: real -> string, text: real -> string)
    requires !Blank(form.name) && 0.0 < AmountOf(form.amount) <= s.shown
    requires f.insert.Ok? && f.delete.Fail?
    requires var c := InsertCustomer(s, Customer(form.name, Some(AmountOf(form.amount)), now, None, None), f.insert).state;
      Deduct(c, AmountOf(form.amount), "Customer deposit: " + form.name, Some(s.nextId), f.ledger).error.Some?
    ensures var r := Submitted(form, s, None, now, f, show, text);
      !r.0.success && s.nextId in r.1.customers && Stored(r.1) == Stored(s) && r.1.transactions == s.transactions
  {
    KeptRowSave(s, form.name, AmountOf(form.amount), now, f, show, text);
  }

  lemma KeptRowSave(s: State, name: string, a: real, now: int, f: SubmitFaults, show: real -> string, text: real -> string)
    requires !Blank(name) && 0.0 < a <= s.shown
    requires f.insert.Ok? && f.delete.Fail?
    requires var c := InsertCustomer(s, Customer(name, Some(a), now, None, None), f.insert).state;
      Deduct(c, a, "Customer deposit: " + name, Some(s.nextId), f.ledger).error.Some?
    ensures var r := Save(s, name, a, None, now, f, show, text);
      r.error.Some? && s.nextId in r.state.customers && Stored(r.state) == Stored(s)
      && r.state.transactions == s.transactions
  {
    assert Validate(name, a, s.shown, true, show).None?;
  }

  /** A successful create, by the RPC or by the fallback write: the row is
      inserted under the next id, one deposit record for that id follows the
      deduction unless its insert fails, the form is cleared, and a failed
      activity log changes none of that. */
  lemma CreateSucceeds(form: FormState, s: State, now: int, f: SubmitFaults, show: real -> string, text: real -> string)
    requires !Blank(form.name) && 0.0 < AmountOf(form.amount) <= s.shown && FreshIds(s)
    requires f.insert.Ok? && !f.ledger.readFails && !(f.ledger.rpcFails && f.ledger.update.Fail?)
    requires Stored(s) >= AmountOf(form.amount)
    ensures var r := Submitted(form, s, None, now, f, show, text);
      var a := AmountOf(form.amount);
      r.0.success && r.0.name == "" && r.0.amount == "" && r.0.error == ""
      && Stored(r.1) == Stored(s) - a
      && r.1.transactions == s.transactions + (if f.ledger.txInsertFails then [] else [DepositRecord(a, Some(s.nextId))])
      && r.1.customers == s.customers[s.nextId := Customer(form.name, Some(a), now, None, None)]
      && s.activities <= r.1.activities
  {
    CreateSave(s, form.name, AmountOf(form.amount), now, f, show, text);
  }

  lemma CreateSave(s: State, name: string, a: real, now: int, f: SubmitFaults, show: real -> string, text: real -> string)
    requires !Blank(name) && 0.0 < a <= s.shown && FreshIds(s)
    requires f.insert.Ok? && !f.ledger.readFails && !(f.ledger.rpcFails && f.ledger.update.Fail?)
    requires Stored(s) >= a
    ensures var r := Save(s, name, a, None, now, f, show, text);
      r.error.None?
      && Stored(r.state) == Stored(s) - a
      && r.state.transactions == s.transactions + (if f.ledger.txInsertFails then [] else [DepositRecord(a, Some(s.nextId))])
      && r.state.customers == s.customers[s.nextId := Customer(name, Some(a), now, None, None)]
      && s.activities <= r.state.activities
      && (!f.activityFails ==> r.state.activities[|r.state.activities| - 1] == AddedActivity(name, a, s.nextId, text))
  {
    SaveIsCreate(s, name, a, now, f, show, text);
    var d := DepositFor(InsertCustomer(s, Customer(name, Some(a), now, None, None), f.insert).state, a, name, s.nextId, f.ledger);
    CreateDeposit(s, name, a, now, f);
    CreateLogs(s, name, a, now, f, show, text);
    LogKeepsWallet(d.state, AddedActivity(name, a, s.nextId, text), f.activityFails);
    var l := LogActivity(d.state, AddedActivity(name, a, s.nextId, text), f.activityFails);
    assert Save(s, name, a, None, now, f, show, text) == Saved(l, None);
  }

  /** The best-effort log keeps the wallet and only ever appends. */
  lemma LogKeepsWallet(d: State, act: Activity, fails: bool)
    ensures var l := LogActivity(d, act, fails);
      Stored(l) == Stored(d) && l.transactions == d.transactions && l.customers == d.customers
      && d.activities <= l.activities
      && (!fails ==> l.activities[|l.activities| - 1] == act)
  {
  }

  /** After a deduction without error, `Create` ends with the activity log. */
  lemma CreateLogs(s: State, name: string, a: real, now: int, f: SubmitFaults, show: real -> string, text: real -> string)
    requires f.insert.Ok?
    requires DepositFor(InsertCustomer(s, Customer(name, Some(a), now, None, None), f.insert).state, a, name, s.nextId, f.ledger).error.None?
    ensures var d := DepositFor(InsertCustomer(s, Customer(name, Some(a), now, None, None), f.insert).state, a, name, s.nextId, f.ledger);
      Create(s, name, a, now, f, show, text) == Saved(LogActivity(d.state, AddedActivity(name, a, s.nextId, text), f.activityFails), None)
  {
  }

  /** A new customer that passes the checks is saved by `Create`. */
  lemma SaveIsCreate(s: State, name: string, a: real, now: int, f: SubmitFaults, show: real -> string, text: real -> string)
    requires !Blank(name) && 0.0 <= a <= s.shown
    ensures Save(s, name, a, None, now, f, show, text) == Create(s, name, a, now, f, show, text)
  {
    assert Validate(name, a, s.shown, true, show).None?;
  }

  /** The insert and the deduction of a successful create, before the log. */
  lemma CreateDeposit(s: State, name: string, a: real, now: int, f: SubmitFaults)
    requires 0.0 < a && FreshIds(s)
    requires f.insert.Ok? && !f.ledger.readFails && !(f.ledger.rpcFails && f.ledger.update.Fail?)
    requires Stored(s) >= a
    ensures var d := DepositFor(InsertCustomer(s, Customer(name, Some(a), now, None, None), f.insert).state, a, name, s.nextId, f.ledger);
      d.error.None?
      && Stored(d.state) == Stored(s) - a
      && d.state.transactions == s.transactions + (if f.ledger.txInsertFails then [] else [DepositRecord(a, Some(s.nextId))])
      && d.state.customers == s.customers[s.nextId := Customer(name, Some(a), now, None, None)]
      && s.activities <= d.state.activities
  {
    var c := InsertCustomer(s, Customer(name, Some(a), now, None, None), f.insert).state;
    assert Stored(c) == Stored(s);
    assert EnsureRow(c, f.ledger.ensure).state.balanceExists by {
      assert s.balanceExists;
    }
    var d := Deduct(c, a, "Customer deposit: " + name, Some(s.nextId), f.ledger);
    assert d.error.None?;
    assert d.state.activities[..|s.activities|] == s.activities;
  }

  /** The warning flag is raised exactly when a new customer with this name
      and amount would be refused for the balance. */
  lemma FlagAgreesWithCheck(form: FormState, walletBalance: real, show: real -> string)
    requires !Blank(form.name) && AmountOf(form.amount) >= 0.0
    ensures WithFlag(form, walletBalance).insufficient <==>
      Validate(form.name, AmountOf(form.amount), walletBalance, true, show).Some?
  {
  }

  // ------------------------------------------------------------ the component

  class Form {
    var name: string
    var amount: string
    var loading: bool
    var error: string
    var success: bool
    var insufficient: bool

    function Snapshot(): FormState
      reads this
    {
      FormState(name, amount, loading, error, success, insufficient)
    }

    /** An empty form. */
    constructor ()
      ensures Snapshot() == FormState("", "", false, "", false, false)
    {
      name, amount := "", "";
      loading, error, success, insufficient := false, "", false, false;
    }

    /** The balance-flag effect. */
    method CheckBalance(walletBalance: real)
      modifies this
      ensures Snapshot() == WithFlag(old(Snapshot()), walletBalance)
    {
      insufficient := AmountOf(amount) > walletBalance;
    }

    method OnAmountChange(value: string)
      modifies this
      ensures Snapshot() == old(Snapshot()).(amount := GuardedAmount(old(amount), value))
    {
      if value == "" || MatchesAmount(value, false) {
        amount := value;
      }
    }

    /** The writes of a new customer: insert, deduct, compensate, log. */
    method CreateCustomer(w: Wallet, name: string, amountNum: real, now: int, f: SubmitFaults, show: real -> string, text: real -> string)
      returns (err: Option<string>)
      requires w.Valid()
      modifies w
      ensures w.Valid()
      ensures Saved(w.Snapshot(), err) == Create(old(w.Snapshot()), name, amountNum, now, f, show, text)
    {
      var id := w.InsertCustomerRow(Customer(name, Some(amountNum), now, None, None), f.insert);
      if id.None? {
        return Some(f.insert.message);
      }
      if amountNum > 0.0 {
        var e := w.DeductFromWallet(amountNum, "Customer deposit: " + name, Some(id.value), f.ledger);
        if e.Some? {
          var _ := w.DeleteCustomerRow(id.value, f.delete);
          return Some(DeductPrefix + ErrorMessage(e.value, show));
        }
      }
      w.LogDailyActivity(AddedActivity(name, amountNum, id.value, text), f.activityFails);
      return None;
    }

    method SaveCustomer(w: Wallet, name: string, amountNum: real, editing: Option<Id>, now: int, f: SubmitFaults, show: real -> string, text: real -> string)
      returns (err: Option<string>)
      requires w.Valid()
      modifies w
      ensures w.Valid()
      ensures Saved(w.Snapshot(), err) == Save(old(w.Snapshot()), name, amountNum, editing, now, f, show, text)
    {
      err := Validate(name, amountNum, w.shown, editing.None?, show);
      if err.Some? {
        return;
      }
      if editing.Some? {
        var ok := w.UpdateCustomerRow(editing.value, name, amountNum, f.update);
        if !ok {
          err := Some(f.update.message);
        }
      } else {
        err := CreateCustomer(w, name, amountNum, now, f, show, text);
      }
    }

    method ShowResult(err: Option<string>, editing: bool)
      modifies this
      ensures Snapshot() == Finish(old(Snapshot()), err, editing)
    {
      if err.Some? {
        error := err.value;
        success := false;
      } else {
        error, success := "", true;
        if !editing {
          name, amount := "", "";
        }
      }
      loading := false;
    }

    method Submit(w: Wallet, editing: Option<Id>, now: int, f: SubmitFaults, show: real -> string, text: real -> string)
      requires w.Valid()
      modifies this, w
      ensures w.Valid()
      ensures (Snapshot(), w.Snapshot()) == Submitted(old(Snapshot()), old(w.Snapshot()), editing, now, f, show, text)
    {
      ghost var form0, s0 := Snapshot(), w.Snapshot();
      var customerName, amountNum := name, AmountOf(amount);
      loading, error, success := true, "", false;
      var err := SaveCustomer(w, customerName, amountNum, editing, now, f, show, text);
      ghost var saved := Save(s0, form0.name, AmountOf(form0.amount), editing, now, f, show, text);
      assert saved == Saved(w.Snapshot(), err);
      ShowResult(err, editing.Some?);
      assert Submitted(form0, s0, editing, now, f, show, text) == (Snapshot(), saved.state);
    }
  }
}
