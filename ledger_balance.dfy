/** Reconciling the stored balance of src/contexts/WalletContext.jsx with its
    `transactions` table: when every write goes through, the balance moves by
    exactly what the records say; the best-effort record insert is where the
    two can drift apart. */
module LedgerBalance {
  import opened Common
  import opened WalletContext

  /** Top-ups in, customer deposits and withdrawals out. */
  function Net(txs: seq<Tx>): real
  {
    TotalOf(txs, TopUpKind) - TotalOf(txs, DepositKind) - TotalOf(txs, WithdrawalKind)
  }

  /** Appending one record moves the net by its signed amount. */
  lemma NetAppend(txs: seq<Tx>, t: Tx)
    ensures Net(txs + [t]) == Net(txs)
      + (if t.kind == TopUpKind then TxAmount(t) else 0.0)
      - (if t.kind == DepositKind || t.kind == WithdrawalKind then TxAmount(t) else 0.0)
  {
    TotalOfAppend(txs, [t], TopUpKind);
    TotalOfAppend(txs, [t], DepositKind);
    TotalOfAppend(txs, [t], WithdrawalKind);
    var one: seq<Tx> := [t];
    assert one[1..] == [];
  }

  /** The balance is the opening balance plus the net of the records. */
  predicate Reconciled(s: State, opening: real)
  {
    Stored(s) == opening + Net(s.transactions)
  }

  /** The faults under which the balance write and the record both go
      through: the RPC succeeds and the insert into `transactions` does. */
  predicate Written(f: LedgerFaults)
  {
    !f.rpcFails && !f.txInsertFails
  }

  /** A top-up on an existing row keeps the balance reconciled when both of
      its writes go through. */
  lemma TopUpReconciles(s: State, amount: real, f: LedgerFaults, show: real -> string, opening: real)
    requires s.balanceExists && Written(f) && Reconciled(s, opening)
    ensures Reconciled(TopUp(s, amount, f, show).state, opening)
  {
    NetAppend(s.transactions, TopUpRecord(amount));
  }

  /** So does a deduct, whether it goes through or is refused for want of
      money. */
  lemma DeductReconciles(s: State, amount: real, description: string, customerId: Option<Id>,
                         f: LedgerFaults, opening: real)
    requires s.balanceExists && Written(f) && Reconciled(s, opening)
    ensures Reconciled(Deduct(s, amount, description, customerId, f).state, opening)
  {
    NetAppend(s.transactions, DepositRecord(amount, customerId));
  }

  /** A failed record insert is ignored, so a top-up of a nonzero amount
      whose insert fails leaves the balance out of step with the records. */
  lemma LostRecordDrifts(s: State, amount: real, f: LedgerFaults, show: real -> string, opening: real)
    requires s.balanceExists && !f.rpcFails && f.txInsertFails && amount != 0.0
    requires Reconciled(s, opening)
    ensures !Reconciled(TopUp(s, amount, f, show).state, opening)
  {
  }

  /** A top-up or a deduct, with what fails during it. */
  datatype Op = TopUpOp(amount: real, f: LedgerFaults, show: real -> string)
              | DeductOp(amount: real, description: string, customerId: Option<Id>, f: LedgerFaults)

  /** One operation applied to the store. */
  function Apply(s: State, op: Op): State
  {
    match op
    case TopUpOp(amount, f, show) => TopUp(s, amount, f, show).state
    case DeductOp(amount, description, customerId, f) => Deduct(s, amount, description, customerId, f).state
  }

  function Run(s: State, ops: seq<Op>): State
    decreases |ops|
  {
    if ops == [] then s else Run(Apply(s, ops[0]), ops[1..])
  }

  predicate AllWritten(ops: seq<Op>)
  {
    forall i :: 0 <= i < |ops| ==> Written(ops[i].f)
  }

  /** One written operation keeps the row and the reconciliation. */
  lemma ApplyReconciles(s: State, op: Op, opening: real)
    requires s.balanceExists && Written(op.f) && Reconciled(s, opening)
    ensures Apply(s, op).balanceExists && Reconciled(Apply(s, op), opening)
  {
    match op
    case TopUpOp(amount, f, show) =>
      TopUpReconciles(s, amount, f, show, opening);
    case DeductOp(amount, description, customerId, f) =>
      DeductReconciles(s, amount, description, customerId, f, opening);
  }

  /** A run of top-ups and deducts whose writes all go through keeps the
      balance reconciled; from a row at 0 with no records, the balance is
      always the net of the records. */
  lemma {:induction false} RunReconciles(s: State, ops: seq<Op>, opening: real)
    requires s.balanceExists && AllWritten(ops) && Reconciled(s, opening)
    ensures Run(s, ops).balanceExists
    ensures Reconciled(Run(s, ops), opening)
    decreases |ops|
  {
    if ops != [] {
      ApplyReconciles(s, ops[0], opening);
      assert AllWritten(ops[1..]) by {
        assert forall i :: 1 <= i < |ops| ==> ops[1..][i - 1] == ops[i];
      }
      RunReconciles(Apply(s, ops[0]), ops[1..], opening);
    }
  }
}
