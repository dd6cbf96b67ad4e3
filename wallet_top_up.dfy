/** The top-up dialog of src/components/WalletTopUp.jsx: validate the typed
    amount, call the ledger's top-up, and show the outcome. */
module WalletTopUp {
  import opened Common
  import opened Text
  import opened WalletContext

  const InvalidAmount := "Please enter a valid amount"
  const DefaultFailure := "Failed to top up wallet. Please try again."

  /** The dialog's React state. */
  datatype TopUpState = TopUpState(amount: string, loading: bool, error: string, success: bool)

  /** The guard of line 23 as written: `!amount || amountNum <= 0` refuses
      the empty text and any number at most 0, but NaN compares false and
      passes. */
  predicate AcceptedAsWritten(amount: string)
  {
    !(amount == "" || (ParseFloat(amount).Some? && ParseFloat(amount).value <= 0.0))
  }

  /** Text holding no digit, such as ".", passes the guard as written although
      it parses to NaN, and NaN would reach `topUpWallet`. */
  lemma DotPassesAsWritten()
    ensures AcceptedAsWritten(".") && ParseFloat(".").None?
  {
    var dot := ".";
    NoLeadingSpace(dot);
    assert !IsDigit(dot[0]);
    assert LeadingDigits(dot) == "";
    assert dot[0..] == dot;
    assert LeadingDigits(dot[1..]) == "";
    assert ParseDecimal(dot) == None;
  }

  /** The intended validation: the text must parse to a number above 0;
      the result is that number. */
  function Validated(amount: string): (r: Option<real>)
    ensures r.Some? ==> r.value > 0.0 && ParseFloat(amount) == Some(r.value)
    ensures r.None? ==> ParseFloat(amount).None? || ParseFloat(amount).value <= 0.0
  {
    var n := ParseFloat(amount);
    if n.Some? && n.value > 0.0 then n else None
  }

  /** On text that parses, the intended validation and the guard as written
      agree; they differ only on NaN. */
  lemma ValidatedAgreesOnNumbers(amount: string)
    requires ParseFloat(amount).Some?
    ensures Validated(amount).Some? <==> AcceptedAsWritten(amount)
  {
    EmptyIsNaN();
  }

  /** Text accepted by the input guard is refused exactly when it holds no
      digit or parses to 0. */
  lemma GuardedTextValidated(amount: string)
    requires AmountText(amount)
    ensures Validated(amount).None? <==>
      !HasDigit(amount) || ParseFloat(amount) == Some(0.0)
  {
    AmountTextParse(amount);
  }

  /** The message shown for a failed top-up: `err.message` or the default. */
  function FailureText(e: LedgerError, show: real -> string): (r: string)
    ensures r != ""
    ensures ErrorMessage(e, show) != "" ==> r == ErrorMessage(e, show)
  {
    var m := ErrorMessage(e, show);
    if m == "" then DefaultFailure else m
  }

  /** `handleSubmit` (lines 18-56). A refused amount only sets the error. */
  function Submitted(form: TopUpState, s: State, f: LedgerFaults, show: real -> string): (r: (TopUpState, State))
    ensures Validated(form.amount).None? ==> r.1 == s && r.0.error == InvalidAmount
    ensures r.1.customers == s.customers
    // the field is emptied only by a successful top-up
    ensures r.0.amount == form.amount || (r.0.success && r.0.amount == "")
  {
    match Validated(form.amount)
    case None => (form.(error := InvalidAmount), s)
    case Some(v) =>
      var o := TopUp(s, v, f, show);
      if o.error.Some? then (form.(loading := false, error := FailureText(o.error.value, show), success := false), o.state)
      else (form.(amount := "", loading := false, error := "", success := true), o.state)
  }

  /** The "New Balance" preview (line 204). */
  function Preview(walletBalance: real, amount: string): (r: real)
    ensures ParseFloat(amount).Some? ==> r == walletBalance + ParseFloat(amount).value
    ensures ParseFloat(amount).None? ==> r == walletBalance
  {
    walletBalance + ParseOr0(amount)
  }

  // ------------------------------------------------------------ properties

  /** A refused amount never reaches the ledger. */
  lemma RefusedAmountNoTopUp(form: TopUpState, s: State, f: LedgerFaults, show: real -> string)
    requires Validated(form.amount).None?
    ensures Submitted(form, s, f, show) == (form.(error := InvalidAmount), s)
  {
  }

  /** After a top-up that was attempted the dialog is not loading; it either
      shows success with an emptied field or a non-empty error without success. */
  lemma SubmitOutcome(form: TopUpState, s: State, f: LedgerFaults, show: real -> string)
    requires Validated(form.amount).Some?
    ensures var r := Submitted(form, s, f, show);
      !r.0.loading
      && (r.0.success <==> !(f.rpcFails && f.update.Fail?))
      && (r.0.success ==> r.0.amount == "" && r.0.error == "")
      && (!r.0.success ==> r.0.error != "" && r.0.amount == form.amount && SameWallet(r.1, s))
  {
  }

  /** A successful top-up raises the stored balance by the previewed amount,
      unless the degraded write path had no balance to start from. */
  lemma PreviewIsResult(form: TopUpState, s: State, f: LedgerFaults, show: real -> string)
    requires Validated(form.amount).Some? && RowReady(s, f)
    requires !(f.rpcFails && f.readFails) && !(f.rpcFails && f.update.Fail?)
    ensures Stored(Submitted(form, s, f, show).1) == Preview(Stored(s), form.amount)
  {
  }

  /** The page previews from the provider's balance, not the stored one: the
      preview is the balance after a successful top-up exactly when the
      provider's balance is up to date. After a failed read it is 0, so the
      preview then falls short of the result by the stored balance. */
  lemma PreviewMatchesIffFresh(form: TopUpState, s: State, f: LedgerFaults, show: real -> string)
    requires Validated(form.amount).Some? && RowReady(s, f)
    requires !(f.rpcFails && f.readFails) && !(f.rpcFails && f.update.Fail?)
    ensures Stored(Submitted(form, s, f, show).1) == Preview(s.shown, form.amount) <==> s.shown == Stored(s)
  {
    PreviewIsResult(form, s, f, show);
  }

  /** An empty field previews the current balance. */
  lemma PreviewEmpty(walletBalance: real)
    ensures Preview(walletBalance, "") == walletBalance
  {
    EmptyIsNaN();
  }

  class Dialog {
    var amount: string
    var loading: bool
    var error: string
    var success: bool

    function Snapshot(): TopUpState
      reads this
    {
      TopUpState(amount, loading, error, success)
    }

    constructor ()
      ensures Snapshot() == TopUpState("", false, "", false)
    {
      amount, loading, error, success := "", false, "", false;
    }

    method OnAmountChange(value: string)
      modifies this
      ensures Snapshot() == old(Snapshot()).(amount := GuardedAmount(old(amount), value))
    {
      if value == "" || MatchesAmount(value, false) {
        amount := value;
      }
    }

    method Submit(w: Wallet, f: LedgerFaults, show: real -> string)
      modifies this, w
      ensures (Snapshot(), w.Snapshot()) == Submitted(old(Snapshot()), old(w.Snapshot()), f, show)
    {
      var amountNum := Validated(amount);
      if amountNum.None? {
        error := InvalidAmount;
        return;
      }
      loading, error, success := true, "", false;
      var err := w.TopUpWallet(amountNum.value, f, show);
      if err.Some? {
        error := FailureText(err.value, show);
      } else {
        success := true;
        amount := "";
      }
      loading := false;
    }
  }
}
