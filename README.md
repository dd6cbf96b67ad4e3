# Wallet ledger of a small-business customer-deposit app

This project models the core of a React front end for a small business. The
business keeps one prepaid wallet on a hosted Postgres backend, and its
customers' deposits are paid out of that wallet. The model covers:

- **The wallet ledger** (`WalletContext`, in `wallet_context.dfy`). There is one
  balance row. The ledger creates that row lazily and reads it with a soft
  fallback to 0. Top-ups and deducts first write the balance, through an RPC or
  a read-then-write fallback. They then append a transaction record and an
  activity entry, both best effort. The class `WalletContext.Wallet` performs
  these steps in place, and each method is proved equal to a specification
  function on the immutable `State`.
- **Balance reconciliation** (`LedgerBalance`). When every write goes through,
  the stored balance stays equal to the opening balance plus the net of the
  transaction records.
- **The customer form** (`CustomerForm`). It validates the input. A new
  customer is inserted, then the deposit is deducted from the wallet, and the
  row is deleted again when that deduction throws. An edit only rewrites the
  row.
- **The top-up dialog** (`WalletTopUp`) and the amount-field input guard
  (`Text.GuardedAmount`).
- **The reporting pages**:
  - the daily statement and its CSV file (`Reports`);
  - the transaction totals, signs and labels (`Transactions`);
  - the customer list's statistics, search, relative times, CSV export and
    delete (`Customers`, `CustomerTable`);
  - the dashboard's loop over the day's records (`Dashboard`).
- **Settings** (`Settings`): the password-change checks, the notification
  switches, and the two-step "clear data" confirmation.
- **Login** (`Login`): the wording of authentication errors and the switch
  between the sign-in and sign-up modes.

The model uses these conventions:

- Amounts are exact `real`s.
- `x || 0` on a possibly-null amount is `Common.AmountOr0`.
- Every call to the backend is a step that may fail. A `bool` flag marks a
  failure the code ignores or turns into a default. `Common.Call`, which is
  `Ok` or `Fail(message)`, marks a failure whose message the code rethrows.
- The start of the day and the elapsed milliseconds are inputs.
- Locale number formatting is a `show: real -> string` parameter.

## Model

| member | source | states |
|---|---|---|
| WalletContext.EnsureRow | src/contexts/WalletContext.jsx:38-76 | the row is inserted at 0 only when the lookup succeeds and finds none; an existing balance is never altered; success iff the lookup and any needed insert succeed |
| WalletContext.EnsureIdempotent | src/contexts/WalletContext.jsx:38-76 | after one successful call, a second call changes nothing |
| WalletContext.ReadBalance | src/contexts/WalletContext.jsx:84-99 | `data?.balance \|\| 0`: 0 on a read error or missing row, else the stored balance |
| WalletContext.Fetch | src/contexts/WalletContext.jsx:78-102 | the wallet's tables are unchanged; the provider's balance becomes the stored balance, or 0 after a read error |
| WalletContext.ApplyDelta | src/contexts/WalletContext.jsx:123-147 | RPC adds the delta; on RPC failure the fallback writes the earlier read plus the delta; the write fails only when both fail, and then nothing changes |
| WalletContext.RecordTx | src/contexts/WalletContext.jsx:159-181 | a failed insert is ignored; otherwise exactly the one record is appended and nothing else changes |
| WalletContext.LogActivity | src/contexts/WalletContext.jsx:167-181 | a failed activity log is swallowed; otherwise exactly the one entry is appended |
| WalletContext.TopUp | src/contexts/WalletContext.jsx:104-199 | the only error is a failed balance write, thrown before any record; on success one completed `topup` record with no customer, balance + amount (the degraded path after a failed read overwrites with the amount), activity appended unless it fails, customers untouched; on the error path the provider's balance is also left as it was |
| WalletContext.Deduct | src/contexts/WalletContext.jsx:201-282 | current balance below the amount: `Insufficient` and nothing written; failed write: error before any record; success iff sufficient and the write succeeds; then one completed `customer_deposit` record carrying the customer, balance − amount; a balance ≥ 0 stays ≥ 0 |
| WalletContext.DeductWrite | src/contexts/WalletContext.jsx:220-275 | the part after the sufficiency check: error iff both writes fail, record and activity appended only on success |
| WalletContext.TopUpFallbackAfterFailedRead | src/contexts/WalletContext.jsx:113-147 | when the read and the RPC both fail, the fallback overwrites the balance with just the amount |
| WalletContext.TopUpWrite | src/contexts/WalletContext.jsx:121-196 | after the read of `current`: error iff both balance writes fail, and then the wallet is as it was; on success the row grows by the amount (from `current` on the fallback path); customers untouched |
| WalletContext.DeductChecked | src/contexts/WalletContext.jsx:216-275 | `current` below the amount throws `Insufficient(current)` and writes nothing; otherwise success iff a balance write succeeds, and then the row drops by the amount (from `current` on the fallback path) |
| WalletContext.LedgerKeepsFreshIds | src/contexts/WalletContext.jsx:104-282 | top-ups and deducts keep every customer id below the next id |
| WalletContext.History | src/contexts/WalletContext.jsx:300-317 | an error yields the empty list; otherwise the newest `min(limit, n)` records, newest first |
| WalletContext.FilterSumIsTotal | src/pages/Reports.jsx:96-102 | `filter(type === kind).reduce(sum + amount)` equals the per-kind total |
| WalletContext.InsertCustomer | src/components/CustomerForm.jsx:76-85 | the insert succeeds iff the call does; on success the row is stored under the next id and the id counter advances by one; that id was unused whenever every stored id is below the counter (`FreshIds`), which the insert keeps; balance, records and activity are untouched |
| WalletContext.UpdateCustomer | src/components/CustomerForm.jsx:63-71 | only the edited row's name and amount change; no other row, no wallet field |
| WalletContext.DeleteCustomer | src/components/CustomerTable.jsx:116-120 | on success exactly the row's id is removed; nothing else changes |
| WalletContext.Wallet.constructor | src/contexts/WalletContext.jsx:8-10 | the provider's balance starts at 0, with no balance row and empty tables, and the id counter is valid |
| WalletContext.Wallet.EnsureBalanceRow | src/contexts/WalletContext.jsx:38-76 | the in-place step equals `EnsureRow` |
| WalletContext.Wallet.FetchBalance | src/contexts/WalletContext.jsx:78-102 | the in-place step equals `Fetch` |
| WalletContext.Wallet.TopUpWallet | src/contexts/WalletContext.jsx:104-199 | the in-place sequence of calls equals `TopUp` |
| WalletContext.Wallet.DeductFromWallet | src/contexts/WalletContext.jsx:201-282 | the in-place sequence of calls equals `Deduct` |
| WalletContext.Wallet.WriteTopUp | src/contexts/WalletContext.jsx:121-196 | the write, record, activity and refresh after the balance read equal `TopUpWrite` |
| WalletContext.Wallet.CheckAndWrite | src/contexts/WalletContext.jsx:216-275 | the sufficiency check and what follows it equal `DeductChecked` |
| WalletContext.Wallet.InsertCustomerRow | src/components/CustomerForm.jsx:76-85 | on a valid wallet, the in-place insert equals `InsertCustomer`, returns the next id on success and keeps the wallet valid |
| WalletContext.Wallet.UpdateCustomerRow | src/components/CustomerForm.jsx:63-71 | the in-place update equals `UpdateCustomer` and keeps the wallet valid |
| WalletContext.Wallet.DeleteCustomerRow | src/components/CustomerTable.jsx:116-120 | the in-place delete equals `DeleteCustomer` and keeps the wallet valid |
| LedgerBalance.NetAppend | src/contexts/WalletContext.jsx:159-165 | one appended record moves the net by its signed amount |
| LedgerBalance.TopUpReconciles | src/contexts/WalletContext.jsx:104-199 | with both writes through, a top-up keeps balance = opening + net of records |
| LedgerBalance.DeductReconciles | src/contexts/WalletContext.jsx:201-282 | with both writes through, a deduct (done or refused) keeps the balance reconciled |
| LedgerBalance.LostRecordDrifts | src/contexts/WalletContext.jsx:167-172 | an ignored record insert leaves a nonzero top-up unreconciled |
| LedgerBalance.RunReconciles | src/contexts/WalletContext.jsx:104-282 | any sequence of fully written top-ups and deducts keeps the row and the reconciliation |
| Text.MatchesAmountIff | src/components/CustomerForm.jsx:163 | the `^\d*\.?\d*$` test accepts exactly digit-and-dot text with at most one dot |
| Text.GuardedAmount | src/components/WalletTopUp.jsx:160-164 | the field becomes the typed value or keeps its previous one |
| Text.GuardedAmountShape | src/components/CustomerForm.jsx:161-167 | the typed value is taken iff it is empty or digits with at most one dot; any other input leaves the field unchanged |
| Text.AmountTextParse | src/components/CustomerForm.jsx:29 | text the guard accepts never parses negative, and parses to NaN iff it holds no digit |
| Text.NatTextParses | src/components/CustomerForm.jsx:22 | a whole amount written with `toString` parses back to itself |
| Text.TrimEmptyIffBlank | src/components/CustomerForm.jsx:44 | `name.trim()` is empty iff the name is all white space in the sense of `String.prototype.trim`: tab, vertical tab, form feed, BOM, line terminators and every Unicode space separator |
| Text.BlankTrimsToEmpty | src/components/CustomerForm.jsx:44 | an all-white-space name trims to the empty text |
| Text.NonBlankKeepsText | src/components/CustomerForm.jsx:44 | a name with any other character trims to non-empty text |
| Text.IdeographicSpaceIsBlank | src/components/CustomerForm.jsx:44 | a name made of U+3000 alone is blank and trims to empty text, as `trim` treats every space separator |
| Text.ContainsIffOccurs | src/pages/Customers.jsx:115-117 | `includes` holds iff the term occurs at some position |
| Text.SplitJoin | src/pages/Reports.jsx:586-597 | joining fields free of the separator and splitting again gives back the fields |
| CustomerForm.Validate | src/components/CustomerForm.jsx:44-56 | no error iff the name is not blank, the amount ≥ 0 and, when creating, not above the balance; blank name wins, then negative amount |
| CustomerForm.Create | src/components/CustomerForm.jsx:76-121 | a failed insert writes nothing and throws its message; a successful insert advances the id counter; success keeps the row under the next id; a zero deposit never touches balance or records |
| CustomerForm.Edit | src/components/CustomerForm.jsx:61-73 | success iff the update succeeds; a failed update writes nothing and throws its message; only the customers table can change |
| CustomerForm.Save | src/components/CustomerForm.jsx:37-121 | nothing is saved without a non-blank name, an amount ≥ 0 and, for a new customer, an amount within the balance; an edit touches only the customers table |
| CustomerForm.Submitted | src/components/CustomerForm.jsx:37-151 | never loading afterwards; success iff the save raised no error, and then no error is shown; only a successful create empties the fields, every other outcome keeps them |
| CustomerForm.InvalidWritesNothing | src/components/CustomerForm.jsx:44-56 | any validation failure leaves the store unchanged and shows no success |
| CustomerForm.BlankNameRejected | src/components/CustomerForm.jsx:44-46 | a blank name fails with "Customer name is required" before any write |
| CustomerForm.NegativeAmountRejected | src/components/CustomerForm.jsx:48-52 | a negative amount fails before any write, for create and edit alike |
| CustomerForm.CreateOverBalanceRejected | src/components/CustomerForm.jsx:54-56 | a new customer above the balance fails with the insufficient-balance text before the insert |
| CustomerForm.OverBalanceSave | src/components/CustomerForm.jsx:54-56 | for any amount above the balance, the save writes nothing and reports the insufficient-balance text |
| CustomerForm.EditOnlyRewritesRow | src/components/CustomerForm.jsx:61-73 | an edit skips the balance check and changes only the row's name and amount; success iff the update succeeds |
| CustomerForm.CreateZeroNoDeduct | src/components/CustomerForm.jsx:76-90 | amount 0 inserts the row with no deduction and no record |
| CustomerForm.FailedDeductCompensated | src/components/CustomerForm.jsx:92-107 | a failed deduction with a successful delete leaves no new row, the wallet as it was, and an error prefixed "Failed to deduct from wallet: " |
| CustomerForm.CompensatedSave | src/components/CustomerForm.jsx:92-107 | the same for the save on any positive amount: the new row is deleted, the wallet is unchanged, the error is prefixed |
| CustomerForm.FailedCompensationKeepsRow | src/components/CustomerForm.jsx:102-106 | a failed compensating delete is ignored and the uncharged row stays |
| CustomerForm.KeptRowSave | src/components/CustomerForm.jsx:102-106 | the same for the save on any positive amount: the row stays, balance and records unchanged |
| CustomerForm.CreateSucceeds | src/components/CustomerForm.jsx:76-137 | whenever the balance read succeeds and one of the two balance writes (RPC or fallback update) goes through, a create within the balance succeeds: the row is inserted, the balance drops by the amount, one deposit record for its id is appended unless that insert fails, and the form is cleared, whether or not the activity log fails |
| CustomerForm.CreateSave | src/components/CustomerForm.jsx:76-137 | the same for the save on any positive amount within the balance, by the RPC or the fallback write: no error, row under the next id, balance lowered, one deposit record unless its insert fails, and the `customer_added` entry last unless the log fails |
| CustomerForm.FlagAgreesWithCheck | src/components/CustomerForm.jsx:28-35 | the insufficient-balance flag is raised exactly when the create check would refuse the amount |
| CustomerForm.Form.Submit | src/components/CustomerForm.jsx:37-151 | the in-place handler equals `Submitted` on the form and the store |
| CustomerForm.Form.CreateCustomer | src/components/CustomerForm.jsx:76-121 | on a valid wallet, the in-place insert, deduction, compensation and log equal `Create` and keep the wallet valid |
| CustomerForm.Form.SaveCustomer | src/components/CustomerForm.jsx:37-121 | the in-place checks and writes equal `Save` and keep the wallet valid |
| CustomerForm.Form.OnAmountChange | src/components/CustomerForm.jsx:161-167 | the field becomes `GuardedAmount` of the old text and the typed value |
| CustomerForm.Form.CheckBalance | src/components/CustomerForm.jsx:28-35 | the effect sets only the insufficient flag |
| WalletTopUp.DotPassesAsWritten | src/components/WalletTopUp.jsx:22-26 | "." passes the guard as written although it parses to NaN |
| WalletTopUp.Validated | src/components/WalletTopUp.jsx:22-26 | accepted amounts are positive and equal to what `parseFloat` yields |
| WalletTopUp.ValidatedAgreesOnNumbers | src/components/WalletTopUp.jsx:22-26 | on text that parses, the intended check and the written guard agree |
| WalletTopUp.GuardedTextValidated | src/components/WalletTopUp.jsx:22-26 | guarded text is refused iff it has no digit or parses to 0 |
| WalletTopUp.FailureText | src/components/WalletTopUp.jsx:50 | the shown error is the thrown message, or the default when that is empty; never empty |
| WalletTopUp.RefusedAmountNoTopUp | src/components/WalletTopUp.jsx:22-26 | a refused amount sets "Please enter a valid amount" and leaves the store untouched |
| WalletTopUp.Submitted | src/components/WalletTopUp.jsx:18-56 | a refused amount sets "Please enter a valid amount" and writes nothing; customers are never touched; the field is emptied only by a successful top-up |
| WalletTopUp.Preview | src/components/WalletTopUp.jsx:204 | the balance plus the parsed amount, or the balance itself when the text does not parse |
| WalletTopUp.SubmitOutcome | src/components/WalletTopUp.jsx:28-55 | not loading afterwards; success iff the balance write succeeds; success empties the field, failure keeps it, shows an error and changes no balance |
| WalletTopUp.PreviewIsResult | src/components/WalletTopUp.jsx:204 | the stored balance plus the typed amount, as the preview computes it, is the stored balance after a successful top-up |
| WalletTopUp.PreviewMatchesIffFresh | src/components/WalletTopUp.jsx:204 | the page's preview, taken from the provider's balance, equals the stored balance after a successful top-up exactly when the provider's balance is up to date; a stale one (0 after a failed read) previews too little |
| WalletTopUp.PreviewEmpty | src/components/WalletTopUp.jsx:204 | an empty field previews the current balance |
| WalletTopUp.Dialog.Submit | src/components/WalletTopUp.jsx:18-56 | the in-place handler equals `Submitted` |
| Reports.StatsAreKindTotals | src/pages/Reports.jsx:96-116 | the three totals are the per-kind totals; counts are the list lengths; closing = current balance |
| Reports.EmptyDay | src/pages/Reports.jsx:83-94 | with no transactions, opening = closing = balance, totals 0, count 0 |
| Reports.StatsFromTotals | src/pages/Reports.jsx:82-116 | `calculateDailyStats` with or without transactions is the record built from the three per-kind totals, the counts, opening = balance + deposits + withdrawals − top-ups, and closing = balance |
| Reports.CalculateDailyStats | src/pages/Reports.jsx:82-116 | no contract of its own: the two branches as written; `StatsAreKindTotals`, `StatsFromTotals`, `EmptyDay`, `NetMovement` and `OtherKindOnlyCounted` state what it computes |
| Reports.NetMovement | src/pages/Reports.jsx:105-106 | closing − opening = top-ups − deposits − withdrawals |
| Reports.OtherKindOnlyCounted | src/pages/Reports.jsx:96-112 | a record of any other kind only raises the count |
| Reports.DepositsHeldAppend | src/pages/Reports.jsx:89 | each customer adds its amount, a missing one 0 |
| Reports.TypeLabel | src/pages/Reports.jsx:128-139 | the three known kinds get their labels; any other kind is returned unchanged, and only then |
| Reports.CsvRow | src/pages/Reports.jsx:587-596 | the data row has as many values as the 8 headers |
| Reports.CsvReadsBack | src/pages/Reports.jsx:582-597 | the file reads back as two lines: the 8 headers, and the 8 values in order |
| Reports.CsvLines | src/pages/Reports.jsx:582-597 | the file splits at line breaks into exactly the header line and the row |
| Reports.CsvReport | src/pages/Reports.jsx:582-597 | no contract of its own: the header line and the data row joined by a line break; `CsvReadsBack` and `CsvLines` state how it reads back |
| Transactions.TotalsByKind | src/pages/Transactions.jsx:116-133 | money in = top-up total; money out = deposit + withdrawal totals; net = in − out; count = all records |
| Transactions.CalculateTotals | src/pages/Transactions.jsx:116-133 | no contract of its own: the two filtered sums, their difference and the count; `TotalsByKind` ties them to the per-kind totals |
| Transactions.NetFlowIsDailyMovement | src/pages/Transactions.jsx:125 | net flow equals the daily statement's closing − opening balance |
| Transactions.AmountSign | src/pages/Transactions.jsx:103-113 | "+" exactly for top-ups, "-" exactly for the two outgoing kinds, "" otherwise |
| Transactions.SignMatchesTotals | src/pages/Transactions.jsx:103-123 | the sign agrees with which total a record counts toward |
| Transactions.TransactionLabel | src/pages/Transactions.jsx:54-65 | the known kinds get their labels; an unknown kind is returned as is, and only then |
| Customers.TodayWithinAll | src/pages/Customers.jsx:78-91 | today's count ≤ all; with no negative deposit, 0 ≤ today's total ≤ all |
| Customers.CalculateStats | src/pages/Customers.jsx:74-91 | no contract of its own: the today filter, both totals and the average; `TodayWithinAll`, `AverageTimesCount`, `TodayMembers` and `AllTodayAgree` state its properties |
| Customers.IsToday | src/pages/Customers.jsx:184-189 | no contract of its own: created today, or updated today; `TodayMembers` ties it to the statistics |
| Customers.AverageTimesCount | src/pages/Customers.jsx:85-86 | average × count = total (0 for no customers) |
| Customers.TodayMembers | src/pages/Customers.jsx:78-82 | the today list holds exactly the customers the row badge marks as today's |
| Customers.AllTodayAgree | src/pages/Customers.jsx:78-86 | with everyone created today, today's figures are the all-time ones |
| Customers.SearchKeepsMatches | src/pages/Customers.jsx:115-117 | the search keeps exactly the names containing the term, case-folded; an empty term keeps all |
| Customers.Filtered | src/pages/Customers.jsx:115-117 | no contract of its own: the case-folded `includes` filter; `SearchKeepsMatches` states what it keeps |
| Customers.BucketThresholds | src/pages/Customers.jsx:131-148 | minutes under an hour, hours under a day, days under a week, else a date; the count is whole units elapsed |
| Customers.SingularExactlyForOne | src/pages/Customers.jsx:140-145 | the plural "s" is omitted exactly for a count of 1 |
| Customers.RelativeTime | src/pages/Customers.jsx:131-148 | no contract of its own: the text for each bucket; `BucketThresholds` and `SingularExactlyForOne` state the buckets and the plural |
| Customers.ExportFields | src/pages/Customers.jsx:154-160 | each exported line has the 5 header fields |
| Customers.ExportReadsBack | src/pages/Customers.jsx:150-161 | the CSV is one header line plus one line per listed customer, each splitting back to its 5 fields in order |
| Customers.ExportSplitsIntoLines | src/pages/Customers.jsx:150-161 | the file splits at line breaks into the header line and one line per listed customer |
| Customers.ExportCsv | src/pages/Customers.jsx:150-161 | no contract of its own: the header line and one line per filtered customer; `ExportReadsBack` and `ExportSplitsIntoLines` state how it reads back |
| Customers.Page.FetchCustomers | src/pages/Customers.jsx:38-72 | rows replace the list and statistics; an error keeps them |
| Customers.Page.HandleDelete | src/pages/Customers.jsx:97-108 | on confirmation only the row is deleted; a declined or failed delete leaves list, statistics and total deposits as they were; after a successful delete the reload replaces all three from its rows, or keeps all three when it fails, and the page is not loading |
| Customers.DeleteNoRefund | src/pages/Customers.jsx:97-108 | a delete leaves balance, records and activity unchanged: no refund |
| CustomerTable.StatsAgreeWithPage | src/components/CustomerTable.jsx:66-85 | null data gives all-zero stats; otherwise the same figures as the customers page |
| CustomerTable.TodayWithinAllTime | src/components/CustomerTable.jsx:66-85 | today's count and total never exceed the all-time ones |
| CustomerTable.CalculateStats | src/components/CustomerTable.jsx:66-85 | no contract of its own: the same figures over possibly-null data; `StatsAgreeWithPage` and `TodayWithinAllTime` state its properties |
| CustomerTable.FormatDate | src/components/CustomerTable.jsx:148-169 | no contract of its own: the same relative text as the customers page, whose properties `Customers.BucketThresholds` states |
| CustomerTable.Table.FetchCustomers | src/components/CustomerTable.jsx:33-64 | a failed query keeps the list and the statistics and sets "Failed to load customers"; rows replace the list and the statistics are recomputed from them |
| CustomerTable.Table.HandleDelete | src/components/CustomerTable.jsx:110-132 | declining does nothing; a failed delete refreshes nothing and reports failure; a success deletes only the row, refreshes the balance, and reloads: rows replace the list and statistics with the error kept, a failed reload keeps them and sets "Failed to load customers"; the table is not loading afterwards |
| CustomerTable.DeleteThenRefreshNoRefund | src/components/CustomerTable.jsx:116-127 | delete then balance refresh leaves the stored balance and records unchanged |
| Dashboard.AccumulateToday | src/pages/Dashboard.jsx:52-61 | the loop's income is the top-up total, its expense the total over the expense kinds; null data gives 0 and 0 |
| Dashboard.ExpenseAsWrittenIsZero | src/pages/Dashboard.jsx:58-60 | counting only `customer_payment`, the expense over any ledger-written records is 0 |
| Dashboard.ExpenseCounterexample | src/pages/Dashboard.jsx:58-60 | one deposit of 5 shows expense 0 as written, 5 as intended |
| Dashboard.ExpenseIsMoneyOut | src/pages/Dashboard.jsx:52-61 | the intended expense is the transactions page's money out, the income its money in |
| Dashboard.CountOr0 | src/pages/Dashboard.jsx:63-68 | a null count is 0, a present one itself |
| Dashboard.FetchStats | src/pages/Dashboard.jsx:35-68 | counts defaulted, income and corrected expense equal the transaction page's money in and out |
| Settings.PasswordProblem | src/pages/Settings.jsx:74-80 | a mismatch fails with "New passwords do not match" before the length rule; fewer than 6 characters fails next; no problem iff both pass |
| Settings.PasswordChanged | src/pages/Settings.jsx:66-95 | no contract of its own: the two checks, the change and the cleared form; `PasswordOutcome`, `MismatchReportedFirst` and `ShortPasswordNeverSent` state its outcomes |
| Settings.MismatchReportedFirst | src/pages/Settings.jsx:74-76 | a mismatch is reported even when the password is also short, and the typed fields stay |
| Settings.PasswordOutcome | src/pages/Settings.jsx:66-95 | success iff both checks pass and the change succeeds, then the three fields are cleared; otherwise the first failed check or the thrown message, fields kept |
| Settings.ShortPasswordNeverSent | src/pages/Settings.jsx:78-82 | a short password's outcome does not depend on the server |
| Settings.PasswordPanel.HandlePasswordChange | src/pages/Settings.jsx:66-95 | `changePassword` is called iff both checks pass; the new state equals `PasswordChanged` |
| Settings.Toggle | src/pages/Settings.jsx:113-118 | the toggled setting is negated (missing reads as false), every other setting is unchanged |
| Settings.ToggleTwice | src/pages/Settings.jsx:113-118 | toggling a setting twice is the identity |
| Settings.TogglesCommute | src/pages/Settings.jsx:113-118 | toggles of two different settings commute |
| Settings.FirstToggleTurnsOff | src/pages/Settings.jsx:45-50 | from the all-on defaults a toggle turns exactly that switch off |
| Settings.ClearNeedsTwoSteps | src/pages/Settings.jsx:135-152 | the alert is raised iff armed and the confirm is accepted, and the confirmation is disarmed exactly then; unarmed only arms; a declined confirm stays armed |
| Settings.ClearRoundTrip | src/pages/Settings.jsx:135-152 | two accepted presses go from disarmed back to disarmed, alerting on the second |
| Settings.ClearPressed | src/pages/Settings.jsx:135-152 | no contract of its own: arm, then alert on an accepted confirm; `ClearNeedsTwoSteps` and `ClearRoundTrip` state its behaviour |
| Settings.DataPanel.HandleClearData | src/pages/Settings.jsx:135-152 | the in-place handler equals `ClearPressed` |
| Login.FriendlyError | src/pages/Login.jsx:62-72 | the first matching marker in the order credentials, unconfirmed, registered, "500" picks the wording; no marker keeps the message |
| Login.MarkerWins | src/pages/Login.jsx:64-67 | a message containing "Invalid login credentials" anywhere is always shown as the credentials text; "Email not confirmed" wins unless that one is present |
| Login.SubmitOutcome | src/pages/Login.jsx:31-80 | success shown only when a user came back (or it already was and no error came); any error clears it; the error is the friendly wording |
| Login.Submitted | src/pages/Login.jsx:31-80 | no contract of its own: the error or the returned data applied to the page; `SubmitOutcome` states the outcome |
| Login.Toggled | src/pages/Login.jsx:264-269 | no contract of its own: the mode flipped and the messages and name cleared; `ToggleTwice` states that a second switch restores the mode |
| Login.ToggleTwice | src/pages/Login.jsx:264-269 | switching modes flips `isSignUp` and clears error, success flag and full name; twice restores the mode |
| Login.LoginForm.HandleSubmit | src/pages/Login.jsx:31-80 | the in-place handler equals `Submitted` |
| Login.LoginForm.ToggleMode | src/pages/Login.jsx:264-269 | the in-place switch equals `Toggled` |

## Left out

- Backend I/O: every query, insert, update, delete and RPC of the hosted backend is a step on `WalletContext.State` with a failure flag or a `Call`. The `update_wallet_balance` RPC is an atomic `balance += delta` whose body is not visible; `log_daily_activity` appends one entry. When no balance row exists, `WalletContext.Adjusted` and `WalletContext.Overwritten` let the RPC and the fallback update succeed without changing anything, so `WalletContext.TopUp` then reports success and records a top-up while the stored balance stays unchanged; this is a modelling choice, since the RPC's body is not visible.
- Concurrency: the read-then-write race between sessions, the realtime subscription, `setTimeout` closes and redirects, and the table's debounced search are not modelled; everything is sequential.
- Floating point: amounts are exact reals, so rounding, `Infinity` and exponent forms of `parseFloat` are not modelled. `Text.ParseFloat` covers white space, a sign, digits and one dot.
- Text: lower-casing is ASCII-only, and string length counts characters, not UTF-16 code units.
- Locale and dates: `toLocaleString`, `Intl.NumberFormat` and the date library are the `show`/`stamp`/`dateText` parameters; the start of the day and elapsed milliseconds are inputs.
- Rendering: JSX, the PDF statement, Blob downloads, success-message texts and alert pop-ups are out.
- CustomerForm.Form.CheckBalance: the insufficient-balance effect is its own step; the model does not re-run it after every amount change or submit as React would.
- The edit form's prefill effect (src/components/CustomerForm.jsx:18-25) is out; `Text.NatTextParses` states its round trip for whole amounts only.
- The wallet provider's `loading` flag, `getDailyActivities`, the profile update, export and dark-mode toggle in settings, and the quick-login credentials are not part of this model.
- WalletTopUp.Submitted: amounts are reals, which have no NaN, so the modelled handler refuses text that parses to NaN (`WalletTopUp.Validated`), while the code as written lets it through (`WalletTopUp.DotPassesAsWritten`, and the first row under Findings). The amount field has `type="number"` (src/components/WalletTopUp.jsx:156), so the browser probably never hands "." to the handler.
- WalletContext.History: the caller always passes `limit`, so the default of 50 when it is omitted is not modelled; the `customers(name)` join that attaches the customer's name to each record is left out, because no modelled property reads that name.
- Settings.ClearPressed: the page never deletes anything after the confirmation (the clearing is not written), so the model only tracks the confirmation state and the alert.
- An edit makes no wallet adjustment (`CustomerForm.EditOnlyRewritesRow`), a delete never refunds the deposit (`Customers.DeleteNoRefund`), and a failed compensating delete is ignored (`CustomerForm.FailedCompensationKeepsRow`); the model follows the code in all three.

## Findings

| source | as written | input that shows it | evidently intended | confidence | as-written member | corrected member |
|---|---|---|---|---|---|---|
| src/components/WalletTopUp.jsx:22-26 | `!amount \|\| amountNum <= 0` refuses only empty text and numbers ≤ 0; NaN compares false and passes | amount "." (accepted by the input guard) | refuse any text that does not parse to a positive number | low, not executed: the number input may never hand "." to the handler | WalletTopUp.DotPassesAsWritten | WalletTopUp.Validated |
| src/pages/Dashboard.jsx:58-60 | today's expense sums records of type `customer_payment`, which nothing writes | one `customer_deposit` record of 5: expense shown 0 | sum the outgoing kinds, `customer_deposit` and `withdrawal`, as the transactions page does | high, not executed | Dashboard.ExpenseAsWrittenIsZero | Dashboard.FetchStats |
