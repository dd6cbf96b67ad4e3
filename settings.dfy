/** The account settings of src/pages/Settings.jsx: the password change with
    its two local checks, the notification switches, and the two-step
    confirmation of "clear all data". */
module Settings {
  import opened Common

  const NoMatch := "New passwords do not match"
  const TooShort := "New password must be at least 6 characters"
  const Changed := "Password changed successfully!"
  const MinLength := 6

  // -------------------------------------------------------- password change

  datatype PasswordData = PasswordData(currentPassword: string, newPassword: string, confirmPassword: string)

  const Cleared := PasswordData("", "", "")

  /** The checks of lines 74-80, in their order: the confirmation must match
      before the length is looked at. */
  function PasswordProblem(d: PasswordData): (r: Option<string>)
    ensures d.newPassword != d.confirmPassword ==> r == Some(NoMatch)
    ensures d.newPassword == d.confirmPassword && |d.newPassword| < MinLength ==> r == Some(TooShort)
    ensures r.None? <==> d.newPassword == d.confirmPassword && |d.newPassword| >= MinLength
  {
    if d.newPassword != d.confirmPassword then Some(NoMatch)
    else if |d.newPassword| < MinLength then Some(TooShort)
    else None
  }

  datatype PasswordForm = PasswordForm(data: PasswordData, loading: bool, error: string, success: string)

  /** `handlePasswordChange` (lines 66-95). `change` is what `changePassword`
      does with the current and new password; it is reached only when both
      checks pass. */
  function PasswordChanged(f: PasswordForm, change: Call): PasswordForm
  {
    var problem := PasswordProblem(f.data);
    if problem.Some? then f.(loading := false, error := problem.value, success := "")
    else if change.Fail? then f.(loading := false, error := change.message, success := "")
    else PasswordForm(Cleared, false, "", Changed)
  }

  /** A mismatch is reported as such even when the new password is also too
      short, and a refused change keeps what was typed. */
  lemma MismatchReportedFirst(f: PasswordForm, change: Call)
    requires f.data.newPassword != f.data.confirmPassword
    ensures var r := PasswordChanged(f, change);
      r.error == NoMatch && r.data == f.data && r.success == "" && !r.loading
  {
  }

  /** The outcome is success exactly when both checks pass and the change
      succeeds; then all three fields are cleared. Otherwise the error is the
      first failed check or the message the change threw, and nothing typed
      is lost. */
  lemma PasswordOutcome(f: PasswordForm, change: Call)
    ensures var r := PasswordChanged(f, change);
      (r.success == Changed <==> PasswordProblem(f.data).None? && change.Ok?)
      && (r.success == Changed ==> r.data == Cleared && r.error == "")
      && (PasswordProblem(f.data).Some? ==> r.error == PasswordProblem(f.data).value && r.data == f.data)
      && (PasswordProblem(f.data).None? && change.Fail? ==> r.error == change.message && r.data == f.data)
      && !r.loading
  {
  }

  /** A new password of fewer than six characters never reaches the server,
      whatever the server would have said. */
  lemma ShortPasswordNeverSent(f: PasswordForm, c1: Call, c2: Call)
    requires |f.data.newPassword| < MinLength
    ensures PasswordChanged(f, c1) == PasswordChanged(f, c2)
    ensures PasswordChanged(f, c1).success == ""
  {
  }

  class PasswordPanel {
    var data: PasswordData
    var loading: bool
    var error: string
    var success: string

    function Snapshot(): PasswordForm
      reads this
    {
      PasswordForm(data, loading, error, success)
    }

    constructor ()
      ensures Snapshot() == PasswordForm(Cleared, false, "", "")
    {
      data, loading, error, success := Cleared, false, "", "";
    }

    /** The handler; `sent` tells whether `changePassword` was called. */
    method HandlePasswordChange(change: Call) returns (sent: bool)
      modifies this
      ensures sent <==> PasswordProblem(old(data)).None?
      ensures Snapshot() == PasswordChanged(old(Snapshot()), change)
    {
      loading := true;
      error := "";
      success := "";
      var problem := PasswordProblem(data);
      if problem.Some? {
        error := problem.value;
        sent := false;
      } else {
        sent := true;
        if change.Fail? {
          error := change.message;
        } else {
          success := Changed;
          data := Cleared;
        }
      }
      loading := false;
    }
  }

  // -------------------------------------------------- notification switches

  const EmailNotifications := "emailNotifications"
  const PushNotifications := "pushNotifications"
  const LowBalanceAlert := "lowBalanceAlert"
  const DailyReports := "dailyReports"

  /** The initial switches (lines 45-50): all on. */
  const DefaultNotifications: map<string, bool> :=
    map[EmailNotifications := true, PushNotifications := true, LowBalanceAlert := true, DailyReports := true]

  /** `handleNotificationToggle(setting)` (lines 113-118): the setting becomes
      `!prev[setting]`, a missing one reading as false. */
  function Toggle(m: map<string, bool>, k: string): (r: map<string, bool>)
    ensures r.Keys == m.Keys + {k}
    ensures r[k] <==> !(k in m && m[k])
    ensures forall j :: j in m && j != k ==> r[j] == m[j]
  {
    m[k := !(k in m && m[k])]
  }

  /** Toggling a known setting twice gives back the same switches. */
  lemma ToggleTwice(m: map<string, bool>, k: string)
    requires k in m
    ensures Toggle(Toggle(m, k), k) == m
  {
    var once := Toggle(m, k);
    var twice := Toggle(once, k);
    assert twice.Keys == m.Keys;
    assert forall j :: j in m ==> twice[j] == m[j];
  }

  /** Toggles of two different settings do not interfere: either order gives
      the same switches. */
  lemma TogglesCommute(m: map<string, bool>, j: string, k: string)
    requires j != k
    ensures Toggle(Toggle(m, j), k) == Toggle(Toggle(m, k), j)
  {
    var x := !(j in m && m[j]);
    var y := !(k in m && m[k]);
    assert Toggle(Toggle(m, j), k) == m[j := x][k := y];
    assert Toggle(Toggle(m, k), j) == m[k := y][j := x];
    UpdatesCommute(m, j, k, x, y);
  }

  lemma UpdatesCommute(m: map<string, bool>, j: string, k: string, x: bool, y: bool)
    requires j != k
    ensures m[j := x][k := y] == m[k := y][j := x]
  {
  }

  /** From the defaults, a toggle turns exactly that switch off. */
  lemma FirstToggleTurnsOff(k: string)
    requires k in DefaultNotifications
    ensures var r := Toggle(DefaultNotifications, k);
      !r[k] && r.Keys == DefaultNotifications.Keys
      && forall j :: j in r && j != k ==> r[j]
  {
  }

  // ------------------------------------------------------- clear all data

  /** `handleClearData` (lines 135-152). The first press only arms the
      confirmation; a press while armed asks the browser's confirm, and an
      accepted confirm raises the alert and disarms. No data is deleted:
      the clearing itself is not written in the page. */
  function ClearPressed(armed: bool, accepted: bool): (r: (bool, bool))
  {
    if !armed then (true, false)
    else if accepted then (false, true)
    else (true, false)
  }

  /** The alert is raised only from an armed state with the confirm accepted,
      and the confirmation is disarmed exactly then. */
  lemma ClearNeedsTwoSteps(armed: bool, accepted: bool)
    ensures var (after, alerted) := ClearPressed(armed, accepted);
      (alerted <==> armed && accepted)
      && (after <==> !alerted)
  {
  }

  /** Two presses with the confirm accepted go from disarmed back to
      disarmed, with one alert, raised on the second press. */
  lemma ClearRoundTrip()
    ensures ClearPressed(false, true) == (true, false)
    ensures ClearPressed(ClearPressed(false, true).0, true) == (false, true)
  {
  }

  class DataPanel {
    var clearDataConfirm: bool

    constructor ()
      ensures !clearDataConfirm
    {
      clearDataConfirm := false;
    }

    /** One press of the button; `accepted` is the browser confirm's answer,
        asked only when armed. */
    method HandleClearData(accepted: bool) returns (alerted: bool)
      modifies this
      ensures (clearDataConfirm, alerted) == ClearPressed(old(clearDataConfirm), accepted)
    {
      alerted := false;
      if !clearDataConfirm {
        clearDataConfirm := true;
        return;
      }
      if accepted {
        alerted := true;
        clearDataConfirm := false;
      }
    }
  }
}
