/** The sign-in page of src/pages/Login.jsx: the friendly wording of the
    authentication errors, the outcome of a submit and the switch between
    signing in and signing up. */
module Login {
  import opened Text

  const InvalidCredentials := "Invalid login credentials"
  const NotConfirmed := "Email not confirmed"
  const AlreadyRegistered := "User already registered"
  const ServerCode := "500"

  const InvalidText := "Invalid email or password. Please try again."
  const ConfirmText := "Please check your email to confirm your account first."
  const RegisteredText := "An account with this email already exists. Please sign in instead."
  const ServerText := "Server error. Please try again later or contact support."

  /** The mapping of lines 62-72: the first of the four markers found in the
      message picks the wording; a message with none is shown as it is. */
  function FriendlyError(message: string): (r: string)
    ensures Contains(message, InvalidCredentials) ==> r == InvalidText
    ensures !Contains(message, InvalidCredentials) && Contains(message, NotConfirmed) ==> r == ConfirmText
    ensures (!Contains(message, InvalidCredentials) && !Contains(message, NotConfirmed)
             && Contains(message, AlreadyRegistered)) ==> r == RegisteredText
    ensures (!Contains(message, InvalidCredentials) && !Contains(message, NotConfirmed)
             && !Contains(message, AlreadyRegistered) && Contains(message, ServerCode)) ==> r == ServerText
    ensures (!Contains(message, InvalidCredentials) && !Contains(message, NotConfirmed)
             && !Contains(message, AlreadyRegistered) && !Contains(message, ServerCode)) ==> r == message
  {
    if Contains(message, InvalidCredentials) then InvalidText
    else if Contains(message, NotConfirmed) then ConfirmText
    else if Contains(message, AlreadyRegistered) then RegisteredText
    else if Contains(message, ServerCode) then ServerText
    else message
  }

  /** A text holds whatever is written in its middle. */
  lemma {:induction false} ContainsInfix(a: string, t: string, b: string)
    ensures Contains(a + t + b, t)
  {
    if a == [] {
      assert a + t + b == t + b;
      assert (t + b)[..|t|] == t;
    } else {
      assert (a + t + b)[1..] == a[1..] + t + b;
      ContainsInfix(a[1..], t, b);
    }
  }

  /** Whatever else the message says, invalid credentials are reported as
      such, and an unconfirmed email is reported as such unless the
      credentials were also refused. */
  lemma MarkerWins(a: string, b: string)
    ensures FriendlyError(a + InvalidCredentials + b) == InvalidText
    ensures !Contains(a + NotConfirmed + b, InvalidCredentials) ==>
      FriendlyError(a + NotConfirmed + b) == ConfirmText
  {
    ContainsInfix(a, InvalidCredentials, b);
    ContainsInfix(a, NotConfirmed, b);
  }

  /** What `signIn` or `signUp` gave back: a thrown error with its message,
      or data that may hold a user. */
  datatype AuthResult = Threw(message: string) | Returned(hasUser: bool)

  datatype Page = Page(email: string, password: string, error: string, loading: bool,
                       isSignUp: bool, fullName: string, loginSuccess: bool)

  /** `handleSubmit` (lines 31-80): the error is cleared first; data with a
      user sets the success flag, data without one leaves it; an error shows
      its friendly wording and clears the flag. */
  function Submitted(p: Page, result: AuthResult): Page
  {
    match result
    case Threw(message) => p.(error := FriendlyError(message), loginSuccess := false, loading := false)
    case Returned(hasUser) =>
      p.(error := "", loginSuccess := if hasUser then true else p.loginSuccess, loading := false)
  }

  /** Success is shown after a submit only if the call returned a user, or it
      was already shown and the call returned neither a user nor an error;
      an error never leaves it shown and is never empty unless the thrown
      message was. */
  lemma SubmitOutcome(p: Page, result: AuthResult)
    ensures var r := Submitted(p, result);
      (r.loginSuccess <==> (result.Returned? && (result.hasUser || p.loginSuccess)))
      && (result.Threw? ==> r.error == FriendlyError(result.message) && !r.loginSuccess)
      && (result.Returned? ==> r.error == "")
      && r.email == p.email && r.password == p.password && r.isSignUp == p.isSignUp
      && !r.loading
  {
  }

  /** The mode switch (lines 264-269). */
  function Toggled(p: Page): Page
  {
    p.(isSignUp := !p.isSignUp, error := "", loginSuccess := false, fullName := "")
  }

  /** Switching twice returns to the same mode with the typed credentials
      kept and the error, flag and name cleared. */
  lemma ToggleTwice(p: Page)
    ensures Toggled(Toggled(p)) == p.(error := "", loginSuccess := false, fullName := "")
  {
  }

  class LoginForm {
    var email: string
    var password: string
    var error: string
    var loading: bool
    var isSignUp: bool
    var fullName: string
    var loginSuccess: bool

    function Snapshot(): Page
      reads this
    {
      Page(email, password, error, loading, isSignUp, fullName, loginSuccess)
    }

    constructor ()
      ensures Snapshot() == Page("", "", "", false, false, "", false)
    {
      email, password, error, loading := "", "", "", false;
      isSignUp, fullName, loginSuccess := false, "", false;
    }

    method HandleSubmit(result: AuthResult)
      modifies this
      ensures Snapshot() == Submitted(old(Snapshot()), result)
    {
      error := "";
      loading := true;
      match result {
        case Returned(hasUser) =>
          if hasUser {
            loginSuccess := true;
          }
        case Threw(message) =>
          error := FriendlyError(message);
          loginSuccess := false;
      }
      loading := false;
    }

    method ToggleMode()
      modifies this
      ensures Snapshot() == Toggled(old(Snapshot()))
    {
      isSignUp := !isSignUp;
      error := "";
      loginSuccess := false;
      fullName := "";
    }
  }
}
