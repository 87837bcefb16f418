/** The login screen: both fields must be filled, then login. */
module Login {
  import opened Wrappers
  import opened Forms
  import Signup

  const FAILED_TITLE := "Login Failed"
  const FAILED_DEFAULT := "An error occurred during login"
  const LOGGED_IN := "Logged in successfully"

  /** handleLogin: `outcome` is how login(email, password) ends when it is called. */
  function HandleLogin(email: string, password: string, outcome: Outcome): (r: Submission)
    ensures r.request.Some? <==> email != "" && password != ""
    ensures r.request.Some? ==> r.request.value == Credentials(email, password)
    ensures r.navigates <==> r.request.Some? && outcome.Resolved?
    ensures r.request.None? ==> r.alert == Alert(ERROR_TITLE, FILL_ALL)
    ensures r.request.Some? && outcome.Resolved? ==> r.alert == Alert(SUCCESS_TITLE, LOGGED_IN)
    ensures r.request.Some? && outcome.Rejected? ==>
              r.alert == Alert(FAILED_TITLE, MessageOr(outcome.message, FAILED_DEFAULT))
  {
    if email == "" || password == "" then Submission(Alert(ERROR_TITLE, FILL_ALL), None, false)
    else
      match outcome
      case Resolved => Submission(Alert(SUCCESS_TITLE, LOGGED_IN), Some(Credentials(email, password)), true)
      case Rejected(message) =>
        Submission(Alert(FAILED_TITLE, MessageOr(message, FAILED_DEFAULT)), Some(Credentials(email, password)), false)
  }

  /** A password too short for sign-up is still sent to login. */
  lemma NoLengthRule(email: string, password: string, outcome: Outcome)
    requires email != "" && password != ""
    ensures HandleLogin(email, password, outcome).request == Some(Credentials(email, password))
  {
  }

  /** Every email and password that sign-up accepts is sent on by login. */
  lemma SignupAcceptedLogsIn(email: string, password: string, confirm: string, outcome: Outcome)
    requires Signup.SignupError(email, password, confirm).None?
    ensures HandleLogin(email, password, outcome).request == Some(Credentials(email, password))
  {
  }

  /** A rejected login always shows a non-empty reason. */
  lemma RejectionExplained(email: string, password: string, message: string)
    ensures HandleLogin(email, password, Rejected(message)).alert.message != ""
  {
  }

  method SubmitLogin(screen: Screen, email: string, password: string, outcome: Outcome)
      returns (request: Option<Credentials>)
    modifies screen
    ensures request == HandleLogin(email, password, outcome).request
    ensures !screen.isSubmitting
    ensures screen.alerts == old(screen.alerts) + [HandleLogin(email, password, outcome).alert]
    ensures screen.route != old(screen.route) ==>
              email != "" && password != "" && outcome.Resolved? && screen.route == Some(TABS_ROUTE)
  {
    var s := HandleLogin(email, password, outcome);
    screen.Apply(s);
    request := s.request;
  }
}
