/** The sign-up screen: validation in a fixed order, then register. */
module Signup {
  import opened Wrappers
  import opened Forms

  const MISMATCH := "Passwords do not match"
  const TOO_SHORT := "Password must be at least 6 characters"
  const MIN_PASSWORD := 6
  const FAILED_TITLE := "Registration Failed"
  const FAILED_DEFAULT := "An error occurred during sign up"
  const CREATED := "Account created successfully"

  /** The first check that fails, in the order empty fields, mismatch, length. */
  function SignupError(email: string, password: string, confirm: string): (r: Option<string>)
    ensures r == Some(FILL_ALL) <==> email == "" || password == "" || confirm == ""
    ensures r == Some(MISMATCH) <==> email != "" && password != "" && confirm != "" && password != confirm
    ensures r == Some(TOO_SHORT) <==>
              email != "" && password != "" && password == confirm && Utf16Length(password) < MIN_PASSWORD
    ensures r == None <==> email != "" && password == confirm && Utf16Length(password) >= MIN_PASSWORD
  {
    if email == "" || password == "" || confirm == "" then Some(FILL_ALL)
    else if password != confirm then Some(MISMATCH)
    else if Utf16Length(password) < MIN_PASSWORD then Some(TOO_SHORT)
    else None
  }

  /** A short password that also fails to match is reported as a mismatch. */
  lemma MismatchBeforeLength(email: string, password: string, confirm: string)
    requires email != "" && password != "" && confirm != "" && password != confirm
    requires Utf16Length(password) < MIN_PASSWORD
    ensures SignupError(email, password, confirm) == Some(MISMATCH)
  {
  }

  /** handleSignup: `outcome` is how register(email, password) ends when it is called. */
  function HandleSignup(email: string, password: string, confirm: string, outcome: Outcome): (r: Submission)
    ensures r.request.Some? <==> SignupError(email, password, confirm).None?
    ensures r.request.Some? ==> r.request.value == Credentials(email, password)
    ensures r.navigates <==> r.request.Some? && outcome.Resolved?
    ensures r.request.None? ==> r.alert == Alert(ERROR_TITLE, SignupError(email, password, confirm).value)
    ensures r.request.Some? && outcome.Resolved? ==> r.alert == Alert(SUCCESS_TITLE, CREATED)
    ensures r.request.Some? && outcome.Rejected? ==>
              r.alert == Alert(FAILED_TITLE, MessageOr(outcome.message, FAILED_DEFAULT))
  {
    match SignupError(email, password, confirm)
    case Some(message) => Submission(Alert(ERROR_TITLE, message), None, false)
    case None =>
      match outcome
      case Resolved => Submission(Alert(SUCCESS_TITLE, CREATED), Some(Credentials(email, password)), true)
      case Rejected(message) =>
        Submission(Alert(FAILED_TITLE, MessageOr(message, FAILED_DEFAULT)), Some(Credentials(email, password)), false)
  }

  /** A rejected registration, like every failed check, always shows a non-empty reason. */
  lemma RejectionExplained(email: string, password: string, confirm: string, outcome: Outcome)
    ensures HandleSignup(email, password, confirm, outcome).alert.message != ""
  {
  }

  /** The screen never navigates away unless a valid form was registered successfully. */
  method SubmitSignup(screen: Screen, email: string, password: string, confirm: string, outcome: Outcome)
      returns (request: Option<Credentials>)
    modifies screen
    ensures request == HandleSignup(email, password, confirm, outcome).request
    ensures !screen.isSubmitting
    ensures screen.alerts == old(screen.alerts) + [HandleSignup(email, password, confirm, outcome).alert]
    ensures screen.route != old(screen.route) ==>
              SignupError(email, password, confirm).None? && outcome.Resolved? && screen.route == Some(TABS_ROUTE)
  {
    var s := HandleSignup(email, password, confirm, outcome);
    screen.Apply(s);
    request := s.request;
  }
}
