/** What the sign-up and login screens share: alerts, the credentials sent, and the call's outcome. */
module Forms {
  import opened Wrappers

  const FILL_ALL := "Please fill in all fields"
  const ERROR_TITLE := "Error"
  const SUCCESS_TITLE := "Success"

  /** The route the screens replace themselves with on success. */
  const TABS_ROUTE := "/(tabs)"

  datatype Alert = Alert(title: string, message: string)

  datatype Credentials = Credentials(email: string, password: string)

  /** How the awaited register or login call ended; `message` is the error's message, "" when absent. */
  datatype Outcome = Resolved | Rejected(message: string)

  /** One submission: the alert it raises, the call it makes (if any) and whether it navigates. */
  datatype Submission = Submission(alert: Alert, request: Option<Credentials>, navigates: bool)

  /** `e.message || fallback`. */
  function MessageOr(message: string, fallback: string): (r: string)
    ensures message != "" ==> r == message
    ensures message == "" ==> r == fallback
    ensures r == "" <==> message == "" && fallback == ""
  {
    if message != "" then message else fallback
  }

  /** `s.length`: UTF-16 code units, two for a character outside the Basic Multilingual Plane. */
  function Utf16Length(s: string): (r: nat)
    ensures |s| <= r <= 2 * |s|
    ensures (forall i :: 0 <= i < |s| ==> (s[i] as int) < 0x1_0000) ==> r == |s|
  {
    if s == [] then 0 else (if (s[0] as int) < 0x1_0000 then 1 else 2) + Utf16Length(s[1..])
  }

  /** The form screen's own state: the submit flag, the alerts raised so far, and the route it replaced itself with. */
  class Screen {
    var isSubmitting: bool
    var alerts: seq<Alert>
    var route: Option<string>

    constructor ()
      ensures !isSubmitting && alerts == [] && route == None
    {
      isSubmitting, alerts, route := false, [], None;
    }

    /** Applies a submission: the alert is raised, the submit flag ends false, and navigation follows. */
    method Apply(s: Submission)
      modifies this
      ensures !isSubmitting
      ensures alerts == old(alerts) + [s.alert]
      ensures route == if s.navigates then Some(TABS_ROUTE) else old(route)
    {
      if s.request.Some? {
        isSubmitting := true;
      }
      alerts := alerts + [s.alert];
      if s.navigates {
        route := Some(TABS_ROUTE);
      }
      isSubmitting := false;
    }
  }
}
