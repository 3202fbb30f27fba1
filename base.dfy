/** Values shared by every component: an optional value, the five status
    codes of a submission attempt, and the triple an attempt returns. */
module Base {

  /** Python's `None` / a present value. */
  datatype Option<+T> = None | Some(value: T)

  /** The status-code constants that classify one attempt (app.py 51-55). */
  datatype Status = Success | ProxyConnectFail | NavigationFail | AutomationFail | UnknownFail

  /** The string each status constant stands for in the source. */
  function Code(s: Status): (c: string)
    ensures |c| > 0
  {
    match s
    case Success => "SUCCESS"
    case ProxyConnectFail => "PROXY_CONNECT_FAIL"
    case NavigationFail => "NAVIGATION_FAIL"
    case AutomationFail => "AUTOMATION_FAIL"
    case UnknownFail => "UNKNOWN_FAIL"
  }

  /** Distinct statuses have distinct codes, so comparing codes (as the
      orchestrator does) is the same as comparing statuses. */
  lemma CodeInjective(s: Status, t: Status)
    ensures Code(s) == Code(t) ==> s == t
  {
    if s != t {
      assert Code(s)[0] != Code(t)[0];
    }
  }

  /** What one call of the form driver returns: `(status, message, lead_id)`. */
  datatype DriverResult = DriverResult(status: Status, message: string, leadId: Option<string>)
}
