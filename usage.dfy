/**
 * The records the tool reads: the usage windows returned by the usage
 * endpoint and the OAuth token kept in the credential store.  Values only;
 * nothing here is mutated after it is decoded.
 */
module Usage {

  datatype Option<+T> = None | Some(value: T) {
    /** The value, or `default` when absent (Rust's `unwrap_or`). */
    function GetOr(default: T): (r: T)
      ensures Some? ==> r == value
      ensures None? ==> r == default
    {
      match this
      case Some(v) => v
      case None => default
    }
  }

  /** The outcome of a step that may fail with a human-readable message (anyhow's `Result`). */
  datatype Result<+T> = Ok(value: T) | Err(message: string)

  /** One rolling quota window: the percentage used and, if known, when it resets (ISO 8601). */
  datatype UsageWindow = UsageWindow(utilization: real, resetsAt: Option<string>)

  /** The usage endpoint's answer; a window is absent when the plan does not report it. */
  datatype UsageResponse = UsageResponse(
    fiveHour: Option<UsageWindow>,
    sevenDay: Option<UsageWindow>,
    sevenDayOpus: Option<UsageWindow>)

  /** The stored credential: the bearer token and the subscription plan, if recorded. */
  datatype OAuthToken = OAuthToken(accessToken: string, subscriptionType: Option<string>)
}
