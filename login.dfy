/**
 * Signing in (src/screens/auth/LoginScreen.tsx). `handleLogin` awaits the
 * request, so it is modelled as two steps around it: `BeginLogin` runs up to
 * `auth.login`, and `FinishLogin` runs once the request has settled, with the
 * response as a parameter.
 */
module Login {
  import opened Wrappers
  import opened Text
  import opened Alerts

  /** The fields of the rejected request's error that the handler reads. */
  datatype LoginError = LoginError(
    code: Option<string>,          // error.code
    message: Option<string>,       // error.message
    status: Option<int>,           // error.response?.status
    serverError: Option<string>)   // error.response?.data?.error

  datatype LoginResponse = LoggedIn | LoginRejected(error: LoginError)

  const GenericFailureMessage := "Something went wrong. Please try again."
  const MissingFieldsAlert := Alert("Error", "Please enter both email and password")

  /** A connection failure: the code says so, or the message mentions it. */
  predicate IsNetworkError(e: LoginError) {
    e.code == Some("NETWORK_ERROR") || (e.message.Some? && Contains(e.message.value, "Network Error"))
  }

  /** The four alerts of the `catch` block. */
  datatype Failure = Connection | InvalidCredentials | ServerDown | Other(message: string)

  /**
   * The `catch` chain: a network error wins over any status; then 400, then
   * 500; anything else shows the server's non-empty message or the generic one.
   */
  function Classify(e: LoginError): (f: Failure)
    ensures f == Connection <==> IsNetworkError(e)
    ensures f == InvalidCredentials <==> !IsNetworkError(e) && e.status == Some(400)
    ensures f == ServerDown <==> !IsNetworkError(e) && e.status == Some(500)
    ensures f.Other? ==> |f.message| > 0
    ensures f.Other? && e.serverError.Some? && e.serverError.value != "" ==> f.message == e.serverError.value
    ensures f.Other? && (e.serverError.None? || e.serverError.value == "") ==> f.message == GenericFailureMessage
  {
    if IsNetworkError(e) then Connection
    else if e.status == Some(400) then InvalidCredentials
    else if e.status == Some(500) then ServerDown
    else if e.serverError.Some? && e.serverError.value != "" then Other(e.serverError.value)
    else Other(GenericFailureMessage)
  }

  /** The alert each failure shows: "Login Failed" for bad credentials and for anything unrecognised. */
  function AlertFor(f: Failure): (a: Alert)
    ensures a.title == "Login Failed" <==> f.InvalidCredentials? || f.Other?
    ensures a.title == "Connection Error" <==> f.Connection?
    ensures a.title == "Server Error" <==> f.ServerDown?
    ensures f.Other? ==> a.message == f.message
  {
    match f
    case Connection =>
      Alert("Connection Error", "Unable to connect to the server. Please check your internet connection and try again.")
    case InvalidCredentials =>
      Alert("Login Failed", "Invalid email or password. Please check your credentials and try again.")
    case ServerDown =>
      Alert("Server Error", "Server is currently unavailable. Please try again later.")
    case Other(message) =>
      Alert("Login Failed", message)
  }

  /** A network error gets the connection alert whatever status or body came with it. */
  lemma NetworkErrorIgnoresResponse(e: LoginError, status: Option<int>, serverError: Option<string>)
    requires IsNetworkError(e)
    ensures Classify(e.(status := status, serverError := serverError)) == Connection
  {
  }

  /** Only the fourth branch looks at the server's message. */
  lemma ServerMessageOnlyInLastBranch(e: LoginError, serverError: Option<string>)
    requires IsNetworkError(e) || e.status == Some(400) || e.status == Some(500)
    ensures Classify(e.(serverError := serverError)) == Classify(e)
  {
  }

  /** What the first half of `handleLogin` did. */
  datatype Attempt = Ignored | Rejected(alert: Alert) | Requested(email: string, password: string)

  /** How a settled request ends: on the loading screen or with an alert. */
  datatype Settled = NavigatedToLoginLoading | ShowedAlert(alert: Alert)

  /** The end of a settled request, as `FinishLogin` reports it. */
  function SettledBy(response: LoginResponse): (s: Settled)
    ensures s.NavigatedToLoginLoading? <==> response.LoggedIn?
    ensures response.LoginRejected? ==> s.alert == AlertFor(Classify(response.error))
  {
    match response
    case LoggedIn => NavigatedToLoginLoading
    case LoginRejected(e) => ShowedAlert(AlertFor(Classify(e)))
  }

  class LoginScreen {
    var email: string
    var password: string
    var isLoading: bool

    constructor ()
      ensures email == "" && password == "" && !isLoading
    {
      email := "";
      password := "";
      isLoading := false;
    }

    method SetEmail(text: string)
      modifies this`email
      ensures email == text
    {
      email := text;
    }

    method SetPassword(text: string)
      modifies this`password
      ensures password == text
    {
      password := text;
    }

    /**
     * `handleLogin` up to the awaited `auth.login`: ignored while a login is
     * in flight, rejected without a request when a field is empty, otherwise
     * the request goes out with the loading flag up.
     */
    method BeginLogin() returns (attempt: Attempt)
      modifies this`isLoading
      ensures old(isLoading) ==> attempt == Ignored && isLoading
      ensures !old(isLoading) && (email == "" || password == "") ==> attempt == Rejected(MissingFieldsAlert) && !isLoading
      ensures !old(isLoading) && email != "" && password != "" ==> attempt == Requested(email, password) && isLoading
    {
      if isLoading {
        return Ignored;
      }
      if email == "" || password == "" {
        return Rejected(MissingFieldsAlert);
      }
      isLoading := true;
      attempt := Requested(email, password);
    }

    /** The rest of `handleLogin`, once the request has settled: the flag comes down on every path. */
    method FinishLogin(response: LoginResponse) returns (settled: Settled)
      requires isLoading
      modifies this`isLoading
      ensures settled == SettledBy(response)
      ensures !isLoading
    {
      match response {
        case LoggedIn =>
          settled := NavigatedToLoginLoading;
        case LoginRejected(e) =>
          settled := ShowedAlert(AlertFor(Classify(e)));
      }
      isLoading := false;
    }
  }
}
