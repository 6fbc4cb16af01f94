/**
 * The guard in front of the admin pages: it starts loading and
 * unauthenticated, settles both from the initial session check, follows the
 * identity provider's auth events, and renders a spinner, a redirect to the
 * login page, or the protected pages.
 */
module ProtectedRoute {

  const LoginPath: string := "/admin"
  const SignedOut: string := "SIGNED_OUT"

  /** What `getSession` came back with: an exception, or an answer carrying
      an error or not and a session or not. */
  datatype SessionReply = SessionThrew | SessionAnswered(hasError: bool, hasSession: bool)

  /** Authenticated after the check exactly when the answer has no error and
      does carry a session; an error or an exception counts as signed out. */
  function AuthenticatedAfterCheck(reply: SessionReply): (auth: bool)
    ensures auth <==> reply.SessionAnswered? && !reply.hasError && reply.hasSession
  {
    match reply
    case SessionThrew => false
    case SessionAnswered(hasError, hasSession) => if hasError then false else hasSession
  }

  /** Authenticated after an auth event exactly when it carries a session and
      is not a sign-out. */
  function AuthenticatedAfterEvent(event: string, hasSession: bool): (auth: bool)
    ensures auth <==> hasSession && event != SignedOut
  {
    if event == SignedOut then false else hasSession
  }

  datatype RouteView = Spinner | Redirect(to: string) | Outlet

  /** The render: the spinner while loading, then the redirect when not
      authenticated, then the protected pages. */
  function RouteDecision(loading: bool, isAuthenticated: bool): (v: RouteView)
    ensures v == Spinner <==> loading
    ensures v == Outlet <==> !loading && isAuthenticated
    ensures v.Redirect? <==> !loading && !isAuthenticated
    ensures v.Redirect? ==> v.to == LoginPath
  {
    if loading then Spinner
    else if !isAuthenticated then Redirect(LoginPath)
    else Outlet
  }

  class ProtectedRouteState {
    var loading: bool
    var isAuthenticated: bool

    constructor ()
      ensures loading && !isAuthenticated
    {
      loading := true;
      isAuthenticated := false;
    }

    /** `checkSession` once its call returns: record the outcome and stop loading. */
    method CheckSession(reply: SessionReply)
      modifies this
      ensures isAuthenticated == AuthenticatedAfterCheck(reply)
      ensures !loading
    {
      match reply {
        case SessionThrew =>
          isAuthenticated := false;
        case SessionAnswered(hasError, hasSession) =>
          if hasError {
            isAuthenticated := false;
          } else {
            isAuthenticated := hasSession;
          }
      }
      loading := false;
    }

    /** The `onAuthStateChange` callback: follow the event's session, and force
        signed-out on a sign-out. Loading is not touched. */
    method OnAuthStateChange(event: string, hasSession: bool)
      modifies this
      ensures isAuthenticated == AuthenticatedAfterEvent(event, hasSession)
      ensures loading == old(loading)
    {
      isAuthenticated := hasSession;
      if event == SignedOut {
        isAuthenticated := false;
      }
    }

    function Render(): (v: RouteView)
      reads this
      ensures v == RouteDecision(loading, isAuthenticated)
    {
      RouteDecision(loading, isAuthenticated)
    }
  }

  /** Mount, check, then a sign-out: the protected pages give way to the
      redirect, whatever the check said. */
  method SignOutRedirects(reply: SessionReply, hasSession: bool)
  {
    var guard := new ProtectedRouteState();
    assert guard.Render() == Spinner;
    guard.CheckSession(reply);
    guard.OnAuthStateChange(SignedOut, hasSession);
    assert guard.Render() == Redirect(LoginPath);
  }

  /** An event that lands before the initial check completes is overwritten
      by the check: the last write wins, and the spinner stays until then. */
  method EventBeforeCheck()
  {
    var guard := new ProtectedRouteState();
    guard.OnAuthStateChange("SIGNED_IN", true);
    assert guard.Render() == Spinner;
    guard.CheckSession(SessionAnswered(false, false));
    assert guard.Render() == Redirect(LoginPath);
  }
}
