/**
 * The admin sign-in form: the empty-field check, the call to the identity
 * provider with the trimmed email, the mapping of the provider's error to a
 * message for the user, and the `loading`/`error` state around the call.
 */
module LoginPage {
  import opened Common
  import opened Text

  const MissingFieldsMessage: string := "Por favor completa todos los campos"
  const InvalidCredentialsMessage: string := "Credenciales inválidas. Verifica tu email y contraseña."
  const EmailNotConfirmedMessage: string := "Por favor confirma tu email antes de iniciar sesión."
  const AuthErrorPrefix: string := "Error de autenticación: "
  const NoSessionMessage: string := "No se pudo crear la sesión"
  const DiagnoseMissingFieldsAlert: string := "Por favor ingresa email y contraseña primero"
  const DashboardPath: string := "/admin/dashboard"
  const ThrownFallbackMessage: string := "Error al iniciar sesión"

  /** The provider's error message turned into the one shown: invalid
      credentials first, then an unconfirmed email, else the raw message
      behind a prefix. */
  function SignInErrorMessage(message: string): (shown: string)
    ensures Contains(message, "Invalid login credentials") ==> shown == InvalidCredentialsMessage
    ensures !Contains(message, "Invalid login credentials") && Contains(message, "Email not confirmed") ==>
      shown == EmailNotConfirmedMessage
    ensures !Contains(message, "Invalid login credentials") && !Contains(message, "Email not confirmed") ==>
      shown == AuthErrorPrefix + message
  {
    if Contains(message, "Invalid login credentials") then InvalidCredentialsMessage
    else if Contains(message, "Email not confirmed") then EmailNotConfirmedMessage
    else AuthErrorPrefix + message
  }

  /** The raw message is always recoverable from the prefixed form. */
  lemma PrefixedMessageRecoverable(message: string)
    requires !Contains(message, "Invalid login credentials") && !Contains(message, "Email not confirmed")
    ensures StartsWith(SignInErrorMessage(message), AuthErrorPrefix)
    ensures SignInErrorMessage(message)[|AuthErrorPrefix|..] == message
  {
    var shown := AuthErrorPrefix + message;
    assert shown[..|AuthErrorPrefix|] == AuthErrorPrefix;
  }

  /** What the sign-in call came back with: an exception of its own (an
      `Error` with its message, or `None` for a thrown value that is not an
      `Error`), or an answer carrying an error object (with its message) or
      not, and a session or not. */
  datatype SignInReply =
    | SignInThrew(thrown: Option<string>)
    | SignInAnswered(error: Option<string>, hasSession: bool)

  /** The credentials sent: the email trimmed, the password as typed; nothing
      when either field is empty. */
  function SignInRequest(email: string, password: string): (req: Option<(string, string)>)
    ensures req.None? <==> email == "" || password == ""
    ensures req.Some? ==> req.value.0 == Trim(email) && req.value.1 == password
  {
    if email == "" || password == "" then None else Some((Trim(email), password))
  }

  /** How a reply ends: an error message, or a navigation to the dashboard. */
  function ReplyOutcome(reply: SignInReply): (r: Result<string>)
    ensures r.Ok? ==> r.value == DashboardPath
    ensures r.Ok? <==> reply.SignInAnswered? && reply.error.None? && reply.hasSession
    ensures reply.SignInThrew? && reply.thrown.Some? ==> r == Err(reply.thrown.value)
    ensures reply.SignInThrew? && reply.thrown.None? ==> r == Err(ThrownFallbackMessage)
    ensures reply.SignInAnswered? && reply.error.Some? ==> r == Err(SignInErrorMessage(reply.error.value))
    ensures reply.SignInAnswered? && reply.error.None? && !reply.hasSession ==> r == Err(NoSessionMessage)
  {
    match reply
    case SignInThrew(thrown) => Err(if thrown.Some? then thrown.value else ThrownFallbackMessage)
    case SignInAnswered(error, hasSession) =>
      if error.Some? then Err(SignInErrorMessage(error.value))
      else if hasSession then Ok(DashboardPath)
      else Err(NoSessionMessage)
  }

  /** `handleDiagnose`'s check before it runs the diagnosis. */
  function DiagnoseAlert(email: string, password: string): (alert: Option<string>)
    ensures alert.Some? <==> SignInRequest(email, password).None?
    ensures alert.Some? ==> alert.value == DiagnoseMissingFieldsAlert
  {
    if email == "" || password == "" then Some(DiagnoseMissingFieldsAlert) else None
  }

  /** The page's state. `pending` marks a sign-in call in flight. */
  class LoginState {
    var email: string
    var password: string
    var loading: bool
    var error: Option<string>
    var navigatedTo: Option<string>
    ghost var pending: bool

    constructor ()
      ensures email == "" && password == "" && !loading && error == None && navigatedTo == None && !pending
    {
      email := "";
      password := "";
      loading := false;
      error := None;
      navigatedTo := None;
      pending := false;
    }

    method SetEmail(v: string)
      modifies this
      ensures email == v && password == old(password) && loading == old(loading)
      ensures error == old(error) && navigatedTo == old(navigatedTo) && pending == old(pending)
    {
      email := v;
    }

    method SetPassword(v: string)
      modifies this
      ensures password == v && email == old(email) && loading == old(loading)
      ensures error == old(error) && navigatedTo == old(navigatedTo) && pending == old(pending)
    {
      password := v;
    }

    /** `handleSubmit` up to the awaited call: clear the error and start
        loading; with an empty field, fail at once and stop loading;
        otherwise return the request and stay loading until the reply. */
    method BeginSubmit() returns (request: Option<(string, string)>)
      modifies this
      ensures request == SignInRequest(email, password)
      ensures request.None? ==> error == Some(MissingFieldsMessage) && !loading && !pending
      ensures request.Some? ==> error == None && loading && pending
      ensures email == old(email) && password == old(password) && navigatedTo == old(navigatedTo)
    {
      error := None;
      loading := true;
      if email == "" || password == "" {
        error := Some(MissingFieldsMessage);
        loading := false;
        pending := false;
        return None;
      }
      request := Some((Trim(email), password));
      pending := true;
    }

    /** The rest of `handleSubmit` once the reply is in: navigate or show the
        mapped message; loading ends either way. */
    method CompleteSubmit(reply: SignInReply)
      requires pending
      modifies this
      ensures var r := ReplyOutcome(reply);
        (r.Ok? ==> navigatedTo == Some(r.value) && error == old(error))
        && (r.Err? ==> error == Some(r.message) && navigatedTo == old(navigatedTo))
      ensures !loading && !pending
      ensures email == old(email) && password == old(password)
    {
      match ReplyOutcome(reply) {
        case Ok(path) =>
          navigatedTo := Some(path);
        case Err(message) =>
          error := Some(message);
      }
      loading := false;
      pending := false;
    }
  }

  /** A whole submit, both phases: loading is off afterwards, and the page
      navigates exactly when the reply carried a session and no error. */
  method SubmitOnce(s: LoginState, reply: SignInReply)
    modifies s
    ensures !s.loading
    ensures s.navigatedTo == Some(DashboardPath) || s.navigatedTo == old(s.navigatedTo)
    ensures s.error == None <==> SignInRequest(old(s.email), old(s.password)).Some? && ReplyOutcome(reply).Ok?
  {
    var request := s.BeginSubmit();
    if request.Some? {
      s.CompleteSubmit(reply);
    }
  }
}
