/** `LoginForm`: the sign-in schema, the mapping from the provider's answer to
    a notice, and the role-dependent landing page after a successful sign-in. */
module LoginForm {
  import opened Common
  import opened Identity

  // ---------------------------------------------------------------------------
  // loginSchema

  datatype LoginField = EmailField | PasswordField

  function FieldMessage(f: LoginField): string {
    match f
    case EmailField => "Email inválido"
    case PasswordField => "La contraseña es requerida"
  }

  /** The fields the schema rejects; the email-format verdict is the schema library's. */
  function LoginErrors(emailIsValid: bool, password: string): (errs: set<LoginField>)
    ensures EmailField in errs <==> !emailIsValid
    ensures PasswordField in errs <==> password == ""
  {
    (if emailIsValid then {} else {EmailField}) + (if |password| >= 1 then {} else {PasswordField})
  }

  // ---------------------------------------------------------------------------
  // onSubmit

  /** What `signInWithPassword` produced: an error object, a result, or a rejected promise. */
  datatype SignInReply = SignInError(message: string) | SignedIn(user: Option<AuthUser>) | SignInThrew(message: string)

  datatype Credentials = Credentials(email: string, password: string)

  datatype SubmitResult = SubmitResult(notice: Notice, location: Option<string>)

  const EmailNotConfirmed: string := "Email not confirmed"
  const InvalidCredentials: string := "Invalid login credentials"
  const VerifyEmailText: string := "Por favor, verifica tu email antes de iniciar sesión"
  const WrongCredentialsText: string := "Email o contraseña incorrectos"
  const SignedInText: string := "¡Inicio de sesión exitoso!"
  const DefaultErrorText: string := "Error al iniciar sesión"

  /** The notice and the navigation one submission produces. */
  function SubmitOutcome(reply: SignInReply): (r: SubmitResult)
    ensures reply.SignInError? && Contains(reply.message, EmailNotConfirmed) ==>
      r == SubmitResult(ErrorNotice(VerifyEmailText), None)
    ensures (reply.SignInError? && !Contains(reply.message, EmailNotConfirmed)
             && Contains(reply.message, InvalidCredentials)) ==>
      r == SubmitResult(ErrorNotice(WrongCredentialsText), None)
    ensures (reply.SignInError? && !Contains(reply.message, EmailNotConfirmed)
             && !Contains(reply.message, InvalidCredentials)) ==>
      r == SubmitResult(ErrorNotice(OrElse(Some(reply.message), DefaultErrorText)), None)
    ensures reply.SignInThrew? ==> r == SubmitResult(ErrorNotice(OrElse(Some(reply.message), DefaultErrorText)), None)
    ensures reply.SignedIn? ==> r.notice == SuccessNotice(SignedInText)
    ensures reply.SignedIn? && UserRoleClaim(reply.user) == Some("admin") ==> r.location == Some("/admin")
    ensures reply.SignedIn? && UserRoleClaim(reply.user) != Some("admin") ==> r.location == Some("/dashboard")
    ensures r.location.Some? <==> reply.SignedIn?
  {
    match reply
    case SignInError(message) =>
      if Contains(message, EmailNotConfirmed) then SubmitResult(ErrorNotice(VerifyEmailText), None)
      else if Contains(message, InvalidCredentials) then SubmitResult(ErrorNotice(WrongCredentialsText), None)
      // rethrown, then caught below
      else SubmitResult(ErrorNotice(OrElse(Some(message), DefaultErrorText)), None)
    case SignInThrew(message) =>
      SubmitResult(ErrorNotice(OrElse(Some(message), DefaultErrorText)), None)
    case SignedIn(user) =>
      var userRole := UserRoleClaim(user);
      SubmitResult(SuccessNotice(SignedInText), Some(if userRole == Some("admin") then "/admin" else "/dashboard"))
  }

  /** A provider message naming both conditions is reported as an unconfirmed email. */
  lemma UnconfirmedTakesPrecedence(rest: string)
    ensures SubmitOutcome(SignInError(EmailNotConfirmed + rest)).notice == ErrorNotice(VerifyEmailText)
  {
    ContainsPrefix(EmailNotConfirmed, rest);
  }

  /** The form component: its `loading` flag, the validation errors it shows, the
      notices and sign-in requests it has issued and `window.location.href`. */
  class Form {
    var loading: bool
    var fieldErrors: set<LoginField>
    var notices: seq<Notice>
    var requests: seq<Credentials>
    var location: Option<string>

    constructor ()
      ensures !loading && fieldErrors == {} && notices == [] && requests == [] && location.None?
    {
      loading := false;
      fieldErrors := {};
      notices := [];
      requests := [];
      location := None;
    }

    /** `handleSubmit(onSubmit)`: validate, and only on success sign in. */
    method Submit(email: string, emailIsValid: bool, password: string, reply: SignInReply)
      modifies this
      ensures fieldErrors == LoginErrors(emailIsValid, password)
      ensures fieldErrors != {} ==>
        loading == old(loading) && notices == old(notices) && requests == old(requests) && location == old(location)
      ensures fieldErrors == {} ==>
        && requests == old(requests) + [Credentials(email, password)]
        && notices == old(notices) + [SubmitOutcome(reply).notice]
        && location == (if reply.SignedIn? then SubmitOutcome(reply).location else old(location))
        && !loading
    {
      fieldErrors := LoginErrors(emailIsValid, password);
      if fieldErrors != {} {
        return;
      }
      loading := true;
      requests := requests + [Credentials(email, password)];
      var outcome := SubmitOutcome(reply);
      notices := notices + [outcome.notice];
      if outcome.location.Some? {
        location := outcome.location;
      }
      loading := false;
    }
  }
}
