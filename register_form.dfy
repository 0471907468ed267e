/** `RegisterForm`: self-registration schema, the metadata sent with sign-up,
    and the mapping from sign-up failures to messages. */
module RegisterForm {
  import opened Common
  import opened Identity
  import opened Roles

  // ---------------------------------------------------------------------------
  // registerSchema

  datatype RegisterField = FullNameField | EmailField | PasswordField | RoleField

  datatype RegisterData = RegisterData(fullName: string, email: string, password: string, role: UserRole)

  /** `z.enum(["athlete", "coach"]).default("athlete")`. */
  function ParseRegisterRole(role: Option<string>): (r: Option<UserRole>)
    ensures role.None? ==> r == Some(Athlete)
    ensures role.Some? ==> (r.Some? <==> role.value == "athlete" || role.value == "coach")
    ensures role.Some? && r.Some? ==> RoleName(r.value) == role.value
    ensures r != Some(Admin)
  {
    match role
    case None => Some(Athlete)
    case Some(s) => if s == "athlete" then Some(Athlete) else if s == "coach" then Some(Coach) else None
  }

  /** The parsed form, or the set of rejected fields. Lengths are JavaScript's, in
      UTF-16 code units. */
  function ValidateRegister(fullName: string, email: string, emailIsValid: bool, password: string, role: Option<string>)
    : (r: Result<RegisterData, set<RegisterField>>)
    ensures r.Ok? <==> Utf16Length(fullName) >= 3 && emailIsValid && Utf16Length(password) >= 6 && ParseRegisterRole(role).Some?
    ensures r.Ok? ==> r.value == RegisterData(fullName, email, password, ParseRegisterRole(role).value)
    ensures r.Err? ==>
      && (FullNameField in r.error <==> Utf16Length(fullName) < 3)
      && (EmailField in r.error <==> !emailIsValid)
      && (PasswordField in r.error <==> Utf16Length(password) < 6)
      && (RoleField in r.error <==> ParseRegisterRole(role).None?)
  {
    var errs :=
      (if Utf16Length(fullName) >= 3 then {} else {FullNameField})
      + (if emailIsValid then {} else {EmailField})
      + (if Utf16Length(password) >= 6 then {} else {PasswordField})
      + (if ParseRegisterRole(role).Some? then {} else {RoleField});
    if errs == {} then Ok(RegisterData(fullName, email, password, ParseRegisterRole(role).value))
    else Err(errs)
  }

  /** Lengths count UTF-16 code units, not characters: two characters outside the Basic
      Multilingual Plane make a long-enough name and three a long-enough password. */
  lemma AstralCharactersCountTwice(c: char, email: string)
    requires Astral(c)
    ensures Utf16Length([c, c]) == 4 && Utf16Length([c, c, c]) == 6
    ensures ValidateRegister([c, c], email, true, [c, c, c], None).Ok?
  {
    Utf16LengthOfChar(c);
    Utf16LengthAppend([c], [c]);
    Utf16LengthAppend([c, c], [c]);
    assert [c] + [c] == [c, c] && [c, c] + [c] == [c, c, c];
  }

  /** `options.data` of the sign-up call. */
  function SignUpMetadata(data: RegisterData): (m: Metadata)
    ensures m.Keys == {"full_name", "role"}
    ensures MetaText(m, "full_name") == Some(data.fullName)
    ensures MetaText(m, "role") == Some(RoleName(data.role))
  {
    map["full_name" := Text(data.fullName), "role" := Text(RoleName(data.role))]
  }

  /** Whatever the form held, a self-registered user's role claim is athlete or coach. */
  lemma SelfRegistrationIsNeverAdmin(fullName: string, email: string, emailIsValid: bool, password: string,
                                     role: Option<string>, id: string)
    requires ValidateRegister(fullName, email, emailIsValid, password, role).Ok?
    ensures var data := ValidateRegister(fullName, email, emailIsValid, password, role).value;
      RoleClaim(AuthUser(id, email, SignUpMetadata(data))) in {Some("athlete"), Some("coach")}
  {
  }

  // ---------------------------------------------------------------------------
  // onSubmit

  /** What `signUp` produced; an error's `message` may be missing. */
  datatype SignUpReply = SignUpFailed(message: Option<string>) | SignedUp(user: Option<AuthUser>)

  datatype SignUpRequest = SignUpRequest(email: string, password: string, metadata: Metadata)

  datatype SubmitResult = SubmitResult(notice: Notice, navigate: Option<string>)

  const AlreadyRegistered: string := "already registered"
  const DuplicateEmailText: string := "Este email ya está registrado."
  const DefaultErrorText: string := "Error al registrar usuario"
  const NoUserText: string := "No se pudo crear el usuario"
  const RegisteredText: string := "¡Registro exitoso! Por favor, verifica tu email para activar tu cuenta."

  /** The `catch` block's message choice. */
  function ErrorText(message: Option<string>): (text: string)
    ensures message.Some? && Contains(message.value, AlreadyRegistered) ==> text == DuplicateEmailText
    ensures message.Some? && !Contains(message.value, AlreadyRegistered) && message.value != "" ==> text == message.value
    ensures message.None? || message.value == "" ==> text == DefaultErrorText
    ensures text != ""
  {
    if message.Some? && Contains(message.value, AlreadyRegistered) then DuplicateEmailText
    else OrElse(message, DefaultErrorText)
  }

  /** The error thrown for a missing user is shown with its own message. */
  lemma NoUserMessageShownVerbatim()
    ensures ErrorText(Some(NoUserText)) == NoUserText
  {
    assert forall k :: 0 <= k <= |NoUserText| - |AlreadyRegistered| ==> NoUserText[k] != 'a';
    NotContainedWithoutFirstChar(NoUserText, AlreadyRegistered);
  }

  /** The notice and the (delayed) navigation one accepted submission produces. */
  function SubmitOutcome(reply: SignUpReply): (r: SubmitResult)
    ensures r.navigate.Some? <==> reply.SignedUp? && reply.user.Some?
    ensures r.navigate.Some? ==> r.navigate == Some("/login") && r.notice == SuccessNotice(RegisteredText)
    ensures reply.SignedUp? && reply.user.None? ==> r.notice == ErrorNotice(ErrorText(Some(NoUserText)))
    ensures reply.SignUpFailed? ==> r.notice == ErrorNotice(ErrorText(reply.message))
  {
    match reply
    case SignUpFailed(message) => SubmitResult(ErrorNotice(ErrorText(message)), None)
    case SignedUp(user) =>
      if user.None? then SubmitResult(ErrorNotice(ErrorText(Some(NoUserText))), None)
      else SubmitResult(SuccessNotice(RegisteredText), Some("/login"))
  }

  /** The form component: `loading`, shown field errors, notices, issued sign-up
      requests and the navigation scheduled after success. */
  class Form {
    var loading: bool
    var fieldErrors: set<RegisterField>
    var notices: seq<Notice>
    var requests: seq<SignUpRequest>
    var scheduledNavigation: Option<string>

    constructor ()
      ensures !loading && fieldErrors == {} && notices == [] && requests == [] && scheduledNavigation.None?
    {
      loading := false;
      fieldErrors := {};
      notices := [];
      requests := [];
      scheduledNavigation := None;
    }

    /** `handleSubmit(onSubmit)`. */
    method Submit(fullName: string, email: string, emailIsValid: bool, password: string, role: Option<string>,
                  reply: SignUpReply)
      modifies this
      ensures var v := ValidateRegister(fullName, email, emailIsValid, password, role);
        && (v.Err? ==> fieldErrors == v.error && loading == old(loading) && notices == old(notices)
                       && requests == old(requests) && scheduledNavigation == old(scheduledNavigation))
        && (v.Ok? ==>
              && fieldErrors == {}
              && requests == old(requests) + [SignUpRequest(email, password, SignUpMetadata(v.value))]
              && notices == old(notices) + [SubmitOutcome(reply).notice]
              && scheduledNavigation ==
                   (if SubmitOutcome(reply).navigate.Some? then SubmitOutcome(reply).navigate else old(scheduledNavigation))
              && !loading)
    {
      var v := ValidateRegister(fullName, email, emailIsValid, password, role);
      if v.Err? {
        fieldErrors := v.error;
        return;
      }
      fieldErrors := {};
      loading := true;
      requests := requests + [SignUpRequest(v.value.email, v.value.password, SignUpMetadata(v.value))];
      var outcome := SubmitOutcome(reply);
      notices := notices + [outcome.notice];
      if outcome.navigate.Some? {
        scheduledNavigation := outcome.navigate;
      }
      loading := false;
    }
  }
}
