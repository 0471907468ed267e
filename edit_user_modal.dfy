/** `EditUserModal`: the admin's user-edit dialog. Its schema, the default
    field values taken from the user, the submit sequence and when it shows. */
module EditUserModal {
  import opened Common
  import opened Identity
  import opened Roles

  // ---------------------------------------------------------------------------
  // editUserSchema

  datatype EditField = EmailField | FullNameField | RoleField | PasswordField

  datatype EditUserData = EditUserData(email: string, fullName: string, role: UserRole, password: Option<string>)

  /** `z.enum(["athlete", "coach"])`, with no default. */
  function ParseEditRole(role: Option<string>): (r: Option<UserRole>)
    ensures r.Some? <==> role == Some("athlete") || role == Some("coach")
    ensures r.Some? ==> Some(RoleName(r.value)) == role
  {
    if role == Some("athlete") then Some(Athlete)
    else if role == Some("coach") then Some(Coach)
    else None
  }

  /** Whether a field of the schema's `.min(n)` is present with at least `n` UTF-16 code units. */
  predicate LongEnough(field: Option<string>, n: nat) {
    field.Some? && Utf16Length(field.value) >= n
  }

  /** The parsed form or the rejected fields. An undefined email, name or role is rejected
      as required; `emailIsValid` is the email check's verdict on a present email. A
      password may be absent, but a present one needs six code units. */
  function ValidateEditUser(email: Option<string>, emailIsValid: bool, fullName: Option<string>, role: Option<string>,
                            password: Option<string>): (r: Result<EditUserData, set<EditField>>)
    ensures r.Ok? <==>
      email.Some? && emailIsValid && LongEnough(fullName, 3) && ParseEditRole(role).Some?
      && (password.None? || LongEnough(password, 6))
    ensures r.Ok? ==>
      r.value == EditUserData(email.value, fullName.value, ParseEditRole(role).value, password) && r.value.role != Admin
    ensures r.Err? ==>
      && (EmailField in r.error <==> email.None? || !emailIsValid)
      && (FullNameField in r.error <==> !LongEnough(fullName, 3))
      && (RoleField in r.error <==> ParseEditRole(role).None?)
      && (PasswordField in r.error <==> password.Some? && !LongEnough(password, 6))
  {
    var errs :=
      (if email.Some? && emailIsValid then {} else {EmailField})
      + (if LongEnough(fullName, 3) then {} else {FullNameField})
      + (if ParseEditRole(role).Some? then {} else {RoleField})
      + (if password.None? || LongEnough(password, 6) then {} else {PasswordField});
    if errs == {} then Ok(EditUserData(email.value, fullName.value, ParseEditRole(role).value, password))
    else Err(errs)
  }

  // ---------------------------------------------------------------------------
  // defaultValues

  datatype FormDefaults = FormDefaults(email: Option<string>, fullName: Option<string>, role: Option<string>)

  function DefaultValues(user: Option<AuthUser>): (d: FormDefaults)
    ensures user.None? ==> d == FormDefaults(None, None, None)
    ensures user.Some? ==> d.email == Some(user.value.email)
    ensures user.Some? ==> d.fullName == MetaText(user.value.metadata, "full_name")
    ensures d.role == UserRoleClaim(user)
  {
    match user
    case None => FormDefaults(None, None, None)
    case Some(u) => FormDefaults(Some(u.email), MetaText(u.metadata, "full_name"), RoleClaim(u))
  }

  /** What a submission validates: the dialog renders no inputs, so the values are the
      defaults, with no password. */
  function SubmittedCheck(d: FormDefaults, emailIsValid: bool): Result<EditUserData, set<EditField>> {
    ValidateEditUser(d.email, emailIsValid, d.fullName, d.role, None)
  }

  /** An admin's own role cannot pass the schema: submitting an administrator's
      defaults is always rejected on the role field, whatever else they hold. */
  lemma AdminDefaultsRejected(user: AuthUser, emailIsValid: bool)
    requires RoleClaim(user) == Some(RoleName(Admin))
    ensures var r := SubmittedCheck(DefaultValues(Some(user)), emailIsValid);
      r.Err? && RoleField in r.error
  {
  }

  /** Submitting a user's defaults succeeds exactly when the email passes the check, the
      `full_name` metadata is a text of three code units or more, and the role claim is
      athlete or coach; a user without a name entry is rejected on the name field. The
      accepted form is the user's own email, name and role. */
  lemma DefaultsSubmission(user: AuthUser, emailIsValid: bool)
    ensures var r := SubmittedCheck(DefaultValues(Some(user)), emailIsValid);
      && (r.Ok? <==>
            emailIsValid && LongEnough(MetaText(user.metadata, "full_name"), 3)
            && (RoleClaim(user) == Some("athlete") || RoleClaim(user) == Some("coach")))
      && (MetaText(user.metadata, "full_name").None? ==> r.Err? && FullNameField in r.error)
      && (r.Ok? ==> r.value.email == user.email && Some(r.value.fullName) == MetaText(user.metadata, "full_name")
                    && Some(RoleName(r.value.role)) == RoleClaim(user) && r.value.password.None?)
  {
  }

  /** Without a user every default is undefined, so a submission is rejected on the
      email, name and role fields. */
  lemma NoUserDefaultsRejected(emailIsValid: bool)
    ensures var r := SubmittedCheck(DefaultValues(None), emailIsValid);
      r.Err? && r.error == {EmailField, FullNameField, RoleField}
  {
  }

  // ---------------------------------------------------------------------------
  // onSubmit

  /** The effects of a submission, in order. */
  datatype ModalEvent =
    | PatchRequest(path: string, data: EditUserData)
    | Toast(notice: Notice)
    | FormReset
    | SuccessCallback
    | CloseCallback

  /** The PATCH response: ok, an error body (whose `error` may be missing), or a rejected fetch. */
  datatype PatchReply = PatchOk | PatchRejected(errorField: Option<string>) | PatchThrew(message: string)

  const UpdatedText: string := "Usuario actualizado exitosamente"
  const DefaultErrorText: string := "Error al actualizar usuario"

  function SubmitEvents(user: Option<AuthUser>, data: EditUserData, reply: PatchReply): (es: seq<ModalEvent>)
    ensures user.None? ==> es == []
    ensures user.Some? ==> |es| >= 2 && es[0] == PatchRequest("/api/admin/users/" + user.value.id, data)
    ensures user.Some? && reply.PatchOk? ==>
      es[1..] == [Toast(SuccessNotice(UpdatedText)), FormReset, SuccessCallback, CloseCallback]
    ensures user.Some? && reply.PatchRejected? ==>
      es[1..] == [Toast(ErrorNotice(OrElse(reply.errorField, DefaultErrorText)))]
    ensures user.Some? && reply.PatchThrew? ==>
      es[1..] == [Toast(ErrorNotice(OrElse(Some(reply.message), DefaultErrorText)))]
    ensures !reply.PatchOk? ==> SuccessCallback !in es && CloseCallback !in es
  {
    match user
    case None => []
    case Some(u) =>
      var request := PatchRequest("/api/admin/users/" + u.id, data);
      match reply
      case PatchOk => [request, Toast(SuccessNotice(UpdatedText)), FormReset, SuccessCallback, CloseCallback]
      case PatchRejected(errorField) =>
        // thrown as `new Error(error.error || default)`, then shown as `error.message || default`
        var thrown := OrElse(errorField, DefaultErrorText);
        [request, Toast(ErrorNotice(OrElse(Some(thrown), DefaultErrorText)))]
      case PatchThrew(message) => [request, Toast(ErrorNotice(OrElse(Some(message), DefaultErrorText)))]
  }

  /** `if (!isOpen || !user) return null`, negated. */
  predicate Visible(isOpen: bool, user: Option<AuthUser>) {
    isOpen && user.Some?
  }

  /** The dialog's state: the default values fixed when it was created, `loading`,
      shown field errors, and every effect so far. */
  class Modal {
    const defaults: FormDefaults
    var loading: bool
    var fieldErrors: set<EditField>
    var events: seq<ModalEvent>

    /** The dialog as first rendered for `user`; the form keeps these defaults. */
    constructor (user: Option<AuthUser>)
      ensures defaults == DefaultValues(user)
      ensures !loading && fieldErrors == {} && events == []
    {
      defaults := DefaultValues(user);
      loading := false;
      fieldErrors := {};
      events := [];
    }

    /** `handleSubmit(onSubmit)`: validate the defaults, then submit for the current `user` prop. */
    method Submit(user: Option<AuthUser>, emailIsValid: bool, reply: PatchReply)
      modifies this
      ensures var v := SubmittedCheck(defaults, emailIsValid);
        && (v.Err? ==> fieldErrors == v.error && events == old(events) && loading == old(loading))
        && (v.Ok? ==> fieldErrors == {} && events == old(events) + SubmitEvents(user, v.value, reply))
        && (v.Ok? && user.Some? ==> !loading)
        && (user.None? ==> loading == old(loading))
    {
      var v := SubmittedCheck(defaults, emailIsValid);
      if v.Err? {
        fieldErrors := v.error;
        return;
      }
      fieldErrors := {};
      if user.None? {
        return;
      }
      loading := true;
      events := events + SubmitEvents(user, v.value, reply);
      loading := false;
    }
  }
}
