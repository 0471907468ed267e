/** `POST /api/admin/users`: create a confirmed auth account, upsert its profile,
    and delete the account again when the profile write fails. The outcome of
    each backend call is a parameter. */
module UsersRoute {
  import opened Common
  import opened Identity
  import opened Backend

  const NoUserText: string := "No se pudo crear el usuario"
  const CreateUserErrorText: string := "Error al crear usuario"

  /** The request body, copied without checks. */
  datatype UserBody = UserBody(email: string, password: string, fullName: string, role: string)

  /** What `auth.admin.createUser` produced: an error, a result without a user, or the new user's id. */
  datatype CreateReply = CreateFailed(fault: Fault) | CreatedWithoutUser | CreatedUser(id: string)

  /** The JSON response: the created user, or status 500 and a message. */
  datatype UsersReply = UserCreated(user: AuthUser) | UserFailed(status: int, error: string)

  /** `user_metadata` of the new account. */
  function NewUserMetadata(body: UserBody): (m: Metadata)
    ensures m.Keys == {"full_name", "role", "email_verified", "phone_verified", "phone"}
    ensures MetaText(m, "full_name") == Some(body.fullName) && MetaText(m, "role") == Some(body.role)
    ensures m["email_verified"] == Flag(true) && m["phone_verified"] == Flag(false) && m["phone"] == Text("")
  {
    map["full_name" := Text(body.fullName), "role" := Text(body.role),
        "email_verified" := Flag(true), "phone_verified" := Flag(false), "phone" := Text("")]
  }

  /** The account `createUser` stores: the body's email and password, confirmed. */
  function NewAccount(id: string, body: UserBody): (a: Account)
    ensures a.user.id == id && a.user.email == body.email && a.password == body.password
    ensures a.emailConfirmed
    ensures RoleClaim(a.user) == Some(body.role)
  {
    Account(AuthUser(id, body.email, NewUserMetadata(body)), body.password, true)
  }

  /** The `catch` block: an `Error` instance shows its own message (even an empty one),
      anything else the fixed text. */
  function CaughtMessage(fault: Fault): (text: string)
    ensures fault.isError ==> text == fault.message
    ensures !fault.isError ==> text == CreateUserErrorText
  {
    if fault.isError then fault.message else CreateUserErrorText
  }

  /** The response and the resulting account and profile tables of one request.
      `upsertFault` is the profile write's failure, if any; `deleteSucceeds` says whether
      the compensating delete (whose result the handler ignores) took effect. */
  function PostUser(accounts: map<string, Account>, profiles: map<string, Profile>, body: UserBody,
                    create: CreateReply, upsertFault: Option<Fault>, deleteSucceeds: bool)
    : (r: (UsersReply, map<string, Account>, map<string, Profile>))
    ensures r.0.UserCreated? <==> create.CreatedUser? && upsertFault.None?
    ensures r.0.UserFailed? ==> r.0.status == 500
    ensures !create.CreatedUser? ==> r.1 == accounts && r.2 == profiles
    ensures create.CreatedUser? && upsertFault.None? ==>
      && r.0 == UserCreated(NewAccount(create.id, body).user)
      && r.1 == accounts[create.id := NewAccount(create.id, body)]
      && r.2 == profiles[create.id := Profile(create.id, body.fullName, body.role)]
    ensures create.CreatedUser? && upsertFault.Some? ==>
      && r.0 == UserFailed(500, CaughtMessage(upsertFault.value))
      && r.2 == profiles
      && r.1 == (if deleteSucceeds then accounts[create.id := NewAccount(create.id, body)] - {create.id}
                 else accounts[create.id := NewAccount(create.id, body)])
  {
    match create
    case CreateFailed(fault) => (UserFailed(500, CaughtMessage(fault)), accounts, profiles)
    case CreatedWithoutUser => (UserFailed(500, CaughtMessage(Fault(NoUserText, true))), accounts, profiles)
    case CreatedUser(id) =>
      var account := NewAccount(id, body);
      var created := accounts[id := account];
      if upsertFault.Some? then
        (UserFailed(500, CaughtMessage(upsertFault.value)), if deleteSucceeds then created - {id} else created, profiles)
      else
        (UserCreated(account.user), created, profiles[id := Profile(id, body.fullName, body.role)])
  }

  /** Every account has a profile. */
  predicate EveryAccountHasProfile(accounts: map<string, Account>, profiles: map<string, Profile>) {
    accounts.Keys <= profiles.Keys
  }

  /** When the compensating delete works, a request never leaves an account without a
      profile, and the profile written carries the account's name and role. */
  lemma PostUserKeepsAccountsProfiled(accounts: map<string, Account>, profiles: map<string, Profile>, body: UserBody,
                                      create: CreateReply, upsertFault: Option<Fault>)
    requires EveryAccountHasProfile(accounts, profiles)
    ensures var r := PostUser(accounts, profiles, body, create, upsertFault, true);
      EveryAccountHasProfile(r.1, r.2)
      && (r.0.UserCreated? ==>
            && r.2[r.0.user.id].role == body.role && MetaText(r.0.user.metadata, "role") == Some(body.role)
            && r.2[r.0.user.id].fullName == body.fullName && MetaText(r.0.user.metadata, "full_name") == Some(body.fullName))
  {
  }

  /** The handler ignores the delete's result: if it fails after a failed profile
      write, the new account stays without a profile. */
  lemma FailedDeleteLeavesOrphan(accounts: map<string, Account>, profiles: map<string, Profile>, body: UserBody,
                                 id: string, fault: Fault)
    requires id !in profiles
    ensures var r := PostUser(accounts, profiles, body, CreatedUser(id), Some(fault), false);
      r.0 == UserFailed(500, CaughtMessage(fault)) && id in r.1 && id !in r.2
      && !EveryAccountHasProfile(r.1, r.2)
  {
  }

  /** Nothing restricts the role: a body asking for "admin" yields an account whose role claim is admin. */
  lemma AnyRoleIsStored(accounts: map<string, Account>, profiles: map<string, Profile>, body: UserBody, id: string)
    requires body.role == "admin"
    ensures var r := PostUser(accounts, profiles, body, CreatedUser(id), None, false);
      r.0.UserCreated? && RoleClaim(r.1[id].user) == Some("admin") && r.2[id].role == "admin"
  {
  }

  /** The route handler against the database, call by call. */
  method HandlePost(db: Database, body: UserBody, create: CreateReply, upsertFault: Option<Fault>, deleteSucceeds: bool)
    returns (reply: UsersReply)
    modifies db
    ensures var r := PostUser(old(db.accounts), old(db.profiles), body, create, upsertFault, deleteSucceeds);
      reply == r.0 && db.Snapshot() == old(db.Snapshot()).(accounts := r.1, profiles := r.2)
  {
    match create {
      case CreateFailed(fault) =>
        return UserFailed(500, CaughtMessage(fault));
      case CreatedWithoutUser =>
        return UserFailed(500, CaughtMessage(Fault(NoUserText, true)));
      case CreatedUser(id) =>
        var account := NewAccount(id, body);
        db.PutAccount(id, account);
        if upsertFault.Some? {
          if deleteSucceeds {
            db.DeleteAccount(id);
          }
          return UserFailed(500, CaughtMessage(upsertFault.value));
        }
        db.UpsertProfile(Profile(id, body.fullName, body.role));
        return UserCreated(account.user);
    }
  }
}
