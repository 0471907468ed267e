/** `scripts/update-admin.ts`: change an administrator's email, password or
    name from the command line. Environment variables and arguments are
    parameters; the lookup and update calls run against the database model,
    and whether they fail is a parameter. */
module UpdateAdmin {
  import opened Common
  import opened Identity
  import opened Backend

  /** The optional changes taken from `argv[3..5]`. */
  datatype Updates = Updates(email: Option<string>, password: Option<string>, fullName: Option<string>)

  /** `{ ...metadata, full_name: updates.full_name || metadata.full_name }`. When the new
      name is missing or empty the old entry is kept (an absent one stays absent, since
      an `undefined` value is dropped when the request is serialised). */
  function MergeMetadata(metadata: Metadata, fullName: Option<string>): (m: Metadata)
    ensures Truthy(fullName) ==> m.Keys == metadata.Keys + {"full_name"} && m["full_name"] == Text(fullName.value)
    ensures !Truthy(fullName) ==> m == metadata
    ensures forall k :: k in metadata && k != "full_name" ==> k in m && m[k] == metadata[k]
  {
    if Truthy(fullName) then metadata["full_name" := Text(fullName.value)] else metadata
  }

  /** The merge never touches the role, so an administrator stays one. */
  lemma MergeKeepsRole(metadata: Metadata, fullName: Option<string>)
    ensures MetaText(MergeMetadata(metadata, fullName), "role") == MetaText(metadata, "role")
  {
    assert "role" != "full_name";
  }

  /** Merging the same name twice is the same as merging it once. */
  lemma MergeIdempotent(metadata: Metadata, fullName: Option<string>)
    ensures MergeMetadata(MergeMetadata(metadata, fullName), fullName) == MergeMetadata(metadata, fullName)
  {
  }

  predicate IsAdmin(account: Account) {
    MetaText(account.user.metadata, "role") == Some("admin")
  }

  /** The account after `updateUserById`: an email or password left undefined is not changed. */
  function UpdatedAccount(account: Account, updates: Updates): (a: Account)
    ensures a.user.id == account.user.id && a.emailConfirmed == account.emailConfirmed
    ensures a.user.email == (if updates.email.Some? then updates.email.value else account.user.email)
    ensures a.password == (if updates.password.Some? then updates.password.value else account.password)
    ensures a.user.metadata == MergeMetadata(account.user.metadata, updates.fullName)
  {
    Account(AuthUser(account.user.id, if updates.email.Some? then updates.email.value else account.user.email,
                     MergeMetadata(account.user.metadata, updates.fullName)),
            if updates.password.Some? then updates.password.value else account.password,
            account.emailConfirmed)
  }

  /** An update made through the script leaves an administrator an administrator. */
  lemma UpdateKeepsAdmin(account: Account, updates: Updates)
    requires IsAdmin(account)
    ensures IsAdmin(UpdatedAccount(account, updates))
  {
    MergeKeepsRole(account.user.metadata, updates.fullName);
  }

  /** Whether `updateAdmin` writes: the lookup succeeds, the target is an administrator
      and the update call succeeds. */
  predicate UpdateApplies(accounts: map<string, Account>, userId: string, lookupFails: bool, updateFails: bool) {
    !lookupFails && userId in accounts && IsAdmin(accounts[userId]) && !updateFails
  }

  /** `updateAdmin(userId, updates)`: look the user up, refuse anyone who is not an
      administrator, then update. Every failure exits with status 1 and writes nothing. */
  method RunUpdate(db: Database, userId: string, updates: Updates, lookupFails: bool, updateFails: bool)
    returns (exitCode: int)
    modifies db
    ensures exitCode == 0 <==> UpdateApplies(old(db.accounts), userId, lookupFails, updateFails)
    ensures exitCode != 0 ==> exitCode == 1 && db.Snapshot() == old(db.Snapshot())
    ensures exitCode == 0 ==>
      db.Snapshot() == old(db.Snapshot()).(accounts := old(db.accounts)[userId := UpdatedAccount(old(db.accounts)[userId], updates)])
  {
    if lookupFails || userId !in db.accounts {
      return 1;
    }
    var account := db.accounts[userId];
    if !IsAdmin(account) {
      return 1;
    }
    if updateFails {
      return 1;
    }
    db.PutAccount(userId, UpdatedAccount(account, updates));
    return 0;
  }

  /** `process.argv[i]`, undefined past the end. */
  function Arg(argv: seq<string>, i: nat): (a: Option<string>)
    ensures a.Some? <==> i < |argv|
    ensures a.Some? ==> a.value == argv[i]
  {
    if i < |argv| then Some(argv[i]) else None
  }

  /** The whole script: the environment check at load time, then the user id argument,
      then `updateAdmin` with the optional email, password and name arguments. */
  method RunScript(db: Database, supabaseUrl: Option<string>, serviceKey: Option<string>, argv: seq<string>,
                   lookupFails: bool, updateFails: bool) returns (exitCode: int)
    modifies db
    ensures !(Truthy(supabaseUrl) && Truthy(serviceKey)) ==> exitCode == 1 && db.Snapshot() == old(db.Snapshot())
    ensures !Truthy(Arg(argv, 2)) ==> exitCode == 1 && db.Snapshot() == old(db.Snapshot())
    ensures exitCode == 0 <==>
      Truthy(supabaseUrl) && Truthy(serviceKey) && Truthy(Arg(argv, 2))
      && UpdateApplies(old(db.accounts), argv[2], lookupFails, updateFails)
    ensures exitCode == 0 ==>
      db.Snapshot() == old(db.Snapshot()).(accounts := old(db.accounts)[argv[2] :=
        UpdatedAccount(old(db.accounts)[argv[2]], Updates(Arg(argv, 3), Arg(argv, 4), Arg(argv, 5)))])
    ensures exitCode != 0 ==> exitCode == 1 && db.Snapshot() == old(db.Snapshot())
  {
    if !Truthy(supabaseUrl) || !Truthy(serviceKey) {
      return 1;
    }
    var userId := Arg(argv, 2);
    if !Truthy(userId) {
      return 1;
    }
    exitCode := RunUpdate(db, userId.value, Updates(Arg(argv, 3), Arg(argv, 4), Arg(argv, 5)), lookupFails, updateFails);
  }
}
