/** The identity the external auth provider hands out: a user with free-form
    metadata (full name, role claim, verification flags) and the session that
    carries it. */
module Identity {
  import opened Common

  /** A JSON value stored in user metadata; the application stores strings and booleans. */
  datatype MetaValue = Text(text: string) | Flag(flag: bool)

  type Metadata = map<string, MetaValue>

  datatype AuthUser = AuthUser(id: string, email: string, metadata: Metadata)

  /** A session may, in the provider's typing, lack its user. */
  datatype Session = Session(user: Option<AuthUser>, accessToken: string)

  /** `metadata?.[key]` when it holds a string. */
  function MetaText(metadata: Metadata, key: string): (r: Option<string>)
    ensures r.Some? <==> key in metadata && metadata[key].Text?
    ensures r.Some? ==> metadata[key] == Text(r.value)
  {
    if key in metadata && metadata[key].Text? then Some(metadata[key].text) else None
  }

  /** `user.user_metadata?.role`. */
  function RoleClaim(user: AuthUser): Option<string> {
    MetaText(user.metadata, "role")
  }

  /** `user?.user_metadata?.role` for a user that may be absent. */
  function UserRoleClaim(user: Option<AuthUser>): Option<string> {
    if user.Some? then RoleClaim(user.value) else None
  }

  /** `session?.user ?? null`. */
  function UserOf(session: Option<Session>): Option<AuthUser> {
    if session.Some? then session.value.user else None
  }

  /** `session?.user?.user_metadata?.role`. */
  function SessionRoleClaim(session: Option<Session>): Option<string> {
    UserRoleClaim(UserOf(session))
  }
}
