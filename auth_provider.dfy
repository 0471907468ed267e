/** `AuthProvider`: the session state every page reads. Two callbacks overwrite
    it: `refreshSession` (an explicit lookup) and the provider's auth-change
    subscription. Each is modelled as one atomic update; the value the backend
    resolves is a parameter. */
module AuthProvider {
  import opened Common
  import opened Identity

  /** The four pieces of state (`error` is declared but never assigned). */
  datatype AuthState = AuthState(
    session: Option<Session>,
    user: Option<AuthUser>,
    loading: bool,
    error: Option<string>)

  datatype AuthEvent = Refreshed(resolved: Option<Session>) | AuthChanged(current: Option<Session>)

  /** The `useState` initial values. */
  const Initial: AuthState := AuthState(None, None, true, None)

  /** One update. Both set `session` and derive `user` from it; only the
      auth-change callback ends loading. */
  function Step(st: AuthState, e: AuthEvent): AuthState {
    match e
    case Refreshed(s) => st.(session := s, user := UserOf(s))
    case AuthChanged(s) => st.(session := s, user := UserOf(s), loading := false)
  }

  /** The state after a sequence of updates, in order. */
  function Replay(st: AuthState, events: seq<AuthEvent>): AuthState
    decreases |events|
  {
    if events == [] then st else Replay(Step(st, events[0]), events[1..])
  }

  /** `user` is always the session's user (so null whenever the session is), and no error is set. */
  predicate Consistent(st: AuthState) {
    st.user == UserOf(st.session) && st.error.None?
  }

  predicate HasAuthChange(events: seq<AuthEvent>) {
    exists k :: 0 <= k < |events| && events[k].AuthChanged?
  }

  /** Consistency holds from the initial state through every sequence of updates. */
  lemma {:induction false} ReplayConsistent(st: AuthState, events: seq<AuthEvent>)
    requires Consistent(st)
    ensures Consistent(Replay(st, events))
    decreases |events|
  {
    if events != [] {
      ReplayConsistent(Step(st, events[0]), events[1..]);
    }
  }

  /** `loading` is still true exactly when it started true and no auth-change event has
      arrived: refreshes never touch it, and nothing sets it back to true. */
  lemma {:induction false} ReplayLoading(st: AuthState, events: seq<AuthEvent>)
    ensures Replay(st, events).loading <==> st.loading && !HasAuthChange(events)
    decreases |events|
  {
    if events != [] {
      ReplayLoading(Step(st, events[0]), events[1..]);
      if HasAuthChange(events[1..]) {
        var k :| 0 <= k < |events[1..]| && events[1..][k].AuthChanged?;
        assert events[k + 1].AuthChanged?;
      }
      if HasAuthChange(events) && !events[0].AuthChanged? {
        var k :| 0 <= k < |events| && events[k].AuthChanged?;
        assert events[1..][k - 1].AuthChanged?;
      }
    }
  }

  /** After a run, the session is the one the last update delivered. */
  lemma {:induction false} ReplayLastSession(st: AuthState, events: seq<AuthEvent>)
    requires events != []
    ensures Replay(st, events).session ==
      (match events[|events| - 1] case Refreshed(s) => s case AuthChanged(s) => s)
    decreases |events|
  {
    if |events| > 1 {
      ReplayLastSession(Step(st, events[0]), events[1..]);
    }
  }

  /** The provider component's state holder. */
  class Provider {
    var session: Option<Session>
    var user: Option<AuthUser>
    var loading: bool
    var error: Option<string>

    ghost function State(): AuthState
      reads this
    {
      AuthState(session, user, loading, error)
    }

    constructor ()
      ensures State() == Initial
      ensures Consistent(State())
    {
      session := None;
      user := None;
      loading := true;
      error := None;
    }

    /** `refreshSession`: store the looked-up session and return it. */
    method RefreshSession(resolved: Option<Session>) returns (current: Option<Session>)
      modifies this
      ensures State() == Step(old(State()), Refreshed(resolved))
      ensures current == resolved
      ensures loading == old(loading)
      ensures old(Consistent(State())) ==> Consistent(State())
    {
      session := resolved;
      user := if resolved.Some? then resolved.value.user else None;
      current := resolved;
    }

    /** The `onAuthStateChange` callback. */
    method OnAuthStateChange(current: Option<Session>)
      modifies this
      ensures State() == Step(old(State()), AuthChanged(current))
      ensures !loading
      ensures old(Consistent(State())) ==> Consistent(State())
    {
      session := current;
      user := if current.Some? then current.value.user else None;
      loading := false;
    }
  }
}
