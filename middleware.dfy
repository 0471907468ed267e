/** The request-boundary gate: before a page request is served, the session is
    looked up and the request is either passed on or redirected. */
module Middleware {
  import opened Common
  import opened Identity

  datatype Decision = Next | RedirectTo(target: string)

  const ProtectedPaths: seq<string> := ["/admin", "/dashboard", "/profile"]
  const AuthPagePaths: seq<string> := ["/login", "/register"]

  /** `config.matcher`: the only paths the gate is run for. */
  const MatcherPaths: seq<string> := ["/admin", "/dashboard", "/profile", "/login", "/register"]

  /** `middleware(req)` for the request path and the session the lookup resolved to. */
  function Decide(path: string, session: Option<Session>): (d: Decision)
    // a protected page without a session goes to the login page
    ensures path in ProtectedPaths && session.None? ==> d == RedirectTo("/login")
    // a signed-in visitor of login/register lands by role
    ensures path in AuthPagePaths && session.Some? ==>
      d == RedirectTo(if SessionRoleClaim(session) == Some("admin") then "/admin" else "/dashboard")
    // an admin never sees the plain dashboard
    ensures path == "/dashboard" && session.Some? && SessionRoleClaim(session) == Some("admin") ==>
      d == RedirectTo("/admin")
    // no role check on /admin: any session passes
    ensures path == "/admin" && session.Some? ==> d == Next
    ensures path in AuthPagePaths && session.None? ==> d == Next
    ensures path == "/profile" && session.Some? ==> d == Next
    ensures path == "/dashboard" && session.Some? && SessionRoleClaim(session) != Some("admin") ==> d == Next
    // redirects only ever happen on matcher paths, and only to three targets
    ensures d.RedirectTo? ==> path in MatcherPaths && d.target in {"/login", "/admin", "/dashboard"}
  {
    if path in ProtectedPaths && session.None? then
      RedirectTo("/login")
    else if path in AuthPagePaths && session.Some? then
      var userRole := SessionRoleClaim(session);
      RedirectTo(if userRole == Some("admin") then "/admin" else "/dashboard")
    else if path == "/dashboard" && SessionRoleClaim(session) == Some("admin") then
      RedirectTo("/admin")
    else
      Next
  }

  /** The framework runs `middleware` only on matcher paths; every other request passes. */
  function Gate(path: string, session: Option<Session>): (d: Decision)
    ensures path !in MatcherPaths ==> d == Next
  {
    if path in MatcherPaths then Decide(path, session) else Next
  }

  /** The matcher loses nothing: restricting the gate to it gives the same decision everywhere,
      and every matcher path can redirect for some session. */
  lemma MatcherIsExact(path: string, session: Option<Session>)
    ensures Gate(path, session) == Decide(path, session)
    ensures path in MatcherPaths <==>
      Decide(path, None).RedirectTo? || Decide(path, Some(Session(None, ""))).RedirectTo?
  {
  }

  /** The protected set and the auth-page set are disjoint, so at most one of the
      first two branches applies to a request. */
  lemma PathSetsDisjoint(path: string)
    ensures !(path in ProtectedPaths && path in AuthPagePaths)
  {
  }
}
