/** What a page does once the auth context has produced `user`, `session` and
    `loading`: an optional navigation and notice (from the effect) and the view
    it renders. */
module PageTypes {
  import opened Common

  datatype View = LoadingView | NothingView | Content

  datatype PageResult = PageResult(navigate: Option<string>, notice: Option<Notice>, view: View)
}

/** `HomePage`: send the visitor on by auth state and role once loading ends. */
module HomePage {
  import opened Common
  import opened Identity
  import opened PageTypes

  function Home(user: Option<AuthUser>, loading: bool): (p: PageResult)
    ensures loading ==> p == PageResult(None, None, LoadingView)
    ensures !loading && user.Some? && RoleClaim(user.value) == Some("admin") ==> p.navigate == Some("/admin")
    ensures !loading && user.Some? && RoleClaim(user.value) != Some("admin") ==> p.navigate == Some("/dashboard")
    ensures !loading && user.None? ==> p.navigate == Some("/login")
    ensures !loading ==> p.view == NothingView && p.notice.None?
  {
    if loading then
      PageResult(None, None, LoadingView)
    else if user.Some? then
      var userRole := RoleClaim(user.value);
      PageResult(Some(if userRole == Some("admin") then "/admin" else "/dashboard"), None, NothingView)
    else
      PageResult(Some("/login"), None, NothingView)
  }
}

/** `DashboardPage`: requires a session, with no role check of its own. */
module DashboardPage {
  import opened Common
  import opened Identity
  import opened PageTypes

  const SignInRequiredText: string := "Debes iniciar sesión para acceder al dashboard"

  function Dashboard(user: Option<AuthUser>, session: Option<Session>, loading: bool): (p: PageResult)
    ensures loading ==> p == PageResult(None, None, LoadingView)
    ensures !loading && session.None? ==>
      p.navigate == Some("/login") && p.notice == Some(ErrorNotice(SignInRequiredText))
    ensures p.view == Content <==> !loading && session.Some? && user.Some?
    ensures p.navigate.Some? <==> !loading && session.None?
    // a session whose user has not arrived yet: nothing shown, nobody sent away
    ensures !loading && session.Some? && user.None? ==> p == PageResult(None, None, NothingView)
  {
    var redirect := !loading && session.None?;
    var navigate := if redirect then Some("/login") else None;
    var notice := if redirect then Some(ErrorNotice(SignInRequiredText)) else None;
    if loading then PageResult(navigate, notice, LoadingView)
    else if session.None? || user.None? then PageResult(navigate, notice, NothingView)
    else PageResult(navigate, notice, Content)
  }

  /** Every role, and a missing claim, sees the content once signed in. */
  lemma NoRoleCheck(user: AuthUser, session: Session, other: AuthUser)
    ensures Dashboard(Some(user), Some(session), false) == Dashboard(Some(other), Some(session), false)
    ensures Dashboard(Some(user), Some(session), false).view == Content
  {
  }
}
