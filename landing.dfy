/** How the access gate's pieces fit together: the middleware, the home page and
    the login form each choose a landing page by role, and the admin pages rely
    on `RoleGuard` for the role check the middleware does not make. */
module Landing {
  import opened Common
  import opened Identity
  import Middleware
  import HomePage
  import LoginForm
  import RoleGuard

  /** The page a signed-in user is sent to. */
  function LandingFor(user: AuthUser): (target: string)
    ensures target == "/admin" <==> RoleClaim(user) == Some("admin")
    ensures target in {"/admin", "/dashboard"}
  {
    if RoleClaim(user) == Some("admin") then "/admin" else "/dashboard"
  }

  /** The three places that pick a landing page agree: the middleware on an auth
      page, the home page once loading ends, and the login form after sign-in. */
  lemma LandingAgrees(user: AuthUser, accessToken: string, authPage: string)
    requires authPage in Middleware.AuthPagePaths
    ensures Middleware.Decide(authPage, Some(Session(Some(user), accessToken))) == Middleware.RedirectTo(LandingFor(user))
    ensures HomePage.Home(Some(user), false).navigate == Some(LandingFor(user))
    ensures LoginForm.SubmitOutcome(LoginForm.SignedIn(Some(user))).location == Some(LandingFor(user))
  {
  }

  /** The landing page is a fixed point of the middleware (no redirect loop), and an
      administrator's landing page lets them through the admin pages' guard. */
  lemma LandingIsStable(user: AuthUser, accessToken: string)
    ensures Middleware.Decide(LandingFor(user), Some(Session(Some(user), accessToken))) == Middleware.Next
    ensures LandingFor(user) == "/admin" ==> RoleGuard.Guard(Some(user), ["admin"]).renderChildren
  {
  }

  /** The middleware lets any session through `/admin`; only the page's guard turns a
      non-administrator away, back to the home page, which lands them on the dashboard. */
  lemma AdminCheckIsTheGuards(user: AuthUser, accessToken: string)
    requires RoleClaim(user) != Some("admin")
    ensures Middleware.Decide("/admin", Some(Session(Some(user), accessToken))) == Middleware.Next
    ensures RoleGuard.Guard(Some(user), ["admin"]).navigate == Some("/")
    ensures HomePage.Home(Some(user), false).navigate == Some("/dashboard")
  {
    assert !("admin" != "admin");
    if RoleClaim(user).Some? {
      assert RoleClaim(user).value !in ["admin"];
    }
  }

  /** Pages below `/admin` are outside the exact matcher: even a visitor with no
      session reaches them, and the guard is what sends them away. */
  lemma SubpagesRelyOnGuard(rest: string)
    requires rest != ""
    ensures Middleware.Gate("/admin/" + rest, None) == Middleware.Next
    ensures RoleGuard.Guard(None, ["admin"]).navigate == Some("/")
  {
    assert ("/admin/" + rest)[6] == '/';
    Middleware.MatcherIsExact("/admin/" + rest, None);
  }
}
