/** The route table of `src/App.tsx`: `/` is the dashboard behind the file's
    own `RequireAuth`, `/auth` is the landing page, every other path redirects
    to `/`. The table does not use `RedirectIfAuthed`. */
module App {
  import opened JsValues
  import opened AuthTypes
  import opened Router
  import AuthContext
  import AuthLanding
  import RouteGuards

  /** The pages the table can show. */
  datatype Screen = DashboardScreen | AuthLandingScreen

  /** What a route renders: a page, or a redirect. */
  datatype Element = Show(screen: Screen) | Redirect(navigation: Navigation)

  /** The `RequireAuth` local to `src/App.tsx`: the child with a user, otherwise
      a redirect to `/auth` that attaches no state. */
  function RequireAuthLocal(user: Option<User>, child: Screen): (e: Element)
    ensures e.Show? <==> user.Some?
    ensures e.Show? ==> e.screen == child
    ensures e.Redirect? ==> e.navigation == Navigation("/auth", None, true)
  {
    if user.Some? then Show(child) else Redirect(Navigation("/auth", None, true))
  }

  /** The element the table renders for `path`. */
  function Route(path: string, user: Option<User>): (e: Element)
    ensures path == "/auth" ==> e == Show(AuthLandingScreen)
    ensures path == "/" ==> e == RequireAuthLocal(user, DashboardScreen)
    ensures path != "/" && path != "/auth" ==> e == Redirect(Navigation("/", None, true))
  {
    if path == "/" then RequireAuthLocal(user, DashboardScreen)
    else if path == "/auth" then Show(AuthLandingScreen)
    else Redirect(Navigation("/", None, true))
  }

  /** The page reached from `path` by following at most `hops` redirects, if any. */
  function Settle(path: string, user: Option<User>, hops: nat): Option<Screen>
    decreases hops
  {
    match Route(path, user)
    case Show(screen) => Some(screen)
    case Redirect(navigation) =>
      if hops == 0 then None else Settle(navigation.to, user, hops - 1)
  }

  /** Every path reaches a page within two redirects: the landing page for
      `/auth` or when nobody is signed in, the dashboard otherwise. */
  lemma EveryPathSettles(path: string, user: Option<User>)
    ensures Settle(path, user, 2) == Some(if path == "/auth" || user.None? then AuthLandingScreen else DashboardScreen)
  {
    if path != "/" && path != "/auth" {
      assert Settle(path, user, 2) == Settle("/", user, 1);
      if user.None? {
        assert Settle("/", user, 1) == Settle("/auth", user, 0);
      }
    } else if path == "/" && user.None? {
      assert Settle(path, user, 2) == Settle("/auth", user, 1);
    }
  }

  /** A signed-in user who opens `/auth` still sees the landing page, where
      `RedirectIfAuthed` would have sent them home. */
  lemma SignedInUserSeesLanding(u: User, hops: nat)
    ensures Settle("/auth", Some(u), hops) == Some(AuthLandingScreen)
    ensures RouteGuards.RedirectIfAuthed(Some(u)).Redirect?
  {
  }

  /** The table guards `/` with its own `RequireAuth`, which attaches no
      `from`: a sign-in that follows that redirect always returns to `/`. */
  lemma SignInFromTableReturnsHome(landing: Location)
    requires landing.state == Route("/", None).navigation.state
    ensures AuthLanding.RedirectTo(landing) == "/"
  {
  }

  /** A successful signup fills the session cell itself, so the navigation to
      `/` that follows shows the dashboard without waiting for the provider. */
  lemma SignupAdmitsAtOnce(user: Option<User>, email: string, name: string, uid: string)
    ensures Route("/", AuthContext.AfterSignup(user, email, name, Ok(uid), Pass)) == Show(DashboardScreen)
  {
  }

  /** Login leaves the cell as it was, however it settles: from a signed-out
      provider `/` still redirects to `/auth` after `Login`, and shows the
      dashboard once a notification with an email has arrived. */
  method LoginWaitsForNotification(p: AuthContext.AuthProvider, email: string, password: string,
                                   signedIn: Outcome<Thrown>, uid: string, notifiedEmail: string)
    returns (afterLogin: Element, afterNotification: Element)
    requires p.user == None && notifiedEmail != ""
    modifies p
    ensures afterLogin == Redirect(Navigation("/auth", None, true))
    ensures afterNotification == Show(DashboardScreen)
  {
    var _ := p.Login(email, password, signedIn);
    afterLogin := Route("/", p.user);
    p.OnAuthStateChanged(Some(AuthContext.Principal(uid, Some(notifiedEmail))));
    afterNotification := Route("/", p.user);
  }
}
