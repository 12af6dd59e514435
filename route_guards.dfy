/** The two guards of `src/modules/auth/RouteGuards.tsx`. Each reads only
    whether a user is signed in, and renders its children or redirects. */
module RouteGuards {
  import opened JsValues
  import opened AuthTypes
  import opened Router

  /** What a guard renders. */
  datatype Decision = RenderChildren | Redirect(navigation: Navigation)

  /** `RequireAuth`: with no user, redirect to the sign-in page, remembering the
      current location in `from`; with a user, render the protected page. */
  function RequireAuth(user: Option<User>, location: Location): (d: Decision)
    ensures d.RenderChildren? <==> user.Some?
    ensures d.Redirect? ==> d.navigation.to == "/auth" && d.navigation.replace
    ensures d.Redirect? ==> d.navigation.state == Some(HistoryState(Some(location)))
  {
    if user.None? then Redirect(Navigation("/auth", Some(HistoryState(Some(location))), true))
    else RenderChildren
  }

  /** `RedirectIfAuthed`: with a user, redirect home; with none, render the page. */
  function RedirectIfAuthed(user: Option<User>): (d: Decision)
    ensures d.Redirect? <==> user.Some?
    ensures d.Redirect? ==> d.navigation == Navigation("/", None, true)
  {
    if user.Some? then Redirect(Navigation("/", None, true)) else RenderChildren
  }

  /** For every user value exactly one of the two guards renders its children. */
  lemma GuardsAreComplementary(user: Option<User>, location: Location)
    ensures RequireAuth(user, location).RenderChildren? != RedirectIfAuthed(user).RenderChildren?
  {
  }

  /** The guards hold no state: two user values that agree on presence get the
      same decision, so evaluating a guard again gives the same result. */
  lemma GuardsDependOnPresenceOnly(u1: Option<User>, u2: Option<User>, location: Location)
    requires u1.Some? == u2.Some?
    ensures RequireAuth(u1, location) == RequireAuth(u2, location)
    ensures RedirectIfAuthed(u1) == RedirectIfAuthed(u2)
  {
  }
}
