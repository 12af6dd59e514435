/** The submit logic of the sign-in / sign-up page in
    `src/modules/auth/AuthLanding.tsx`: where a successful submit goes, and
    how `err` and `loading` move while the chosen workflow runs. */
module AuthLanding {
  import opened JsValues
  import opened Router
  import opened AuthContext
  import RouteGuards
  import ProfileStore

  /** The message shown when the rejection is not an `Error`. */
  const AuthFailedMessage := "Authentication failed"

  /** Where a successful submit goes: the path of the location the guard
      recorded in the history state, or the root when there is none or it is
      empty. */
  function RedirectTo(location: Location): (r: string)
    ensures r != ""
    ensures r != "/" ==> location.state.Some? && location.state.value.from.Some?
                         && r == location.state.value.from.value.pathname
    ensures (location.state.Some? && location.state.value.from.Some? && location.state.value.from.value.pathname != "")
            ==> r == location.state.value.from.value.pathname
  {
    var from := if location.state.Some? && location.state.value.from.Some?
                then location.state.value.from.value.pathname else "";
    if from != "" then from else "/"
  }

  /** A sign-in reached through `RequireAuth`'s redirect returns to the path
      that was requested; its search and hash are not carried back. */
  lemma RequireAuthRoundTrip(requested: Location, landing: Location)
    requires RouteGuards.RequireAuth(None, requested).Redirect?
    requires landing.state == RouteGuards.RequireAuth(None, requested).navigation.state
    ensures RedirectTo(landing) == (if requested.pathname != "" then requested.pathname else "/")
  {
  }

  /** The text a rejected submit shows: an `Error`'s own message, otherwise a
      fixed message. */
  function SubmitErrorText(e: Thrown): (r: string)
    ensures e.ErrorObject? ==> r == e.message
    ensures e.OtherValue? ==> r == AuthFailedMessage
  {
    match e
    case ErrorObject(message) => message
    case OtherValue(_) => AuthFailedMessage
  }

  /** The page's form state. */
  datatype Form = Form(isSignUp: bool, name: string, email: string, pw: string, err: string, loading: bool)

  /** The workflow a submit starts. */
  datatype Request = SignUpRequest(email: string, pw: string, name: string) | LogInRequest(email: string, pw: string)

  /** In sign-up mode submit calls `signup(email, pw, name)`, otherwise `login(email, pw)`. */
  function RequestOf(f: Form): (r: Request)
    ensures r.SignUpRequest? <==> f.isSignUp
    ensures r.email == f.email && r.pw == f.pw
    ensures r.SignUpRequest? ==> r.name == f.name
  {
    if f.isSignUp then SignUpRequest(f.email, f.pw, f.name) else LogInRequest(f.email, f.pw)
  }

  /** Both submit buttons are `disabled={loading}`. */
  function SubmitDisabled(f: Form): bool
  {
    f.loading
  }

  /** The start of `handleSubmit`: clear `err`, set `loading`. */
  function BeginSubmit(f: Form): Form
  {
    f.(err := "", loading := true)
  }

  /** The end of `handleSubmit` once the workflow settled: on a rejection `err`
      takes its message; `loading` ends either way. */
  function EndSubmit(f: Form, outcome: Outcome<Thrown>): Form
  {
    match outcome
    case Pass => f.(loading := false)
    case Fail(e) => f.(err := SubmitErrorText(e), loading := false)
  }

  /** The navigation a settled submit makes: to `redirectTo`, replacing the
      history entry, and only on success. */
  function NavigationAfter(outcome: Outcome<Thrown>, redirectTo: string): Option<Navigation>
  {
    if outcome.Pass? then Some(Navigation(redirectTo, None, true)) else None
  }

  /** While the workflow runs, the error is cleared and both buttons are disabled. */
  lemma SubmitLocksForm(f: Form)
    ensures BeginSubmit(f).err == "" && SubmitDisabled(BeginSubmit(f))
    ensures RequestOf(BeginSubmit(f)) == RequestOf(f)
  {
  }

  /** After the workflow settles the buttons are enabled again; on success
      the error stays cleared and the page navigates to `redirectTo` with
      replace; on failure it shows the rejection's text and does not navigate.
      Nothing but `err` and `loading` changes. */
  lemma SubmitSettles(f: Form, outcome: Outcome<Thrown>, redirectTo: string)
    ensures !SubmitDisabled(EndSubmit(BeginSubmit(f), outcome))
    ensures outcome.Pass? ==> EndSubmit(BeginSubmit(f), outcome).err == ""
                              && NavigationAfter(outcome, redirectTo) == Some(Navigation(redirectTo, None, true))
    ensures outcome.Fail? ==> EndSubmit(BeginSubmit(f), outcome).err == SubmitErrorText(outcome.error)
                              && NavigationAfter(outcome, redirectTo).None?
    ensures EndSubmit(BeginSubmit(f), outcome).(err := f.err, loading := f.loading) == f
  {
  }

  /** How the identity provider and the document store settle for one submit. */
  datatype Replies = Replies(signedIn: Outcome<Thrown>, created: Result<string, Thrown>, stored: Outcome<Thrown>)

  /** The page: its form state. */
  class AuthLandingPage {
    var isSignUp: bool
    var name: string
    var email: string
    var pw: string
    var err: string
    var loading: bool

    function State(): Form
      reads this
    {
      Form(isSignUp, name, email, pw, err, loading)
    }

    constructor ()
      ensures State() == Form(false, "", "", "", "", false)
    {
      isSignUp, name, email, pw, err, loading := false, "", "", "", "", false;
    }

    /** The panel buttons: `setIsSignUp(true)` and `setIsSignUp(false)`. */
    method ChooseSignUp(signUp: bool)
      modifies this
      ensures State() == old(State()).(isSignUp := signUp)
    {
      isSignUp := signUp;
    }

    /** The fields' `onChange` handlers. */
    method Fill(newName: string, newEmail: string, newPw: string)
      modifies this
      ensures State() == old(State()).(name := newName, email := newEmail, pw := newPw)
    {
      name, email, pw := newName, newEmail, newPw;
    }

    /** `handleSubmit`, with `redirectTo` computed from the current location;
        `users` is the profile collection a signup writes to. */
    method HandleSubmit(auth: AuthProvider, location: Location, users: ProfileStore.Users, replies: Replies)
      returns (outcome: Outcome<Thrown>, navigation: Option<Navigation>, usersAfter: ProfileStore.Users)
      modifies this, auth
      ensures outcome == if old(isSignUp) then SignupOutcome(replies.created, replies.stored) else replies.signedIn
      ensures auth.user == if old(isSignUp) then AfterSignup(old(auth.user), old(email), old(name), replies.created, replies.stored)
                           else old(auth.user)
      ensures usersAfter == if old(isSignUp) then UsersAfterSignup(users, old(email), old(name), replies.created, replies.stored)
                            else users
      ensures State() == EndSubmit(BeginSubmit(old(State())), outcome)
      ensures navigation == NavigationAfter(outcome, RedirectTo(location))
    {
      var redirectTo := RedirectTo(location);
      err := "";
      loading := true;
      if isSignUp {
        outcome, usersAfter := auth.Signup(email, pw, name, users, replies.created, replies.stored);
      } else {
        outcome := auth.Login(email, pw, replies.signedIn);
        usersAfter := users;
      }
      if outcome.Pass? {
        navigation := Some(Navigation(redirectTo, None, true));
      } else {
        navigation := None;
        err := SubmitErrorText(outcome.error);
      }
      loading := false;
    }
  }
}
