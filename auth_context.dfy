/** The session store of `src/modules/auth/AuthContext.tsx`: one cell holding
    the signed-in user, written by the identity provider's notification
    handler, by `signup` and by `logout`, and never by `login`.

    The identity provider and the document store are external: each awaited
    call is a parameter giving how it settles. */
module AuthContext {
  import opened JsValues
  import opened AuthTypes
  import ProfileStore

  /** The principal a provider notification reports; its `email` may be null. */
  datatype Principal = Principal(uid: string, email: Option<string>)

  /** True of a notification that reports a principal with a non-empty email
      (`firebaseUser?.email` is truthy). */
  predicate HasEmail(notification: Option<Principal>)
  {
    notification.Some? && OrEmpty(notification.value.email) != ""
  }

  /** The user the notification handler stores. */
  function UserFromNotification(notification: Option<Principal>): (u: Option<User>)
    ensures u.Some? <==> HasEmail(notification)
    ensures u.Some? ==> u.value.name == None
  {
    if HasEmail(notification) then
      Some(User(notification.value.uid, notification.value.email.value, None))
    else
      None
  }

  /** The cell after a sequence of notifications, oldest first, starting from `start`. */
  function AfterNotifications(start: Option<User>, notifications: seq<Option<Principal>>): Option<User>
    decreases |notifications|
  {
    if notifications == [] then start
    else AfterNotifications(UserFromNotification(notifications[0]), notifications[1..])
  }

  /** Only the most recent notification decides the cell. */
  lemma {:induction false} LastNotificationDecides(start: Option<User>, notifications: seq<Option<Principal>>)
    requires notifications != []
    ensures AfterNotifications(start, notifications) == UserFromNotification(notifications[|notifications| - 1])
    decreases |notifications|
  {
    if |notifications| > 1 {
      LastNotificationDecides(UserFromNotification(notifications[0]), notifications[1..]);
    }
  }

  /** After a non-empty sequence of notifications the cell is empty exactly
      when the last one lacked a principal with an email; a stored user never
      carries a `name`. */
  lemma NotificationsDecidePresence(start: Option<User>, notifications: seq<Option<Principal>>)
    requires notifications != []
    ensures AfterNotifications(start, notifications).None? <==> !HasEmail(notifications[|notifications| - 1])
    ensures AfterNotifications(start, notifications).Some? ==> AfterNotifications(start, notifications).value.name == None
  {
    LastNotificationDecides(start, notifications);
  }

  /** The profile record signup writes for the new account: the email exactly
      as typed, not lower-cased. */
  function SignupRecord(uid: string, email: string, name: string): (p: ProfileStore.Profile)
    ensures p.id == uid && p.email == email && p.name == Some(name)
  {
    ProfileStore.Profile(uid, email, Some(name))
  }

  /** The cell after `signup`: set to the new account with its name once both
      the account creation and the profile write have resolved, otherwise
      unchanged. */
  function AfterSignup(user: Option<User>, email: string, name: string,
                       created: Result<string, Thrown>, written: Outcome<Thrown>): Option<User>
  {
    if created.Ok? && written.Pass? then Some(User(created.value, email, Some(name))) else user
  }

  /** The `users` collection after `signup`: the signup record stored under
      the new account's uid once account creation and the write have both
      resolved, otherwise unchanged. */
  function UsersAfterSignup(users: ProfileStore.Users, email: string, name: string,
                            created: Result<string, Thrown>, written: Outcome<Thrown>): ProfileStore.Users
  {
    if created.Ok? && written.Pass? then ProfileStore.SetDoc(users, created.value, SignupRecord(created.value, email, name))
    else users
  }

  /** How `signup` settles: the first rejection among the two awaited calls. */
  function SignupOutcome(created: Result<string, Thrown>, written: Outcome<Thrown>): (r: Outcome<Thrown>)
    ensures r.Pass? <==> created.Ok? && written.Pass?
    ensures created.Err? ==> r == Fail(created.error)
    ensures created.Ok? && written.Fail? ==> r == written
  {
    if created.Err? then Fail(created.error) else written
  }

  /** The cell after `logout`: empty once sign-out has resolved, otherwise unchanged. */
  function AfterLogout(user: Option<User>, signedOut: Outcome<Thrown>): Option<User>
  {
    if signedOut.Pass? then None else user
  }

  /** A successful signup leaves the new account, with its name, in the cell;
      a failed one leaves the cell as it was. */
  lemma SignupSetsUser(user: Option<User>, email: string, name: string,
                       created: Result<string, Thrown>, written: Outcome<Thrown>)
    ensures SignupOutcome(created, written).Pass? ==>
              AfterSignup(user, email, name, created, written) == Some(User(created.value, email, Some(name)))
    ensures SignupOutcome(created, written).Fail? ==> AfterSignup(user, email, name, created, written) == user
  {
  }

  /** After a successful signup the user in the cell has a profile record
      under its own id, holding its email and name; every other document is
      as before. A failed signup changes neither. */
  lemma SignupStoresRecordUnderUid(users: ProfileStore.Users, user: Option<User>, email: string, name: string,
                                   created: Result<string, Thrown>, written: Outcome<Thrown>)
    ensures SignupOutcome(created, written).Pass? ==>
              var u := AfterSignup(user, email, name, created, written).value;
              u.id in UsersAfterSignup(users, email, name, created, written)
              && UsersAfterSignup(users, email, name, created, written)[u.id] == ProfileStore.Profile(u.id, u.email, u.name)
    ensures forall id :: id in users && (created.Err? || written.Fail? || id != created.value) ==>
              id in UsersAfterSignup(users, email, name, created, written)
              && UsersAfterSignup(users, email, name, created, written)[id] == users[id]
    ensures SignupOutcome(created, written).Fail? ==> UsersAfterSignup(users, email, name, created, written) == users
  {
  }

  /** The provider's own notification for the account signup just created
      replaces the stored user by one without a name. */
  lemma SignupNameDroppedByNotification(user: Option<User>, email: string, name: string, uid: string)
    requires email != ""
    ensures AfterSignup(user, email, name, Ok(uid), Pass) == Some(User(uid, email, Some(name)))
    ensures UserFromNotification(Some(Principal(uid, Some(email)))) == Some(User(uid, email, None))
  {
  }

  /** A successful logout and a notification without principal leave the cell
      empty in either order. */
  lemma LogoutAndSignedOutNotificationCommute(user: Option<User>)
    ensures AfterLogout(AfterNotifications(user, [None]), Pass) == None
    ensures AfterNotifications(AfterLogout(user, Pass), [None]) == None
  {
  }

  /** The message `useAuth` throws outside the provider. */
  const OutsideProviderMessage := "useAuth must be used inside <AuthProvider>"

  /** The provider: the `user` cell and the three workflows. */
  class AuthProvider {
    var user: Option<User>

    /** The cell starts empty. */
    constructor ()
      ensures user == None
    {
      user := None;
    }

    /** The `onAuthStateChanged` callback. */
    method OnAuthStateChanged(notification: Option<Principal>)
      modifies this
      ensures user == UserFromNotification(notification)
    {
      if notification.Some? && notification.value.email.Some? && notification.value.email.value != "" {
        user := Some(User(notification.value.uid, notification.value.email.value, None));
      } else {
        user := None;
      }
    }

    /** `login`: awaits the sign-in and settles as it does. It has no
        `modifies` clause: it never writes the cell. */
    method Login(email: string, password: string, signedIn: Outcome<Thrown>) returns (r: Outcome<Thrown>)
      ensures r == signedIn
    {
      r := signedIn;
    }

    /** `signup`: creates the account, writes its profile record into the
        `users` collection under the new uid, then sets the cell. `usersAfter`
        is the collection once the write has settled. */
    method Signup(email: string, password: string, name: string, users: ProfileStore.Users,
                  created: Result<string, Thrown>, stored: Outcome<Thrown>)
      returns (r: Outcome<Thrown>, usersAfter: ProfileStore.Users)
      modifies this
      ensures r == SignupOutcome(created, stored)
      ensures usersAfter == UsersAfterSignup(users, email, name, created, stored)
      ensures user == AfterSignup(old(user), email, name, created, stored)
    {
      if created.Err? {
        return Fail(created.error), users;
      }
      var uid := created.value;
      if stored.Fail? {
        return stored, users;
      }
      usersAfter := ProfileStore.SetDoc(users, uid, ProfileStore.Profile(uid, email, Some(name)));
      user := Some(User(uid, email, Some(name)));
      r := Pass;
    }

    /** `logout`: signs out, then clears the cell. */
    method Logout(signedOut: Outcome<Thrown>) returns (r: Outcome<Thrown>)
      modifies this
      ensures r == signedOut
      ensures user == AfterLogout(old(user), signedOut)
    {
      if signedOut.Fail? {
        return signedOut;
      }
      user := None;
      r := Pass;
    }
  }

  /** `useAuth()`: the provider in scope, or the usage error when there is none. */
  function UseAuth(context: Option<AuthProvider>): (r: Result<AuthProvider, string>)
    ensures r.Err? <==> context.None?
    ensures r.Ok? ==> r.value == context.value
    ensures r.Err? ==> r.error == OutsideProviderMessage
  {
    match context
    case None => Err(OutsideProviderMessage)
    case Some(p) => Ok(p)
  }
}
