/** The display-name cascade of `src/modules/dashboard/Dashboard.tsx`.

    The greeting starts from a name computed at mount (cache, then the user's
    `displayName`, then the email's local part, then "there"). Whenever the
    signed-in email changes and is non-empty, a lookup in the `users`
    collection by the lower-cased email replaces it with the stored name,
    trimmed, or with the fallback, and saves the result in the cache. A failed
    lookup only sets a soft error. Nothing ties a lookup's result to the email
    it was started for: the result that settles last wins. */
module Dashboard {
  import opened JsValues
  import opened AuthTypes
  import opened Text
  import opened ProfileStore
  import AuthContext

  /** The name shown when no source gives one. */
  const Placeholder := "there"

  /** The soft error shown when a failed lookup carries no message. */
  const LookupFailedMessage := "Could not fetch name from users."

  /** What the greeting shows while a lookup is in flight. */
  const Ellipsis := "…"

  /** The user's display name. The local `User` record has no such field, so
      the read is always undefined, whatever `name` signup stored. */
  function DisplayNameOf(user: Option<User>): Option<string>
  {
    None
  }

  /** The user's email, absent when there is no user. */
  function EmailOf(user: Option<User>): Option<string>
  {
    if user.Some? then Some(user.value.email) else None
  }

  /** The part of a non-empty email before its first `@`; the empty string
      when the email is absent or empty. */
  function EmailPrefix(email: Option<string>): (r: string)
    ensures OrEmpty(email) == "" ==> r == ""
    ensures OrEmpty(email) != "" ==> r == BeforeFirstAt(email.value)
  {
    if OrEmpty(email) != "" then BeforeFirstAt(email.value) else ""
  }

  /** The name first shown: the cached name, else the display name, else the
      email prefix, else the placeholder, skipping empty ones. */
  function InitialDisplay(cached: Option<string>, displayName: Option<string>, email: Option<string>): (r: string)
    ensures r != ""
    ensures r == OrEmpty(cached) || r == OrEmpty(displayName) || r == EmailPrefix(email) || r == Placeholder
  {
    Coalesce([OrEmpty(cached), OrEmpty(displayName), EmailPrefix(email)], Placeholder)
  }

  /** The initial display is the first non-empty source in the order cache,
      `displayName`, email local part, placeholder. */
  lemma InitialDisplayPriority(cached: Option<string>, displayName: Option<string>, email: Option<string>)
    ensures OrEmpty(cached) != "" ==> InitialDisplay(cached, displayName, email) == cached.value
    ensures OrEmpty(cached) == "" && OrEmpty(displayName) != "" ==>
              InitialDisplay(cached, displayName, email) == displayName.value
    ensures OrEmpty(cached) == "" && OrEmpty(displayName) == "" && EmailPrefix(email) != "" ==>
              InitialDisplay(cached, displayName, email) == EmailPrefix(email)
    ensures OrEmpty(cached) == "" && OrEmpty(displayName) == "" && EmailPrefix(email) == "" ==>
              InitialDisplay(cached, displayName, email) == Placeholder
  {
    var candidates := [OrEmpty(cached), OrEmpty(displayName), EmailPrefix(email)];
    if OrEmpty(cached) != "" {
      CoalescePicksFirstNonEmpty(candidates, Placeholder, 0);
    } else if OrEmpty(displayName) != "" {
      CoalescePicksFirstNonEmpty(candidates, Placeholder, 1);
    } else if EmailPrefix(email) != "" {
      CoalescePicksFirstNonEmpty(candidates, Placeholder, 2);
    } else {
      CoalesceAllEmpty(candidates, Placeholder);
    }
  }

  /** The name the first document of a lookup answer offers: its `name`
      trimmed, or "" when it has none or the answer is empty. Later documents
      are never read. */
  function RecordName(snapshot: seq<Profile>): (r: string)
    ensures snapshot == [] ==> r == ""
    ensures snapshot != [] ==> r == Trim(OrEmpty(snapshot[0].name))
  {
    if snapshot == [] then ""
    else if OrEmpty(snapshot[0].name) != "" && Trim(snapshot[0].name.value) != "" then Trim(snapshot[0].name.value)
    else ""
  }

  /** `nextName`: the record's trimmed name if it is non-empty, else
      `displayName || email.split("@")[0] || "there"`. The cache plays no part. */
  function NextName(snapshot: seq<Profile>, displayName: Option<string>, email: string): (r: string)
    ensures r != ""
  {
    var fallback := Coalesce([OrEmpty(displayName), BeforeFirstAt(email)], Placeholder);
    if RecordName(snapshot) != "" then RecordName(snapshot) else fallback
  }

  /** A matching record whose name is non-blank decides the name, trimmed. */
  lemma NextNamePrefersRecord(snapshot: seq<Profile>, displayName: Option<string>, email: string)
    requires snapshot != [] && Trim(OrEmpty(snapshot[0].name)) != ""
    ensures NextName(snapshot, displayName, email) == Trim(snapshot[0].name.value)
  {
  }

  /** With no usable record the name is the first non-empty of `displayName`,
      the email's local part and the placeholder. */
  lemma NextNameFallback(snapshot: seq<Profile>, displayName: Option<string>, email: string)
    requires snapshot == [] || Trim(OrEmpty(snapshot[0].name)) == ""
    ensures OrEmpty(displayName) != "" ==> NextName(snapshot, displayName, email) == displayName.value
    ensures OrEmpty(displayName) == "" && BeforeFirstAt(email) != "" ==>
              NextName(snapshot, displayName, email) == BeforeFirstAt(email)
    ensures OrEmpty(displayName) == "" && BeforeFirstAt(email) == "" ==>
              NextName(snapshot, displayName, email) == Placeholder
  {
    var candidates := [OrEmpty(displayName), BeforeFirstAt(email)];
    if OrEmpty(displayName) != "" {
      CoalescePicksFirstNonEmpty(candidates, Placeholder, 0);
    } else if BeforeFirstAt(email) != "" {
      CoalescePicksFirstNonEmpty(candidates, Placeholder, 1);
    } else {
      CoalesceAllEmpty(candidates, Placeholder);
    }
  }

  /** Only the first document of an answer is considered. */
  lemma NextNameReadsFirstRecordOnly(snapshot: seq<Profile>, displayName: Option<string>, email: string)
    ensures NextName(snapshot, displayName, email) == NextName(snapshot[..if snapshot == [] then 0 else 1], displayName, email)
  {
  }

  /** A record named " Bo " gives "Bo". */
  lemma RecordNameExample(id: string)
    ensures NextName([Profile(id, "bo@x.com", Some(" Bo "))], None, "bo@x.com") == "Bo"
  {
    var padded := " " + "Bo" + " ";
    assert padded == " Bo ";
    TrimRemovesPadding(" ", "Bo", " ");
    NextNamePrefersRecord([Profile(id, "bo@x.com", Some(padded))], None, "bo@x.com");
  }

  /** No record for "carl@example.com" gives "carl". */
  lemma FallbackNameExample()
    ensures NextName([], None, "carl@example.com") == "carl"
  {
    var address := "carl" + "@" + "example.com";
    assert address == "carl@example.com";
    BeforeFirstAtOfAddress("carl", "example.com");
    NextNameFallback([], None, address);
  }

  /** The key the lookup queries: the lower-cased email. */
  function LookupKey(user: User): (key: string)
    ensures |key| == |user.email|
    ensures forall i :: 0 <= i < |key| ==> key[i] == LowerChar(user.email[i])
    ensures ToLower(key) == key
  {
    ToLowerIdempotent(user.email);
    ToLower(user.email)
  }

  /** How the lookup settles: the documents it answered, or what it threw. */
  datatype Lookup = Answered(snapshot: seq<Profile>) | Threw(thrown: Thrown)

  /** The soft error a failed lookup shows: the thrown value's message when it
      has a non-empty one, else a fixed message. */
  function LookupErrorText(e: Thrown): (r: string)
    ensures r != ""
    ensures e.ErrorObject? && e.message != "" ==> r == e.message
    ensures e.OtherValue? && OrEmpty(e.messageProperty) != "" ==> r == e.messageProperty.value
    ensures (if e.ErrorObject? then e.message else OrEmpty(e.messageProperty)) == "" ==> r == LookupFailedMessage
  {
    var message := if e.ErrorObject? then e.message else OrEmpty(e.messageProperty);
    if message != "" then message else LookupFailedMessage
  }

  /** The cascade's state: the component's `display`, `loadingName` and `error`,
      and the `userName` slot of local storage. */
  datatype View = View(display: string, loadingName: bool, error: Option<string>, cached: Option<string>)

  /** The state right after mounting. */
  function Mounted(user: Option<User>, cached: Option<string>): View
  {
    View(InitialDisplay(cached, DisplayNameOf(user), EmailOf(user)), false, None, cached)
  }

  /** The start of `run`: clear the error, mark the name as loading. */
  function StartLookup(v: View): View
  {
    v.(error := None, loadingName := true)
  }

  /** The rest of `run` once the lookup for `user` has settled: on an answer the
      display and the cache both take the resolved name; on a rejection only
      the error changes. Either way loading ends. */
  function FinishLookup(v: View, user: User, lookup: Lookup): View
  {
    match lookup
    case Answered(snapshot) =>
      var name := NextName(snapshot, DisplayNameOf(Some(user)), user.email);
      v.(display := name, cached := Some(name), loadingName := false)
    case Threw(e) =>
      v.(error := Some(LookupErrorText(e)), loadingName := false)
  }

  /** The effect on a change of user: nothing without an email, otherwise a
      whole run. */
  function AfterUserChange(v: View, user: Option<User>, lookup: Lookup): View
  {
    if OrEmpty(EmailOf(user)) == "" then v else FinishLookup(StartLookup(v), user.value, lookup)
  }

  /** The greeting: "Welcome " and the ellipsis while a lookup runs, else the
      current name. */
  function GreetingText(v: View): string
  {
    "Welcome " + (if v.loadingName then Ellipsis else v.display)
  }

  /** The mounted display is never empty. */
  lemma MountedDisplayNonEmpty(user: Option<User>, cached: Option<string>)
    ensures Mounted(user, cached).display != ""
    ensures !Mounted(user, cached).loadingName && Mounted(user, cached).error == None
  {
  }

  /** No state the cascade reaches has an empty display. */
  lemma DisplayStaysNonEmpty(v: View, user: Option<User>, lookup: Lookup)
    requires v.display != ""
    ensures StartLookup(v).display != ""
    ensures user.Some? ==> FinishLookup(v, user.value, lookup).display != ""
    ensures AfterUserChange(v, user, lookup).display != ""
  {
  }

  /** Without an email the effect does nothing at all. */
  lemma NoEmailNoLookup(v: View, user: Option<User>, lookup: Lookup)
    requires OrEmpty(EmailOf(user)) == ""
    ensures AfterUserChange(v, user, lookup) == v
  {
  }

  /** A successful run shows the resolved name, stores the same name in the
      cache and leaves no error; the cache it started from plays no part. */
  lemma SuccessfulRunSyncsCache(v: View, user: User, snapshot: seq<Profile>)
    requires user.email != ""
    ensures AfterUserChange(v, Some(user), Answered(snapshot)).display == NextName(snapshot, None, user.email)
    ensures AfterUserChange(v, Some(user), Answered(snapshot)).cached == Some(AfterUserChange(v, Some(user), Answered(snapshot)).display)
    ensures AfterUserChange(v, Some(user), Answered(snapshot)).error == None
    ensures !AfterUserChange(v, Some(user), Answered(snapshot)).loadingName
  {
  }

  /** A failed run changes nothing but the error, and stops loading. */
  lemma FailedRunKeepsName(v: View, user: User, e: Thrown)
    requires user.email != ""
    ensures AfterUserChange(v, Some(user), Threw(e)) == v.(error := Some(LookupErrorText(e)), loadingName := false)
  {
  }

  /** While a lookup is in flight the greeting shows the ellipsis, and it
      shows the display again once the lookup has settled. */
  lemma GreetingWhileLoading(v: View, user: User, lookup: Lookup)
    ensures GreetingText(StartLookup(v)) == "Welcome " + Ellipsis
    ensures GreetingText(FinishLookup(StartLookup(v), user, lookup)) == "Welcome " + FinishLookup(StartLookup(v), user, lookup).display
  {
  }

  /** The `name` held in the session cell is never consulted: two users that
      differ only in `name` resolve to the same display. */
  lemma SignupNameIgnored(v: View, id: string, email: string, n1: Option<string>, n2: Option<string>, lookup: Lookup)
    ensures AfterUserChange(v, Some(User(id, email, n1)), lookup) == AfterUserChange(v, Some(User(id, email, n2)), lookup)
  {
  }

  /** Two runs, for `a` then for `b`, whose lookups settle in the opposite
      order: the earlier run's result is applied last and stays on screen and
      in the cache, and the first result to arrive already ended loading. */
  lemma StaleResultWins(v: View, a: User, b: User, forA: seq<Profile>, forB: seq<Profile>)
    ensures !FinishLookup(StartLookup(StartLookup(v)), b, Answered(forB)).loadingName
    ensures FinishLookup(FinishLookup(StartLookup(StartLookup(v)), b, Answered(forB)), a, Answered(forA)).display
              == NextName(forA, None, a.email)
    ensures FinishLookup(FinishLookup(StartLookup(StartLookup(v)), b, Answered(forB)), a, Answered(forA)).cached
              == Some(NextName(forA, None, a.email))
  {
  }

  /** When a user signed up with an already lower-case email and no other
      document carries that email, the lookup by the user's key finds the
      signup record and the dashboard greets the signup name, trimmed,
      whatever `name` the session cell holds. */
  lemma SignupRecordFound(v: View, users: Users, uid: string, email: string, name: string,
                          cellName: Option<string>, snapshot: seq<Profile>)
    requires email != "" && ToLower(email) == email && Trim(name) != ""
    requires forall id :: id in users && id != uid ==> users[id].email != email
    requires IsQueryAnswer(SetDoc(users, uid, AuthContext.SignupRecord(uid, email, name)),
                           LookupKey(User(uid, email, cellName)), snapshot)
    ensures AfterUserChange(v, Some(User(uid, email, cellName)), Answered(snapshot)).display == Trim(name)
    ensures GreetingText(AfterUserChange(v, Some(User(uid, email, cellName)), Answered(snapshot))) == "Welcome " + Trim(name)
  {
    assert LookupKey(User(uid, email, cellName)) == email;
    var stored := SetDoc(users, uid, AuthContext.SignupRecord(uid, email, name));
    StoredRecordIsAnswered(stored, uid, email, snapshot);
    AnswerComesFromMatch(stored, email, snapshot);
    var id :| Matches(stored, id, email) && stored[id] == snapshot[0];
    assert id == uid;
  }

  /** When a user signed up with an email holding upper-case letters and no
      document carries its lower-cased form, the lookup by the user's key
      misses the signup record, so the dashboard falls back to the email's
      local part. */
  lemma MixedCaseSignupRecordMissed(v: View, users: Users, uid: string, email: string, name: string,
                                    cellName: Option<string>, snapshot: seq<Profile>)
    requires ToLower(email) != email
    requires forall id :: id in users ==> users[id].email != ToLower(email)
    requires IsQueryAnswer(SetDoc(users, uid, AuthContext.SignupRecord(uid, email, name)),
                           LookupKey(User(uid, email, cellName)), snapshot)
    ensures snapshot == []
    ensures BeforeFirstAt(email) != "" ==>
              AfterUserChange(v, Some(User(uid, email, cellName)), Answered(snapshot)).display == BeforeFirstAt(email)
  {
    assert LookupKey(User(uid, email, cellName)) == ToLower(email);
    assert email != "";
    var stored := SetDoc(users, uid, AuthContext.SignupRecord(uid, email, name));
    forall id | id in stored
      ensures stored[id].email != ToLower(email)
    {
      if id == uid {
        assert stored[id].email == email;
      }
    }
    NoMatchNoAnswer(stored, ToLower(email), snapshot);
    NextNameFallback(snapshot, None, email);
  }

  /** The `userName` slot of local storage; it outlives the page and is not
      cleared on logout. */
  class NameCache {
    var userName: Option<string>

    constructor (initial: Option<string>)
      ensures userName == initial
    {
      userName := initial;
    }
  }

  /** One mounted dashboard: its `display`, `loadingName` and `error` state,
      over the shared name cache. */
  class DashboardPage {
    const cache: NameCache
    var display: string
    var loadingName: bool
    var error: Option<string>

    function State(): View
      reads this, cache
    {
      View(display, loadingName, error, cache.userName)
    }

    ghost predicate Valid()
      reads this
    {
      display != ""
    }

    /** Mount: `display` starts from the initial chain, once. */
    constructor Mount(user: Option<User>, cache: NameCache)
      ensures this.cache == cache
      ensures State() == Mounted(user, cache.userName)
      ensures Valid()
    {
      this.cache := cache;
      var cached := cache.userName;
      var email := EmailOf(user);
      var prefix := if email.Some? && email.value != "" then BeforeFirstAt(email.value) else "";
      display := Coalesce([OrEmpty(cached), OrEmpty(DisplayNameOf(user)), prefix], Placeholder);
      loadingName := false;
      error := None;
    }

    /** The first two statements of `run`. */
    method StartRun()
      requires Valid()
      modifies this
      ensures Valid()
      ensures State() == StartLookup(old(State()))
    {
      error := None;
      loadingName := true;
    }

    /** The `try`/`catch`/`finally` of `run`: queries `users` by `key` and
        applies how the query settled; an answer holds the documents of
        `users` whose email is the key. */
    method FinishRun(user: User, users: Users, lookup: Lookup) returns (key: string)
      requires Valid()
      requires lookup.Answered? ==> IsQueryAnswer(users, LookupKey(user), lookup.snapshot)
      modifies this, cache
      ensures Valid()
      ensures key == LookupKey(user)
      ensures State() == FinishLookup(old(State()), user, lookup)
    {
      key := ToLower(user.email);
      match lookup {
        case Answered(snapshot) =>
          var nextName := Coalesce([OrEmpty(DisplayNameOf(Some(user))), BeforeFirstAt(user.email)], Placeholder);
          if snapshot != [] {
            var data := snapshot[0];
            if data.name.Some? && data.name.value != "" && Trim(data.name.value) != "" {
              nextName := Trim(data.name.value);
            }
          }
          display := nextName;
          cache.userName := Some(nextName);
        case Threw(e) =>
          var message := if e.ErrorObject? then e.message else OrEmpty(e.messageProperty);
          error := Some(if message != "" then message else LookupFailedMessage);
      }
      loadingName := false;
    }

    /** The effect that runs when the user's email changes. */
    method OnUserChange(user: Option<User>, users: Users, lookup: Lookup)
      requires Valid()
      requires user.Some? && lookup.Answered? ==> IsQueryAnswer(users, LookupKey(user.value), lookup.snapshot)
      modifies this, cache
      ensures Valid()
      ensures State() == AfterUserChange(old(State()), user, lookup)
    {
      if user.None? || user.value.email == "" {
        return;
      }
      StartRun();
      var _ := FinishRun(user.value, users, lookup);
    }
  }
}
