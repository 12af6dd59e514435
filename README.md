# Session and identity layer of Tasket, modelled in Dafny

This project models the client-side session and identity layer of the Tasket web app. It covers:

- the session store (`AuthProvider`). It holds one `user` cell, written by the identity provider's notification handler, by `signup` and by `logout`, and never by `login`.
- `useAuth`, the accessor that fails outside the provider.
- the two route guards (`RequireAuth`, `RedirectIfAuthed`).
- the app's route table, which has its own `RequireAuth`.
- the dashboard's display-name cascade. The greeting starts from cache, then `displayName`, then the email's local part, then `"there"`. A lookup by lower-cased email then refreshes it and writes the cache.
- the submit logic of the sign-in / sign-up page.

The identity provider, the document store, `localStorage` and the router are outside the model and appear only as values:

- each awaited call is a parameter saying how it settles (`Outcome`/`Result` with a `Thrown` value);
- the `users` collection is a map from document id to record, and `IsQueryAnswer` says what an email query with `limit(1)` may return;
- the `userName` cache is one optional string slot (`Dashboard.NameCache`);
- a location is a value carrying its history `state`.

Each mutable thing in the source is a class: `AuthContext.AuthProvider`, `Dashboard.DashboardPage` with `Dashboard.NameCache`, and `AuthLanding.AuthLandingPage`. Its methods are proved against pure transition functions (`AfterSignup`, `FinishLookup`, `EndSubmit`, …). The lemmas about those functions carry the properties.

Files: `js_values.dfy` (absent values, settled promises, thrown values), `text.dfy` (the `||` chain, `split("@")[0]`, `trim`, ASCII `toLowerCase`), `auth_types.dfy`, `router.dfy`, `profile_store.dfy`, `auth_context.dfy`, `route_guards.dfy`, `app.dfy`, `dashboard.dfy`, `auth_landing.dfy`.

Where the design description and the code disagree, the model follows the code:

- **No stale-result guard.** The design says a lookup started for an earlier email must not overwrite a later one's result. The code keys nothing to the email, so the result that settles last wins. The first result to settle also ends `loadingName` while the other lookup is still in flight (`Dashboard.StaleResultWins`).
- **The notification drops `name`.** The design keeps the name "if already known". The handler always stores `{id, email}` without a name, so a name set by signup is lost at the next notification (`AuthContext.SignupNameDroppedByNotification`).
- **Absent versus empty email.** The design says the user is absent iff the last notification had no principal. The code also clears the user when the principal's email is empty or null.
- **`displayName` is never set.** The dashboard reads `user.displayName`, but the local `User` record has no such field. That step of both chains is therefore always skipped. The `name` held in the session cell is never consulted (`Dashboard.SignupNameIgnored`). The signup name reaches the greeting only through the profile record, and only when the email was typed in lower case (`Dashboard.SignupRecordFound`).
- **Email case.** The design says profile emails are stored lower-cased. Signup stores the email exactly as typed, and the dashboard queries by the lower-cased email. A signup with upper-case letters is therefore never found, and the greeting falls back to the email's local part (`Dashboard.MixedCaseSignupRecordMissed`).
- **The table skips the shared guards.** The route table uses its own `RequireAuth`, which attaches no `from`, and never uses `RedirectIfAuthed`. A sign-in reached from the table always returns to `/` (`App.SignInFromTableReturnsHome`), and a signed-in user can open `/auth`.

## Model

| member | source | states |
|---|---|---|
| `AuthContext.UserFromNotification` | src/modules/auth/AuthContext.tsx:19-23 | A notification stores a user exactly when its principal has a non-empty email; the stored user never carries a `name` |
| `AuthContext.LastNotificationDecides` | src/modules/auth/AuthContext.tsx:18-24 | After any non-empty sequence of notifications the cell equals what the last notification alone would store |
| `AuthContext.NotificationsDecidePresence` | src/modules/auth/AuthContext.tsx:18-24 | After a sequence of notifications the user is absent iff the last one lacked a principal with an email; any earlier name is gone |
| `AuthContext.AuthProvider.constructor` | src/modules/auth/AuthContext.tsx:15 | The cell starts empty |
| `AuthContext.AuthProvider.OnAuthStateChanged` | src/modules/auth/AuthContext.tsx:18-24 | The handler sets the cell to `UserFromNotification` of the notification |
| `AuthContext.AuthProvider.Login` | src/modules/auth/AuthContext.tsx:28-30 | Login settles as the sign-in does and, having no `modifies` clause, never writes the cell |
| `AuthContext.SignupRecord` | src/modules/auth/AuthContext.tsx:34-35 | The profile record is keyed by the new uid and holds that uid, the email exactly as passed and the name |
| `AuthContext.SignupOutcome` | src/modules/auth/AuthContext.tsx:32-37 | Signup succeeds iff account creation and the profile write both resolve; otherwise it rejects with the first rejection |
| `AuthContext.AuthProvider.Signup` | src/modules/auth/AuthContext.tsx:32-37 | The profile record is stored in `users` under the new uid only after account creation resolved, and the collection is otherwise unchanged; the cell becomes `{id, email, name}` only after both calls resolved and is otherwise unchanged |
| `AuthContext.SignupStoresRecordUnderUid` | src/modules/auth/AuthContext.tsx:33-36 | After a successful signup the user in the cell has a record under its own id holding its email and name, other documents are kept, and a failed signup leaves the collection unchanged |
| `AuthContext.SignupSetsUser` | src/modules/auth/AuthContext.tsx:33-36 | A successful signup leaves the new account with its name in the cell; a failed one leaves the cell as it was |
| `AuthContext.SignupNameDroppedByNotification` | src/modules/auth/AuthContext.tsx:20 | Signup stores the name, but the provider's notification for the same account stores the user without it |
| `AuthContext.AuthProvider.Logout` | src/modules/auth/AuthContext.tsx:39-42 | After a successful sign-out the cell is empty; if sign-out rejects, the cell is unchanged and the rejection propagates |
| `AuthContext.LogoutAndSignedOutNotificationCommute` | src/modules/auth/AuthContext.tsx:22 | Logout then a signed-out notification, and a signed-out notification then logout, both leave the cell empty |
| `AuthContext.UseAuth` | src/modules/auth/AuthContext.tsx:49-52 | `useAuth` fails with the usage message iff there is no provider, and otherwise returns the provider |
| `RouteGuards.RequireAuth` | src/modules/auth/RouteGuards.tsx:5-10 | Renders the children iff a user is present; otherwise redirects to `/auth`, with replace, carrying `from` = the current location |
| `RouteGuards.RedirectIfAuthed` | src/modules/auth/RouteGuards.tsx:12-16 | Redirects to `/`, with replace and no state, iff a user is present; otherwise renders the children |
| `RouteGuards.GuardsAreComplementary` | src/modules/auth/RouteGuards.tsx:8-15 | For every user value exactly one of the two guards renders its children |
| `RouteGuards.GuardsDependOnPresenceOnly` | src/modules/auth/RouteGuards.tsx:5-16 | The guards are stateless: equal presence gives equal decisions, so evaluating again gives the same result |
| `App.RequireAuthLocal` | src/App.tsx:6-9 | The table's own guard shows the child iff a user is present; otherwise it redirects to `/auth` with replace and no `from` state |
| `App.Route` | src/App.tsx:14-23 | `/` is the dashboard behind the local guard, `/auth` is the landing page whatever the user, and any other path redirects to `/` with replace |
| `App.EveryPathSettles` | src/App.tsx:8-23 | Within two redirects every path reaches a page: the landing page for `/auth` or with no user, the dashboard otherwise |
| `App.SignedInUserSeesLanding` | src/App.tsx:22 | A signed-in user opening `/auth` sees the landing page after any number of hops, where `RedirectIfAuthed` would have redirected |
| `App.SignInFromTableReturnsHome` | src/App.tsx:8 | The table's redirect carries no `from`, so a sign-in reached through it returns to `/` |
| `App.SignupAdmitsAtOnce` | src/modules/auth/AuthContext.tsx:36 | After a successful signup, `/` shows the dashboard at once, without waiting for a notification |
| `App.LoginWaitsForNotification` | src/modules/auth/AuthContext.tsx:28-30 | Calling `Login` on a signed-out provider, however it settles, leaves `/` redirecting to `/auth`; after a notification with an email `/` shows the dashboard |
| `Text.FirstNonEmptyAt` | src/modules/dashboard/Dashboard.tsx:15 | Where an or-chain of strings stops: every earlier candidate is empty and the chosen one is not |
| `Text.Coalesce` | src/modules/dashboard/Dashboard.tsx:15 | The chain yields its last operand or one of its candidates, and is empty only if all of them are |
| `Text.CoalescePicksFirstNonEmpty` | src/modules/dashboard/Dashboard.tsx:15 | The chain yields the first non-empty candidate |
| `Text.CoalesceAllEmpty` | src/modules/dashboard/Dashboard.tsx:15 | With every candidate empty the chain yields its last operand |
| `Text.BeforeFirstAt` | src/modules/dashboard/Dashboard.tsx:14 | `split("@")[0]` is a prefix without `@`, stopping at the first `@` or at the end |
| `Text.BeforeFirstAtOfAddress` | src/modules/dashboard/Dashboard.tsx:36 | The local part of `local@rest` is `local` |
| `Text.TrimStart` | src/modules/dashboard/Dashboard.tsx:39 | Removes exactly the leading white space |
| `Text.TrimEnd` | src/modules/dashboard/Dashboard.tsx:39 | Removes exactly the trailing white space |
| `Text.Trim` | src/modules/dashboard/Dashboard.tsx:39 | The trimmed text neither starts nor ends with white space, and is empty iff the input is all white space |
| `Text.TrimRemovesPadding` | src/modules/dashboard/Dashboard.tsx:39 | Trimming white-space padding off a text gives the text back |
| `Text.TrimIdempotent` | src/modules/dashboard/Dashboard.tsx:39 | Trimming twice is trimming once |
| `Text.ToLower` | src/modules/dashboard/Dashboard.tsx:30 | Lower-casing keeps the length, maps each letter to its lower-case form and leaves no upper-case letter |
| `Text.ToLowerFixpoint` | src/modules/dashboard/Dashboard.tsx:30 | A string is its own lower-cased form iff it has no upper-case letter |
| `Text.ToLowerIdempotent` | src/modules/dashboard/Dashboard.tsx:30 | Lower-casing twice is lower-casing once |
| `Dashboard.EmailPrefix` | src/modules/dashboard/Dashboard.tsx:14 | The email prefix is empty without an email, and otherwise the text before its first `@` |
| `Dashboard.InitialDisplay` | src/modules/dashboard/Dashboard.tsx:12-16 | The initial display is never empty and is one of the four sources |
| `Dashboard.InitialDisplayPriority` | src/modules/dashboard/Dashboard.tsx:15 | The initial display is the first non-empty of cache, `displayName`, email local part and `"there"`, in that order |
| `Dashboard.RecordName` | src/modules/dashboard/Dashboard.tsx:37-40 | Only the first document of the answer is read; its name is trimmed, and the result is empty when there is no document |
| `Dashboard.NextName` | src/modules/dashboard/Dashboard.tsx:36-40 | The resolved name is never empty |
| `Dashboard.NextNamePrefersRecord` | src/modules/dashboard/Dashboard.tsx:37-40 | A record whose name is not blank decides the resolved name, trimmed |
| `Dashboard.NextNameFallback` | src/modules/dashboard/Dashboard.tsx:36 | With no usable record the name is `displayName`, else the email local part, else `"there"`; the cache is not consulted |
| `Dashboard.NextNameReadsFirstRecordOnly` | src/modules/dashboard/Dashboard.tsx:33-38 | At most one record is considered: dropping every document after the first changes nothing |
| `Dashboard.RecordNameExample` | src/modules/dashboard/Dashboard.tsx:39 | A record named `" Bo "` resolves to `"Bo"` |
| `Dashboard.FallbackNameExample` | src/modules/dashboard/Dashboard.tsx:36 | No record for `carl@example.com` resolves to `"carl"` |
| `Dashboard.LookupKey` | src/modules/dashboard/Dashboard.tsx:30 | The lookup key is the email lower-cased character by character: same length, each character mapped by `LowerChar`, no upper-case letter left |
| `Dashboard.LookupErrorText` | src/modules/dashboard/Dashboard.tsx:46 | The soft error is the thrown value's message when it has a non-empty one, else the fixed message, and never empty |
| `Dashboard.MountedDisplayNonEmpty` | src/modules/dashboard/Dashboard.tsx:18-20 | At mount the display is non-empty, nothing is loading and there is no error |
| `Dashboard.DisplayStaysNonEmpty` | src/modules/dashboard/Dashboard.tsx:25-50 | No step of the cascade empties a non-empty display |
| `Dashboard.NoEmailNoLookup` | src/modules/dashboard/Dashboard.tsx:23 | Without an email the effect changes nothing |
| `Dashboard.SuccessfulRunSyncsCache` | src/modules/dashboard/Dashboard.tsx:42-43 | A successful run sets the display and the cache to the same resolved name, leaves no error and ends loading |
| `Dashboard.FailedRunKeepsName` | src/modules/dashboard/Dashboard.tsx:44-48 | A failed run changes only the error, to the thrown message or the fixed text, and ends loading; display and cache are unchanged |
| `Dashboard.GreetingWhileLoading` | src/modules/dashboard/Dashboard.tsx:65 | While loading the greeting shows `"…"`; once the lookup settles it shows the display |
| `Dashboard.SignupNameIgnored` | src/modules/dashboard/Dashboard.tsx:36 | Users that differ only in `name` resolve to the same display |
| `Dashboard.StaleResultWins` | src/modules/dashboard/Dashboard.tsx:22-53 | With two lookups in flight, the first to settle ends loading, and the one that settles last decides display and cache |
| `Dashboard.SignupRecordFound` | src/modules/dashboard/Dashboard.tsx:30-39 | With a lower-case signup email and no rival record, the lookup by `LookupKey` finds the signup record and the dashboard greets its trimmed name, whatever name the cell holds |
| `Dashboard.MixedCaseSignupRecordMissed` | src/modules/dashboard/Dashboard.tsx:30-36 | With upper-case letters in the signup email, the lookup by `LookupKey` returns nothing, so the dashboard shows the email's local part |
| `Dashboard.NameCache.constructor` | src/modules/dashboard/Dashboard.tsx:13 | The cache slot starts with the stored value |
| `Dashboard.DashboardPage.Mount` | src/modules/dashboard/Dashboard.tsx:12-20 | Mounting sets the display once, from the initial chain, with no loading and no error |
| `Dashboard.DashboardPage.StartRun` | src/modules/dashboard/Dashboard.tsx:26-27 | The start of a run clears the error and sets loading, keeping the display non-empty |
| `Dashboard.DashboardPage.FinishRun` | src/modules/dashboard/Dashboard.tsx:28-48 | Queries `users` by `LookupKey`, with an answer holding exactly the matching documents, then applies `FinishLookup` to display, error, loading and the cache slot |
| `Dashboard.DashboardPage.OnUserChange` | src/modules/dashboard/Dashboard.tsx:22-53 | The effect does nothing without an email and otherwise runs a whole lookup |
| `ProfileStore.SetDoc` | src/modules/auth/AuthContext.tsx:35 | Writing a profile sets that document and leaves every other one unchanged |
| `ProfileStore.StoredRecordIsAnswered` | src/modules/dashboard/Dashboard.tsx:33-34 | Once a document with the key is stored, the query answers exactly one matching document |
| `ProfileStore.AnswerComesFromMatch` | src/modules/dashboard/Dashboard.tsx:33-34 | A non-empty answer is a stored document whose email is the key |
| `ProfileStore.NoMatchNoAnswer` | src/modules/dashboard/Dashboard.tsx:33-34 | With no document carrying the key the answer is empty |
| `AuthLanding.RedirectTo` | src/modules/auth/AuthLanding.tsx:25 | `redirectTo` is `from.pathname` when present and non-empty, else `/`, and is never empty |
| `AuthLanding.RequireAuthRoundTrip` | src/modules/auth/AuthLanding.tsx:25 | After the shared `RequireAuth` redirect, sign-in returns to the requested pathname, without its search and hash |
| `AuthLanding.SubmitErrorText` | src/modules/auth/AuthLanding.tsx:39-40 | The form error is an `Error`'s message, and `"Authentication failed"` for anything else |
| `AuthLanding.RequestOf` | src/modules/auth/AuthLanding.tsx:32-36 | Sign-up mode calls `signup(email, pw, name)`; otherwise `login(email, pw)` |
| `AuthLanding.SubmitLocksForm` | src/modules/auth/AuthLanding.tsx:29-30 | Submit first clears `err` and sets `loading`, which disables both buttons |
| `AuthLanding.SubmitSettles` | src/modules/auth/AuthLanding.tsx:37-44 | Success navigates to `redirectTo` with replace; failure sets the error text and does not navigate; `loading` ends either way; nothing else changes |
| `AuthLanding.AuthLandingPage.constructor` | src/modules/auth/AuthLanding.tsx:12-18 | The form starts in sign-in mode, with empty fields, no error and not loading |
| `AuthLanding.AuthLandingPage.ChooseSignUp` | src/modules/auth/AuthLanding.tsx:214-239 | The panel buttons change only the mode |
| `AuthLanding.AuthLandingPage.Fill` | src/modules/auth/AuthLanding.tsx:136-152 | The fields' change handlers set name, email and password only |
| `AuthLanding.AuthLandingPage.HandleSubmit` | src/modules/auth/AuthLanding.tsx:27-45 | Runs the workflow for the current mode against the session store and the `users` collection, then leaves the form in `EndSubmit(BeginSubmit(old))` and navigates as `NavigationAfter` says |

## Left out

- Firebase calls (`onAuthStateChanged`, `signInWithEmailAndPassword`, `createUserWithEmailAndPassword`, `signOut`, `setDoc`, `getDocs`) are not modelled. Each is represented by how it settles, given as a parameter.
- The document store's ordering of query results is not modelled. `IsQueryAnswer` allows any one matching document under `limit(1)`.
- Environment configuration and SDK initialisation in `src/lib/firebase.ts` are not modelled. This is set-up code with no behaviour of its own.
- Async interleaving and React scheduling are not modelled (`useEffect`, `useMemo`, re-renders, the unsubscribe on teardown). Interleavings are stated only as explicit orders of the transition functions (`Dashboard.StaleResultWins`).
- `display` is set once at mount. Re-running `useState`'s initialiser is not modelled.
- `localStorage.setItem` throwing is not modelled. In the source that would leave the display updated, the cache unchanged and the error set.
- `toLowerCase` and `trim` are not modelled in full. Lower-casing covers ASCII letters only, and trimming uses a fixed set of white-space characters.
- React Router's matching is not modelled. Paths are compared as exact strings, without case folding or trailing-slash handling.
- The field that `from` reads is not modelled: a location stored in `from` always has a `pathname`. A `from` object without one, which only another code path could store, is outside the model.
- Markup is not modelled: the `Field` component, the overlay animation, the show-password toggle, button labels and the `RecipeManager` page.
- The dashboard's logout button is not modelled. It calls `AuthContext.AuthProvider.Logout`, which is modelled.
- Passwords are not modelled beyond being passed along. Only the provider reads them.
