# Monastery360 session handling and catalogue queries, in Dafny

Monastery360 is a mobile front-end for monastery tourism. This project models
the part of it that holds logic:

- the mock credential gateway `AuthService`, with its two-account directory and
  its single process-wide `currentUser` slot (module `Auth`, class
  `Auth.AuthService`);
- the session store `AuthProvider`, which mirrors that slot into a published
  `(user, isLoading)` pair (module `Session`, class `Session.AuthProvider`);
- the entry page's routing policy and its auth-unavailable fallback (module
  `Router`, pure `IndexNavigation` plus class `Router.IndexPage`);
- the login screen's submit handler, mode toggle and alert (module
  `LoginScreen`, pure `ValidateForm`/`SubmitOutcome`/`RedirectAfterAuth` plus
  class `LoginScreen.LoginForm`);
- the catalogue queries of `MonasteryService`: lookup by id, case-insensitive
  search, nearby attractions and booking (module `Catalogue`);
- the records of `types/index.ts` they use (module `Types`), and the decimal
  rendering of `Date.now()` used for ids and tokens (module `Decimal`).

Each async operation is one atomic step. The simulated latency (`delay`) is
nothing. `Date.now()` is a parameter `now: nat`. The catalogue queries take the
catalogue as a parameter instead of reading the constant mock array. The store
class holds a reference to the gateway object, which stands for the static slot.
It keeps a ghost `history` of every `setUser`, `setIsLoading`, gateway call and
logged error, in order.

The store's catch branches (initial load, `signup`, `logout`, `refreshUser`)
cannot be reached with the gateway as written: none of these gateway calls
throws. The model reaches them through a `fault: Option<string>` parameter,
which stands for an exception that escapes the gateway call before the call
takes effect. `login`'s failure path is reached through the real credential
check.

## Model

| member | source | states |
|---|---|---|
| Types.RoleName | Monastery360/types/index.ts:5 | a role's run-time string is exactly "tourist" or "admin", and is "tourist" only for the tourist role |
| Decimal.Render | Monastery360/services/auth.ts:53 | rendering a timestamp gives a non-empty run of digits with no leading zero |
| Decimal.ParseRender | Monastery360/services/auth.ts:53 | reading the rendered numeral back gives the timestamp itself |
| Decimal.RenderInjective | Monastery360/services/auth.ts:53 | two timestamps render to the same string iff they are equal |
| Auth.Authenticate | Monastery360/services/auth.ts:12-43 | login succeeds iff the email is tourist@monastery.com or admin@monastery.com and the password is "123456"; the user returned has the input email; tourist is id "1", Elena Rodriguez, role tourist; admin is id "2", Brother Marcus, role admin, no preferences; every failure is "Invalid credentials" |
| Auth.SignupUser | Monastery360/services/auth.ts:52-68 | a new account carries the given name and email, role tourist, no avatar, preferences en / notifications on / offline off / autoplay / medium quality, and an id that is exactly the clock reading written in decimal with no leading zero (`Decimal.Render`), so it reads back as that reading |
| Auth.SignupIdsDistinct | Monastery360/services/auth.ts:53 | accounts created at different clock readings get different ids (two sign-ups in the same millisecond share an id, so the source does not make ids unique across all sign-ups) |
| Auth.Token | Monastery360/services/auth.ts:85 | there is no token exactly when there is no current user; otherwise the token is "mock_token_" followed by the clock reading in decimal with no leading zero, so it reads back as that reading |
| Auth.AuthService.constructor | Monastery360/services/auth.ts:5 | the slot starts empty |
| Auth.AuthService.Login | Monastery360/services/auth.ts:7-47 | the result is the credential check's; the slot takes the returned user on success and is unchanged on failure |
| Auth.AuthService.Signup | Monastery360/services/auth.ts:49-72 | never fails; returns the new tourist account and puts it in the slot |
| Auth.AuthService.Logout | Monastery360/services/auth.ts:74-77 | the slot becomes empty |
| Auth.AuthService.GetCurrentUser | Monastery360/services/auth.ts:79-81 | returns the slot and changes nothing |
| Auth.AuthService.RefreshToken | Monastery360/services/auth.ts:83-86 | returns the token for the current slot and changes nothing |
| Auth.LookupAsWritten | Monastery360/services/auth.ts:40 | indexing the directory object finds an own entry exactly for the two directory emails, and an inherited member exactly for the other Object.prototype names |
| Auth.AuthenticateAsWritten | Monastery360/services/auth.ts:40-43 | the guard as written lets through every email the lookup finds, own or inherited, when the password is "123456" |
| Auth.InheritedKeyPassesGuard | Monastery360/services/auth.ts:40-43 | "constructor" with "123456" passes the guard as written but is rejected by the corrected check |
| Auth.EveryInheritedKeyPassesGuard | Monastery360/services/auth.ts:40-43 | every Object.prototype name with "123456" passes the guard as written and is rejected by the corrected check |
| Auth.AsWrittenAgreesOffPrototype | Monastery360/services/auth.ts:40-43 | for every email that is not an Object.prototype name, the guard as written and the corrected check accept the same inputs and return the same user |
| Session.AuthProvider.constructor | Monastery360/contexts/AuthContext.tsx:17-18 | the store starts with no user and loading |
| Session.AuthProvider.LoadSession | Monastery360/contexts/AuthContext.tsx:20-31 | after start-up the user is the gateway's slot (none on error), loading is off, and the steps run in source order |
| Session.AuthProvider.Login | Monastery360/contexts/AuthContext.tsx:33-44 | loading is raised before the gateway call and lowered on both paths; on success user and slot are the returned user and agree; on failure both are unchanged and the error is returned |
| Session.AuthProvider.Signup | Monastery360/contexts/AuthContext.tsx:46-57 | the same loading discipline as login; on success user and slot are the new tourist account; on failure both are unchanged and the error is returned |
| Session.AuthProvider.Logout | Monastery360/contexts/AuthContext.tsx:59-69 | loading ends off on every path; user and slot become empty only if the gateway call returns; an error is logged and not returned |
| Session.AuthProvider.RefreshUser | Monastery360/contexts/AuthContext.tsx:71-79 | the user becomes the gateway's slot (none on error), and the loading flag is untouched |
| Session.LoginThenRefresh | Monastery360/contexts/AuthContext.tsx:33-44 | a successful login followed by a refresh still publishes the identity the login returned, in agreement with the slot |
| Router.Path | Monastery360/app/index.tsx:33-39 | every route is an absolute path |
| Router.PathInjective | Monastery360/app/index.tsx:33-39 | distinct routes have distinct paths |
| Router.RouteForRoleName | Monastery360/app/index.tsx:34-39 | "tourist" goes to the tourist root, "admin" to the admin root, and every other role string to /login |
| Router.IndexNavigation | Monastery360/app/index.tsx:28-41 | no navigation iff not mounted, loading, or error is a non-empty message (JavaScript truthiness); otherwise exactly one target: /login iff there is no user, and the root matching the user's role |
| Router.TypedRoleNeverFallsBack | Monastery360/app/index.tsx:38-39 | a typed role never reaches the /login fallback |
| Router.DirectoryAccountsReachTheirRoot | Monastery360/app/index.tsx:32-37 | every account the gateway admits is routed to the root of its directory role |
| Router.SignupReachesTouristRoot | Monastery360/app/index.tsx:34-35 | a freshly signed-up account is routed to the tourist root |
| Router.ScreenFor | Monastery360/app/index.tsx:43-59 | the error screen shows exactly when error is a non-empty message; otherwise the status reads "Loading..." iff loading and "Initializing..." iff not |
| Router.IndexPage.constructor | Monastery360/app/index.tsx:9-10 | the page starts unmounted with no error |
| Router.IndexPage.Mount | Monastery360/app/index.tsx:24-26 | the first effect marks the page mounted and leaves error alone |
| Router.IndexPage.ReadAuth | Monastery360/app/index.tsx:15-22 | when the hook throws, the page goes on with no user, not loading, and error "Authentication system not available"; otherwise it reads the store's pair |
| Router.IndexPage.NavigationEffect | Monastery360/app/index.tsx:28-41 | the effect picks the routing policy's target for the page's current state |
| Router.IndexPage.Render | Monastery360/app/index.tsx:15-59 | a render whose hook throws shows the error screen and never navigates (the intended behaviour; see Left out for what the source does); otherwise it navigates as the policy says for this render's mounted and error values |
| Router.FirstTwoRenders | Monastery360/app/index.tsx:24-41 | a new page does not navigate on its first render and follows the policy for the store's state on its second |
| LoginScreen.ValidateForm | Monastery360/app/login.tsx:49-57 | "Please fill in all required fields" iff email or password is empty; "Please enter your name" iff both are present, sign-up mode and the name is empty; no error otherwise |
| LoginScreen.SignInIgnoresName | Monastery360/app/login.tsx:54 | in sign-in mode the name field never changes the validation result |
| LoginScreen.SubmitOutcome | Monastery360/app/login.tsx:61-65 | sign-in mode gets the credential check's result; sign-up mode succeeds unless the store call fails, with a tourist of the form's name; any user returned has the form's email |
| LoginScreen.RedirectAfterAuth | Monastery360/app/login.tsx:68-72 | tourist goes to the tourist root, admin to the admin root, and any other role string does not navigate |
| LoginScreen.RedirectAgreesWithIndex | Monastery360/app/login.tsx:68-72 | for every typed user, the login screen's target equals the entry page's target |
| LoginScreen.LoginForm.constructor | Monastery360/app/login.tsx:25-38 | the screen starts in sign-in mode with an empty form and a hidden alert |
| LoginScreen.LoginForm.EditName | Monastery360/app/login.tsx:128 | only the name field changes |
| LoginScreen.LoginForm.EditEmail | Monastery360/app/login.tsx:141 | only the email field changes |
| LoginScreen.LoginForm.EditPassword | Monastery360/app/login.tsx:155 | only the password field changes |
| LoginScreen.LoginForm.ToggleMode | Monastery360/app/login.tsx:174 | the mode flips between sign-in and sign-up, and nothing else changes |
| LoginScreen.LoginForm.ShowAlert | Monastery360/app/login.tsx:40-46 | the alert becomes visible with the given title and message |
| LoginScreen.LoginForm.DismissAlert | Monastery360/app/login.tsx:194-197 | the alert is hidden and keeps its text |
| LoginScreen.LoginForm.HandleSubmit | Monastery360/app/login.tsx:48-76 | an invalid form shows an "Error" alert, calls neither login nor signup and does not navigate; otherwise the store is called in the current mode, with loading raised before the call and lowered after it, as the store's history records; success routes by role; failure shows "Authentication Error" with the error message and does not navigate |
| LoginScreen.LoginForm.ShowDemoCredentials | Monastery360/app/login.tsx:78-83 | shows the demo accounts and their password in a "Demo Credentials" alert |
| Catalogue.FirstIndex | Monastery360/services/monastery.ts:12 | the position found has the id and no earlier monastery has it, or no monastery has it |
| Catalogue.GetMonasteryById | Monastery360/services/monastery.ts:12 | the result is the first monastery with that id, and null iff none has it |
| Catalogue.GetNearbyAttractions | Monastery360/services/monastery.ts:25-26 | the first monastery with that id gives its own attraction list; an unknown id gives the empty list |
| Catalogue.ToLower | Monastery360/services/monastery.ts:18-19 | lowercasing keeps the length and folds each ASCII letter |
| Catalogue.Includes | Monastery360/services/monastery.ts:18-19 | `includes` is true iff the needle occurs at some position of the text |
| Catalogue.SearchMonasteries | Monastery360/services/monastery.ts:17-20 | the result is a subsequence of the catalogue in its order; everything in it matches; each monastery appears as often as in the catalogue if it matches and not at all otherwise |
| Catalogue.SearchFinds | Monastery360/services/monastery.ts:17-20 | a catalogue monastery is in the result iff its lowercased name or description contains the lowercased query |
| Catalogue.SearchEmptyQuery | Monastery360/services/monastery.ts:17-20 | the empty query returns the whole catalogue |
| Catalogue.SearchIgnoresCase | Monastery360/services/monastery.ts:18-19 | queries that lowercase alike give the same result |
| Catalogue.SearchUpperOrLowerQuery | Monastery360/services/monastery.ts:18-19 | upper-casing or lower-casing the query does not change the result |
| Catalogue.SearchNarrows | Monastery360/services/monastery.ts:17-20 | extending a query gives a subsequence of the shorter query's result |
| Catalogue.BookVisit | Monastery360/services/monastery.ts:36-41 | a booking keeps every supplied field, is confirmed and paid, and gets as id the clock reading in decimal with no leading zero, so it reads back as that reading |
| Catalogue.BookingIdsDistinct | Monastery360/services/monastery.ts:38 | bookings made at different clock readings get different ids |

## Findings

| source | as written | input that shows it | evidently intended | confidence | as-written member | corrected member |
|---|---|---|---|---|---|---|
| Monastery360/services/auth.ts:40-43 | `mockUsers[email]` reads a property of an object literal, so it also finds the members inherited from Object.prototype, and `!user` lets them through | `login('constructor', '123456')` resolves with the `Object` function instead of rejecting, and stores it as the current user | only the two directory emails are accepted | high, not executed | Auth.InheritedKeyPassesGuard | Auth.Authenticate |

The rest of the model uses the corrected check (`Auth.Authenticate`, own
entries only). With the bug as written, the stored "user" has no `role`. The
entry page would then take its /login fallback, and the login screen would
neither navigate nor alert.

## Left out

- Rendering, styles, the spinner, the web modal versus native `Alert` choice in `showWebAlert`: the model sets the alert state on every platform.
- Timing: `delay` is nothing and `Date.now()` is the parameter `now`. Number-to-string rendering is modelled for the integers a clock gives; JavaScript's exponent notation from 1e21 up is not modelled.
- Interleaving of overlapping async calls (for example a login racing a logout): each store operation is one atomic step.
- The store's catch branches are reached only through the `fault` parameter. Nothing in AuthService as written raises there. A thrown value that is not an `Error` ("An error occurred" in login.tsx:74) cannot occur in this core and is not modelled.
- Router.IndexPage.Render: when the auth hook throws, the source calls its error setter during every render without a guard (app/index.tsx:17-20). React re-renders at once after such an update and stops with a "Too many re-renders" error, so the error screen the model shows is never committed. The model gives the intended outcome and does not model that loop. In the assembled app the branch is dead, because app/_layout.tsx:27-35 places the provider above every screen. The hook (hooks/useAuth) is not part of this model, so "the hook throws" stands for a page rendered without a provider.
- React's scheduling itself: the navigation effect re-running only when its dependencies change is not modelled; the first two renders of a new page are shown.
- Session.AuthProvider.Logout: a fail-closed logout, which would leave no session even when the gateway call fails, is not what the source does. The source clears the user only inside the `try` (contexts/AuthContext.tsx:61-63), so a failing gateway call would leave the user signed in; the model proves that as-written behaviour. The mock gateway's `logout` never throws, so the path is reached only through `fault`.
- Auth.SignupIdsDistinct: the id is the millisecond clock reading, so two sign-ups in the same millisecond get the same id. The model proves only that different clock readings give different ids, which is all the source guarantees; it does not give ids unique across all sign-ups.
- Floating-point data (volume, coordinates, distances, ratings, amounts) is carried as opaque `real` values and never computed with. Three other TypeScript `number` fields (a visitor's `age`, an event's `maxParticipants` and `currentParticipants`) are carried as integers (`int`, `nat`), which assumes they hold whole numbers; no core operation computes with them either. The admin statistics are not modelled.
- `getMonasteries`, `getCulturalEvents` and `getAdminStats` only return constants, and the mock catalogue and event contents are not modelled: the queries take the catalogue as a parameter.
- Case folding is ASCII only; JavaScript's full Unicode `toLowerCase` is not modelled.
- The `Monastery` record keeps id, name, description, location, images, attractions and events. Virtual tours, panoramic views, audio guides, manuscripts, visiting hours and ticket pricing are not part of it, since no core operation reads them.
- Router.IndexNavigation: the "other role" branch (app/index.tsx:38-39) is dead for a typed `User`. It is stated over role strings in Router.RouteForRoleName, and Router.TypedRoleNeverFallsBack shows it is unreachable.
- The submit button's `loading` state and the mode-dependent labels of the login screen are presentation and are not modelled.
