# Admin dashboard client core, modelled in Dafny

This project models the client-side logic of a small course-administration
dashboard (a Next.js app):

- the session context (`AuthProvider`): the `admin` and `loading` state, the
  `adminToken` slot in `localStorage`, the offline expiry check of the stored
  JSON Web Token (RFC 7519), and the `checkAuth`, `login` and `logout` transitions;
- the API client: building headers and URLs, choosing the error message,
  unwrapping list envelopes, and the fixed verb and path of each backend route;
- the route guard, which chooses between spinner, redirect plus nothing, and children;
- the course form: the features text, category ids, the checkbox rule, and the
  normalised create-or-update payload;
- the two dashboard widgets, which keep at most the first five listed items.

Files and modules:

| file | module | models |
|---|---|---|
| `Js.dfy` | `Js` | the JavaScript semantics the code relies on: JSON values plus `undefined`, truthiness and `\|\|`, property reads (`null.x` throws), `split`, `join`, `trim`, `includes` on strings, `String(v)` |
| `Browser.dfy` | `Browser` | `localStorage` as a class over a `map<string, string>` |
| `Api.dfy` | `Api` | `lib/api.js` |
| `Auth.dfy` | `Auth` | `context/AuthContext.jsx` |
| `ProtectedRoute.dfy` | `ProtectedRoute` | `components/layout/ProtectedRoute.jsx` |
| `CourseForm.dfy` | `CourseForm` | `components/forms/CourseForm.jsx` |
| `DashboardTables.dfy` | `DashboardTables` | `components/dashboard/CourseTable.jsx` and `components/dashboard/CategoryTable.jsx` |

How the model is built:

- Inputs the code cannot compute are parameters. These are:
  - the network: a `FetchOutcome` is either a transport failure or a response with a status, an ok flag and a body that parsed or did not;
  - the clock: `nowMs`, the integer milliseconds of `Date.now()`;
  - the token decoding (`atob` then `JSON.parse`): a function from the payload segment to an optional payload;
  - a failing storage read: a boolean;
  - `formatDate`: a function.
- State the source mutates is held in classes:
  - the provider's `admin` and `loading`;
  - the storage map;
  - the form's values, categories and `loading`;
  - a widget's items and `loading`.
- Each state-changing method is tied to a function of the old state, such as `CheckAuthNext`, `LoginNext` and `LogoutNext`. Its properties are proved as lemmas about that function.

Where the code and the prose description of the system disagree, the model follows the code:

- `checkAuth` removes the key `"token"`, not `"adminToken"`. An invalid or expired token therefore stays in its slot and is still sent as the bearer credential.
- A missing `exp`, a zero `exp` and an `exp` equal to now all count as valid.
- Caller headers replace the merged headers entirely, so the bearer and content-type headers are then dropped.
- The thrown error carries only a message and no status.
- A body that is not JSON throws a `SyntaxError` before the ok check, even on an error status.

## Model

| member | source | states |
|---|---|---|
| Js.Get | lib/api.js:29 | a property read throws a TypeError exactly on null or undefined; an object yields its own field, any other value `undefined` |
| Js.Split | components/forms/CourseForm.jsx:98 | `split` on a one-character separator yields at least one piece, no piece contains the separator, and joining the pieces with it gives the input back |
| Js.SplitAfterPiece | components/forms/CourseForm.jsx:98 | a separator-free piece followed by the separator splits off as the first element |
| Js.SplitWithoutSeparator | context/AuthContext.jsx:11 | a string without the separator splits to itself alone |
| Js.SplitJoin | components/forms/CourseForm.jsx:58 | `split` inverts `join` when no piece contains the separator |
| Js.Trim | components/forms/CourseForm.jsx:98 | `trim` leaves no leading or trailing white space, never lengthens, and is the identity on trimmed strings; its value is pinned by `TrimStripsSpace` and `TrimUnique` |
| Js.TrimStripsSpace | components/forms/CourseForm.jsx:98 | the input is a run of white space, then the trimmed result, then a run of white space |
| Js.TrimUnique | components/forms/CourseForm.jsx:98 | conversely, any non-empty trimmed string so surrounded by white space is the result of `trim`, so the result is fixed |
| Js.TrimEndBeforeSpace | components/forms/CourseForm.jsx:98 | trailing white space after a string ending in a non-space is exactly what is removed from the end |
| Js.TrimKeepsCharsOut | components/forms/CourseForm.jsx:98 | trimming never introduces a character, so trimmed pieces stay comma-free |
| Js.TrimAfterSpace | components/forms/CourseForm.jsx:98 | trimming a run of spaces followed by a non-empty trimmed string yields that string |
| Js.TrimAllSpace | components/forms/CourseForm.jsx:98 | a string of white space trims to "" |
| Js.Strings | components/forms/CourseForm.jsx:98 | the array of a list of strings holds exactly those strings in order |
| Js.JoinValuesOfStrings | components/forms/CourseForm.jsx:58 | `join` on an array of strings is the join of the strings |
| Browser.Lookup | lib/api.js:9 | `getItem` is null exactly when the key is absent, else the stored string |
| Browser.LocalStorage.GetItem | context/AuthContext.jsx:42 | reads the slot as `Lookup` does |
| Browser.LocalStorage.SetItem | context/AuthContext.jsx:62 | stores `String(value)` under the key and changes no other key |
| Browser.LocalStorage.RemoveItem | context/AuthContext.jsx:71 | removes the key, a no-op when absent |
| Api.BaseUrl | lib/api.js:1 | the environment variable when set and non-empty, else `http://localhost:5000`; never empty |
| Api.RequestUrl | lib/api.js:22 | the URL is the base followed by the endpoint, both recoverable |
| Api.RequestConfig | lib/api.js:9-18 | verb and body are passed through; caller headers replace all headers; otherwise exactly Content-Type `application/json` plus `Authorization: Bearer <token>` iff the stored token is non-empty |
| Api.CallerHeadersDiscardDefaults | lib/api.js:11-18 | with caller headers the merged object had the bearer and JSON headers, but the request carries neither unless the caller names them |
| Api.FailureMessage | lib/api.js:29 | `message` if truthy, else `msg` if truthy, else "API request failed"; always truthy; a null body throws a TypeError |
| Api.Settle | lib/api.js:20-36 | resolves to the parsed body exactly for an ok response with a JSON body; otherwise rejects with the transport error, the JSON SyntaxError, or an Error with the failure message; nothing is swallowed |
| Api.StatusNotReported | lib/api.js:28-30 | the settled result does not depend on the status code |
| Api.Unwrap | lib/api.js:48-51 | the envelope field when truthy, else the whole body; a bare array passes unchanged; failures pass through; a null body throws |
| Api.EnvelopeTolerance | lib/api.js:74-77 | a bare array and the array wrapped in its envelope unwrap to the same list |
| Api.ItemPath | lib/api.js:61 | the item path is the collection path, "/" and `String(id)` |
| Api.ApiClient.constructor | lib/api.js:4-6 | the base URL is `BaseUrl` of the environment |
| Api.ApiClient.Request | lib/api.js:8-37 | sends to base URL plus endpoint with the config built from the stored token and settles as `Settle` |
| Api.ApiClient.Login | lib/api.js:40-45 | POST `/admin/login` with the credentials as body |
| Api.ApiClient.List | lib/api.js:48-51 | GET the collection without body and unwrap its `courses` or `categories` envelope (also lines 74-77) |
| Api.ApiClient.Create | lib/api.js:53-58 | POST the collection with the data as body (also lines 79-84) |
| Api.ApiClient.Update | lib/api.js:60-65 | PUT `/admin/<resource>/<id>` with the data as body (also lines 86-91) |
| Api.ApiClient.Delete | lib/api.js:67-71 | DELETE `/admin/<resource>/<id>` without body (also lines 93-97) |
| Auth.PayloadSegment | context/AuthContext.jsx:11 | the second dot-separated segment, absent exactly when the token has no dot; it contains no dot |
| Auth.CompactPayloadSegment | context/AuthContext.jsx:11 | for `header.payload.signature` the segment read is `payload` |
| Auth.IsTokenValid | context/AuthContext.jsx:8-21 | an absent or empty token is invalid, so is one without a payload segment or whose payload does not decode; a valid token's payload is not expired |
| Auth.ExpiryRule | context/AuthContext.jsx:12-16 | a decodable token is invalid iff `exp` is present, non-zero and before now; missing, zero and equal-to-now `exp` are valid |
| Auth.ValidityIsMonotone | context/AuthContext.jsx:12-16 | a token valid now was valid at every earlier time |
| Auth.CheckAuthNext | context/AuthContext.jsx:39-57 | `loading` ends false; a valid token becomes the admin; an invalid one leaves `admin` and the `adminToken` slot unchanged and removes `"token"`; a failing read clears the slot and `admin` |
| Auth.CheckAuthIdempotent | context/AuthContext.jsx:39-57 | a second `checkAuth` with the same inputs changes nothing |
| Auth.ExpiredTokenStillSent | context/AuthContext.jsx:43-46 | an expired token survives `checkAuth` and keeps being sent as the bearer header |
| Auth.LoginNext | context/AuthContext.jsx:59-68 | a failed login rethrows and changes nothing; a successful one stores `String(response.token)` in `adminToken`, sets `admin` to `{ token }` and returns the response |
| Auth.LoginThenRequestAuthorized | context/AuthContext.jsx:62 | a request after login carries `Bearer` plus the issued token |
| Auth.LogoutNext | context/AuthContext.jsx:70-73 | removes `adminToken` only and clears `admin` |
| Auth.LogoutIdempotent | context/AuthContext.jsx:70-73 | logging out twice equals logging out once |
| Auth.LogoutThenNoAuthorization | context/AuthContext.jsx:71 | after logout a request carries no bearer header |
| Auth.AuthProvider.constructor | context/AuthContext.jsx:32-33 | starts with `admin` null and `loading` true |
| Auth.AuthProvider.CheckAuth | context/AuthContext.jsx:39-57 | the new provider and storage state is `CheckAuthNext` of the old |
| Auth.AuthProvider.Login | context/AuthContext.jsx:59-68 | posts the credentials with the previously stored token and moves to `LoginNext` of the old state |
| Auth.AuthProvider.Logout | context/AuthContext.jsx:70-73 | the new state is `LogoutNext` of the old |
| Auth.UseAuth | context/AuthContext.jsx:23-29 | the provider's value, or an Error with the fixed message outside any provider |
| ProtectedRoute.Redirect | components/layout/ProtectedRoute.jsx:11-15 | a redirect, when issued, goes to `/login` |
| ProtectedRoute.Render | components/layout/ProtectedRoute.jsx:17-32 | the spinner exactly while loading, nothing exactly when loaded without an admin, the children exactly when loaded with one |
| ProtectedRoute.GuardDecision | components/layout/ProtectedRoute.jsx:11-32 | redirect iff nothing is rendered; the spinner while loading and no redirect; redirect when loaded without admin; children iff loaded with an admin |
| ProtectedRoute.ValidTokenShowsChildren | components/layout/ProtectedRoute.jsx:11-32 | after `checkAuth` with a valid stored token the page is shown without redirect |
| ProtectedRoute.InvalidTokenRedirects | components/layout/ProtectedRoute.jsx:11-30 | on a fresh load with an invalid token nothing is shown and the user is sent to `/login` |
| ProtectedRoute.LogoutRedirects | components/layout/ProtectedRoute.jsx:11-30 | after logout the guard redirects |
| CourseForm.TrimAll | components/forms/CourseForm.jsx:98 | each piece is trimmed, one result per piece |
| CourseForm.DropEmpty | components/forms/CourseForm.jsx:98 | a string is kept exactly when it is a non-empty piece of the input; with `DropEmptyAppend` this fixes the order too |
| CourseForm.ParseFeatures | components/forms/CourseForm.jsx:98 | every submitted feature is non-empty, trimmed and comma-free |
| CourseForm.ParsePiece | components/forms/CourseForm.jsx:98 | a leading comma-free piece contributes its trimmed text, if non-empty, before the rest |
| CourseForm.DropEmptyAppend | components/forms/CourseForm.jsx:98 | filtering distributes over concatenation |
| CourseForm.ParseAfterSpace | components/forms/CourseForm.jsx:58 | leading white space followed by the `", "`-joined features parses back to the features |
| CourseForm.FeaturesRoundTrip | components/forms/CourseForm.jsx:58 | `join(', ')` then split, trim and filter returns a list of non-empty, trimmed, comma-free features unchanged |
| CourseForm.PrefillFeatures | components/forms/CourseForm.jsx:58 | an array becomes its joined text, a truthy non-array stays, a falsy value becomes "" |
| CourseForm.PrefillThenSubmitFeatures | components/forms/CourseForm.jsx:58 | a course's features list, prefilled and submitted unedited, comes back unchanged (line 98) |
| CourseForm.CategoryId | components/forms/CourseForm.jsx:59-61 | an object becomes its `_id`, a non-object stays, a null entry throws |
| CourseForm.CategoryIds | components/forms/CourseForm.jsx:59-61 | one id per entry in order, failing exactly when some entry is null |
| CourseForm.PrefillCategories | components/forms/CourseForm.jsx:59-61 | strings kept in place, objects replaced by their `_id`, a non-array gives no ids; throws exactly when an array entry is null |
| CourseForm.PrefillValues | components/forms/CourseForm.jsx:55-63 | every other course field kept; `features` and `categories` replaced by their prefill; throws exactly when a category entry is null |
| CourseForm.Without | components/forms/CourseForm.jsx:241 | every occurrence of the id removed, every other id kept |
| CourseForm.WithoutAppend | components/forms/CourseForm.jsx:241 | removal distributes over concatenation, so kept ids stay in order |
| CourseForm.WithoutAbsent | components/forms/CourseForm.jsx:241 | removing an absent id changes nothing |
| CourseForm.Toggled | components/forms/CourseForm.jsx:236-242 | checking appends the id after the current ids, a duplicate if already present; unchecking is `Without`, removing every occurrence and keeping the others in order |
| CourseForm.CheckedState | components/forms/CourseForm.jsx:244 | an array shows the box checked iff it holds the id; null or undefined shows unchecked; a string tests for the substring `String(id)`; a number, boolean or object throws |
| CourseForm.ToggleThenShown | components/forms/CourseForm.jsx:236-244 | after a checkbox change the box shows the state it was set to |
| CourseForm.CheckThenUncheck | components/forms/CourseForm.jsx:236-242 | checking then unchecking removes the id and restores a list that lacked it |
| CourseForm.Normalised | components/forms/CourseForm.jsx:96-100 | the spread keeps every other field and sets `features` and `categories` |
| CourseForm.SubmittedPayload | components/forms/CourseForm.jsx:96-100 | throws a TypeError exactly when `features` is not a string; else the parsed features, `categories` when an array or else `[]`, and every other field |
| CourseForm.SubmittedFeaturesClean | components/forms/CourseForm.jsx:98 | every feature sent is a non-empty, trimmed, comma-free string |
| CourseForm.LoadedCategories | components/forms/CourseForm.jsx:86-89 | the listed array, else `[]` for a non-array or a failure |
| CourseForm.CourseFormState.constructor | components/forms/CourseForm.jsx:25-50 | the values are the course or the blank course; no categories and not loading |
| CourseForm.CourseFormState.Open | components/forms/CourseForm.jsx:52-79 | the values become the prefilled course or the blank form; a throwing prefill leaves them |
| CourseForm.CourseFormState.ToggleCategory | components/forms/CourseForm.jsx:236-244 | the categories field becomes `Toggled` of `watch('categories') \|\| []` and the box shows the state set |
| CourseForm.CourseFormState.FetchCategories | components/forms/CourseForm.jsx:81-91 | the categories become the listed array or `[]` |
| CourseForm.CourseFormState.Submit | components/forms/CourseForm.jsx:93-116 | PUT of the payload to the course's item path when editing, POST to the collection otherwise, nothing when the payload throws; `onSuccess` then `onClose` only on success; `loading` ends false |
| DashboardTables.RecentItems | components/dashboard/CourseTable.jsx:22-25 | at most five items, a prefix of the listed array in order, all of a short array, nothing for a non-array or a failure |
| DashboardTables.StatusLabel | components/dashboard/CourseTable.jsx:72 | "Active" iff `isActive` is truthy, else "Inactive" |
| DashboardTables.ItemRow | components/dashboard/CourseTable.jsx:62-77 | one cell per column: name, price or description, status for courses, formatted date; throws exactly on a null or undefined item |
| DashboardTables.ItemRows | components/dashboard/CourseTable.jsx:61-77 | one row per item in order, failing exactly when some item is null or undefined |
| DashboardTables.Render | components/dashboard/CourseTable.jsx:31-89 | the loading card while loading; the single "No courses found" or "No categories found" row for no items; otherwise the rows |
| DashboardTables.TableIsRectangular | components/dashboard/CategoryTable.jsx:59-73 | every row has one cell per column, the message row spans all columns, at most five rows |
| DashboardTables.EnvelopeShowsSameRows | components/dashboard/CategoryTable.jsx:21 | a bare array and its envelope give the same displayed items |
| DashboardTables.FailedListingShowsMessage | components/dashboard/CategoryTable.jsx:22-27 | any failed listing ends with the message row |
| DashboardTables.RecentTable.constructor | components/dashboard/CategoryTable.jsx:11-12 | no items and `loading` true |
| DashboardTables.RecentTable.Fetch | components/dashboard/CategoryTable.jsx:18-28 | GET the collection; the items become `RecentItems` of the unwrapped result; `loading` ends false on every path |
| DashboardTables.RecentTable.View | components/dashboard/CourseTable.jsx:31-44 | the loading card while loading, else a table or the thrown error |

## Left out

- Base64 and JSON decoding of the token are a parameter (`decode`). The model does not capture that `atob` is plain base64 rather than base64url.
- Only an integer `exp` is modelled. A non-numeric `exp` claim is not.
- Every JSON number is an integer (`Num(n: int)`): fractional prices and durations, and `NaN`, are outside the model.
- Auth.AuthProvider.Login: a `localStorage.setItem` that throws (a full quota, say) is not modelled; the storage write always succeeds.
- The clock is the integer `nowMs`, so `Date.now() / 1000` is compared exactly rather than in floating point.
- `fetch`, `response.json()` and async scheduling are not modelled. Each request takes its outcome as a parameter and runs to completion. Interleaving of concurrent effects is not modelled.
- Console logging and `router.push` are left out. The redirect is returned as a value instead.
- JSX markup, styling and the components under `components/ui` are not part of this model.
- The zod schema and react-hook-form validation are not part of this model. Submission takes the form's data as it is.
- `CategoryForm.jsx`, `LoginForm.jsx`, `SignupForm.jsx`, `Sidebar.jsx` and `lib/constants.js` are not part of this model.
- `hooks/useAuth` is not part of this model. The route guard reads the `admin` and `loading` that `AuthProvider` exposes.
- `formatDate` in `lib/utils` is not part of this model; it is a parameter.
- Header names are compared exactly. HTTP's case-insensitive header names and the order of object keys are not modelled.
- Strict equality `!==` on ids is modelled as structural equality. Two distinct objects with equal contents would compare unequal in JavaScript.
- Built-in properties of non-objects, such as a string's `length`, are read as `undefined`.
- Auth.AuthProvider.CheckAuth: the `removeItem` in the catch block is assumed not to throw.
- CourseForm.CourseFormState.Open: the effect's `fetchCategories()` call is the separate method `FetchCategories`.
- CourseForm.CourseFormState.constructor: a course whose `categories` field is a truthy non-array (a non-empty string, a non-zero number, `true` or an object) is excluded by the requires; falsy values are admitted and read as no ids. For a truthy string, checking a box would spread the string into its characters before the id, and unchecking would throw for want of `filter`; for the other values the spread and `includes` throw. The checkbox handlers are therefore modelled only on arrays and falsy values.
- CourseForm.CourseFormState.Submit: an exception thrown by `onSuccess` or `onClose` is not modelled.
- The modal's open/close state is not modelled. `Open` models the effect for an open modal.
