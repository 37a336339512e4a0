# BrightPath session and timeline access model

This project models two parts of BrightPath, a role-gated school web application.

- **The browser-side session layer.** `localStorage` is a map from string keys to string values. It holds `access`, `refresh`, `role`, `userRole` and `username`. The model covers the flows that read and write it:
  - the login page's page-load session check and its login submit;
  - the route guard on protected views;
  - the instructor dashboard's profile gate, feed fetch and logout;
  - the reset-password, registration and forgot-password submits.
- **The backend's timeline-feed access rules.** These decide who sees which items, who may create an item, how a requested status is coerced, and who may publish. They rest on the user model's role predicates.

## How the model is built

- **Pages are classes.** Each React page is a class whose fields are the page's state (`error`, `loading`, `message`, `success`, the form).
- **Async handlers are split at each `await`.** Every async handler becomes one method per segment between `await`s, named `Start…`, `Finish…` or `On…Reply`.
- **Replies are inputs.** A backend reply is an input value `Api.Reply<T>` (`Ok(data)` or `Err(failure)`).
- **Requests, navigation and redirect timers are outputs.** A request is a returned `Api.Call` that carries its body or bearer token. A navigation is a returned `Api.Nav(path, replace)`. A `setTimeout` redirect is a returned `Api.Timer(path, ms)`.
- **The store is passed in.** `localStorage` is the class `Storage.LocalStorage`, passed to each method that uses it.
- **JavaScript values are modelled exactly where they matter.** A string field of a JSON reply is `Js.JsValue`: `Undefined`, `Null` or `Str(s)`. Only a non-empty string is truthy. `setItem` stores `String(v)`, so a missing role is stored as the text `undefined`, as the browser does.
- **The backend is mostly pure.** Visibility and `role_check` are pure functions. `publish` is a method of the `TimelineItem` class. `perform_create` and `update` are methods, each tied to a pure function of the resulting row (`CreatedRow`, `UpdatedRow`), and the lemmas are proved about those functions.

Behaviour the model follows as written:

- A failed page-load check removes only `access` and `refresh`; `role` survives (`Session.FailedSessionCheckSignsOut`, `Session.SessionCheckThenGuard`).
- Logout removes only `access` and `refresh`; `role` and `username` survive (`InstructorDashboard.LoggedOut`).
- The page-load check writes `userRole`, not `role`, and the guard reads `role` (`Session.SessionCheckKeepsGuardDecision`).
- A reset link without its parameters is flagged at mount but does not block the request (`Session.MissingParametersDoNotBlockSubmit`).
- An empty allow-list denies every role (`Routing.EmptyAllowListDeniesAll`).
- The dashboard's feed fetch compares the raw profile role with the uppercase `"INSTRUCTOR"`, case-sensitively (`InstructorDashboard.LowercaseInstructorLoadsNoFeeds`).
- A user who may not publish can still update a published item of any author by sending DRAFT, which unpublishes it (`TimelineViews.UnprivilegedUpdateReach`).

## Model

| member | source | states |
|---|---|---|
| `Js.Truthy` | frontend_brightpath/src/pages/LoginPage.js:58 | defines JavaScript truthiness of a JSON string field: only a non-empty string is truthy |
| `Js.Present` | frontend_brightpath/src/pages/LoginPage.js:20 | defines the truthiness of a `getItem` or `URLSearchParams.get` result: a present, non-empty string |
| `Js.ToJsString` | frontend_brightpath/src/pages/LoginPage.js:73-74 | defines `String(v)` as `setItem` applies it: `undefined` and `null` become those words, a string stays itself |
| `Api.Detail` | frontend_brightpath/src/pages/LoginPage.js:82 | defines `err.response?.data?.detail`: `undefined` when there is no response |
| `Storage.HasAccess` | frontend_brightpath/src/hooks/ProtectedRoute.js:9 | defines "logged in" for the guard: a non-empty `access` is stored |
| `Login.TokensPresent` | frontend_brightpath/src/pages/LoginPage.js:58 | defines a usable token reply: both `access` and `refresh` are truthy |
| `Routing.RoleAllowed` | frontend_brightpath/src/hooks/ProtectedRoute.js:11 | defines `allowedRoles.includes(role?.toLowerCase())`: a stored role whose lowercase form is an entry |
| `InstructorDashboard.ShouldFetchFeeds` | frontend_brightpath/src/pages/Dashboard.js:34 | defines the feed effect's condition: a user whose role is exactly the string `INSTRUCTOR` |
| `Accounts.IsAdmin` | backend_brighpath/accounts/models.py:18-19 | defines `is_admin`: the role equals `ADMIN` |
| `Accounts.IsManager` | backend_brighpath/accounts/models.py:21-22 | defines `is_manager`: the role equals `MANAGER` |
| `Accounts.IsInstructor` | backend_brighpath/accounts/models.py:24-25 | defines `is_instructor`: the role equals `INSTRUCTOR` |
| `TimelineModels.ListedBefore` | backend_brighpath/timeline_feed/models.py:25 | defines the listing order: later publication first, then later creation, unpublished items last |
| `TimelineViews.FromAccount` | backend_brighpath/accounts/models.py:18-25 | defines the request user of an account: the three role predicates as methods, no `is_writer` |
| `TimelineViews.CanPublish` | backend_brighpath/timeline_feed/views.py:86 | defines "may publish": an authenticated superuser, admin or manager |
| `TimelineViews.IsWriter` | backend_brighpath/timeline_feed/views.py:57 | defines the instructor condition: `is_instructor` or the former `is_writer` |
| `TimelineViews.MayCreate` | backend_brighpath/timeline_feed/views.py:55-59 | defines who may create: an authenticated user who may publish or is an instructor or writer |
| `TimelineViews.Sees` | backend_brighpath/timeline_feed/views.py:35-47 | defines visibility: anonymous users see published items, privileged users all, instructors and writers published and their own, others published |
| `TimelineViews.EffectiveStatus` | backend_brighpath/timeline_feed/views.py:84 | defines the requested status: the sent one, else the current one |
| `TimelineViews.UpdateForbidden` | backend_brighpath/timeline_feed/views.py:88 | defines the refusal: the requested status is PUBLISHED and the user may not publish |
| `Js.OrElse` | frontend_brightpath/src/pages/ForgotPasswordPage.js:31 | `v \|\| fallback` is the field when it is a non-empty string, otherwise the fallback |
| `Js.Lower` | frontend_brightpath/src/pages/LoginPage.js:70 | lowercasing keeps the length, maps each character on its own, and yields a string with no uppercase letter |
| `Js.LowerIdempotent` | frontend_brightpath/src/hooks/ProtectedRoute.js:11 | lowercasing an already lowercased role changes nothing |
| `Js.Join` | frontend_brightpath/src/pages/LoginPage.js:83 | `join(sep)` of one element is that element; with a non-empty separator the result is empty exactly for an empty list or a list holding one empty string |
| `Storage.Get` | frontend_brightpath/src/hooks/ProtectedRoute.js:6-7 | `getItem` gives the stored value, or null exactly when the key is absent |
| `Storage.LocalStorage.GetItem` | frontend_brightpath/src/pages/LoginPage.js:19 | reading the store gives the stored value, or null exactly when the key is absent |
| `Storage.LocalStorage.SetItem` | frontend_brightpath/src/pages/LoginPage.js:64-65 | only the written key changes, and it now holds the value |
| `Storage.LocalStorage.RemoveItem` | frontend_brightpath/src/pages/LoginPage.js:15-16 | only the removed key changes, and it is now absent |
| `Login.NormalizedRole` | frontend_brightpath/src/pages/LoginPage.js:70 | `role?.toLowerCase()` is a lowercase string exactly when the server role is a string, and `undefined` otherwise |
| `Login.LandingPath` | frontend_brightpath/src/pages/LoginPage.js:76-78 | `instructor` routes to `/dashboard`; `admin` and `manager` route to `/admin-dashboard`; every other role routes nowhere |
| `Login.LandingNav` | frontend_brightpath/src/pages/LoginPage.js:32-34 | a landing navigation exists exactly when the table has a path, and it replaces the history entry |
| `Login.ErrorMessage` | frontend_brightpath/src/pages/LoginPage.js:81-85 | the login error is the server `detail` if truthy, else the `non_field_errors` joined by a space if non-empty, else "Network or server error."; it is never empty |
| `Login.LoginPage.constructor` | frontend_brightpath/src/pages/LoginPage.js:8-10 | empty form, not loading, no error |
| `Login.LoginPage.StartSessionCheck` | frontend_brightpath/src/pages/LoginPage.js:14-20 | first removes exactly `userRole` and `username`; issues a profile request with the stored token exactly when a non-empty `access` is stored, and nothing more otherwise |
| `Login.LoginPage.FinishSessionCheck` | frontend_brightpath/src/pages/LoginPage.js:22-38 | on success writes the lowercased role under `userRole` and the username, and routes by the table; on failure removes exactly `access` and `refresh` and does not navigate |
| `Login.LoginPage.StartSubmit` | frontend_brightpath/src/pages/LoginPage.js:46-55 | clears the error, sets loading, and posts the typed username and password |
| `Login.LoginPage.OnTokenReply` | frontend_brightpath/src/pages/LoginPage.js:57-88 | with both tokens present, stores both before issuing the profile request with the new access token; with a token missing, sets "Invalid server response: tokens missing."; on a failed request, sets the precedence message; whenever the flow stops here the store is untouched and loading is false |
| `Login.LoginPage.OnProfileReply` | frontend_brightpath/src/pages/LoginPage.js:67-88 | on success stores the lowercased role under `role` and the username, and routes by the table; for an unrecognised role sets "Unknown user role: " plus the raw role and does not navigate; on failure leaves the store (tokens included) untouched; loading always ends false |
| `Routing.ProtectedRoute` | frontend_brightpath/src/hooks/ProtectedRoute.js:5-17 | without a stored access token, a replace-redirect to `/login`; with one and no allow-list, the children; with an allow-list, the children exactly when the lowercased stored role is in the list; every redirect is the same one |
| `Routing.UppercaseEntryAdmitsNothing` | frontend_brightpath/src/hooks/ProtectedRoute.js:11 | an allow-list entry containing an uppercase letter admits no stored role, since only the stored role is lowercased |
| `Routing.MissingRoleDenied` | frontend_brightpath/src/hooks/ProtectedRoute.js:7-13 | a missing `role` key is denied by every allow-list |
| `Routing.EmptyAllowListDeniesAll` | frontend_brightpath/src/hooks/ProtectedRoute.js:11-13 | an empty allow-list denies every store |
| `Routing.DenialsAreIdentical` | frontend_brightpath/src/hooks/ProtectedRoute.js:9-13 | "not logged in" and "role not allowed" give the identical outcome |
| `Routing.AllowListIsNotLowercased` | frontend_brightpath/src/hooks/ProtectedRoute.js:11 | a stored `Instructor` is admitted by the entry `instructor` but not by the entry `Instructor` |
| `Routing.GuardReadsOnlyAccessAndRole` | frontend_brightpath/src/hooks/ProtectedRoute.js:6-7 | two stores that agree on `access` and `role` get the same decision |
| `InstructorDashboard.LoggedOut` | frontend_brightpath/src/pages/Dashboard.js:52-53 | after logout `access` and `refresh` are absent and every other key keeps its value |
| `InstructorDashboard.LogoutIdempotent` | frontend_brightpath/src/pages/Dashboard.js:52-53 | logging out twice gives the store that logging out once gives |
| `InstructorDashboard.LowercaseInstructorLoadsNoFeeds` | frontend_brightpath/src/pages/Dashboard.js:34 | a profile role of lowercase `instructor` does not trigger the feed fetch |
| `InstructorDashboard.Dashboard.constructor` | frontend_brightpath/src/pages/Dashboard.js:8-10 | no user, no feeds, not loading |
| `InstructorDashboard.Dashboard.StartFetchProfile` | frontend_brightpath/src/pages/Dashboard.js:13-22 | without an access token navigates to `/login` with no request; otherwise requests the profile with the stored token; the store is only read |
| `InstructorDashboard.Dashboard.FinishFetchProfile` | frontend_brightpath/src/pages/Dashboard.js:19-27 | success sets `user` to the reply; failure keeps `user` and navigates to `/login`; the store is not touched |
| `InstructorDashboard.Dashboard.OnUserChanged` | frontend_brightpath/src/pages/Dashboard.js:33-37 | feeds are requested exactly when the user's role is the uppercase string `INSTRUCTOR` |
| `InstructorDashboard.Dashboard.StartFetchFeeds` | frontend_brightpath/src/pages/Dashboard.js:39-42 | sets `loadingFeeds` and requests the timeline items |
| `InstructorDashboard.Dashboard.FinishFetchFeeds` | frontend_brightpath/src/pages/Dashboard.js:42-48 | replaces `feeds` only on success, keeps them on failure, and ends with `loadingFeeds` false |
| `InstructorDashboard.Dashboard.Logout` | frontend_brightpath/src/pages/Dashboard.js:51-55 | the store becomes the logged-out store, and the page navigates to `/login` |
| `ResetPassword.SuccessMessage` | frontend_brightpath/src/pages/ResetPasswordPage.js:43 | the server `detail` if truthy, else "Password reset successful!" |
| `ResetPassword.FailureMessage` | frontend_brightpath/src/pages/ResetPasswordPage.js:49-52 | the server `detail` if truthy, else "Failed to reset password. Link may be invalid or expired." |
| `ResetPassword.ResetPasswordPage.constructor` | frontend_brightpath/src/pages/ResetPasswordPage.js:9-17 | the URL parameters are kept as read; empty passwords, not loading, no texts |
| `ResetPassword.ResetPasswordPage.CheckParameters` | frontend_brightpath/src/pages/ResetPasswordPage.js:19-23 | the error "Invalid reset link. Missing parameters." is set exactly when `uidb64` or `token` is missing or empty |
| `ResetPassword.ResetPasswordPage.StartSubmit` | frontend_brightpath/src/pages/ResetPasswordPage.js:25-41 | clears error and message first; differing passwords set "Passwords do not match.", send nothing and leave loading as it was; equal ones set loading and post `uidb64`, `token` and the password as read or typed |
| `ResetPassword.ResetPasswordPage.FinishSubmit` | frontend_brightpath/src/pages/ResetPasswordPage.js:43-55 | success sets the message and schedules `/login` after 3000 ms; failure sets the error; loading ends false |
| `Registration.SuccessMessage` | frontend_brightpath/src/pages/RegisterPage.js:28 | the server `detail` if truthy, else "User registered successfully!" |
| `Registration.FailureMessage` | frontend_brightpath/src/pages/RegisterPage.js:36-38 | the JSON text of the response data verbatim, else "Network or server error." when there is no response data |
| `Registration.RegisterPage.constructor` | frontend_brightpath/src/pages/RegisterPage.js:8-16 | empty four-field form, not loading, no texts |
| `Registration.RegisterPage.StartSubmit` | frontend_brightpath/src/pages/RegisterPage.js:20-27 | clears error and success, sets loading, and posts the whole form unchanged |
| `Registration.RegisterPage.FinishSubmit` | frontend_brightpath/src/pages/RegisterPage.js:26-41 | success sets the text, resets all four fields to empty and schedules `/login` after 2000 ms; failure sets the error and keeps the form; loading ends false |
| `ForgotPassword.FailureMessage` | frontend_brightpath/src/pages/ForgotPasswordPage.js:31 | the server `detail` if truthy, else "Something went wrong." |
| `ForgotPassword.ForgotPasswordPage.constructor` | frontend_brightpath/src/pages/ForgotPasswordPage.js:7-10 | empty address and message, no success, not loading |
| `ForgotPassword.ForgotPasswordPage.StartSubmit` | frontend_brightpath/src/pages/ForgotPasswordPage.js:13-22 | sets loading, clears the message and success, and posts the address as typed |
| `ForgotPassword.ForgotPasswordPage.FinishSubmit` | frontend_brightpath/src/pages/ForgotPasswordPage.js:19-34 | success sets success and the fixed text "Check your email for the reset link." (the reply body is ignored) and schedules `/login` after 5000 ms; failure clears success and sets the precedence message; loading ends false |
| `Accounts.NewAccount` | backend_brighpath/accounts/models.py:16 | a user created without a role gets `INSTRUCTOR`, which is one of the choices |
| `Accounts.AtMostOneRole` | backend_brighpath/accounts/models.py:18-25 | no role string satisfies two of `is_admin`, `is_manager`, `is_instructor` |
| `Accounts.ExactlyOneRoleForChoices` | backend_brighpath/accounts/models.py:10-25 | some role predicate holds exactly when the role is in the choice list |
| `Accounts.NewAccountIsInstructor` | backend_brighpath/accounts/models.py:16-25 | a new user is an instructor and neither admin nor manager |
| `TimelineModels.PublishedRow` | backend_brighpath/timeline_feed/models.py:27-31 | after `publish` the status is PUBLISHED; an unpublished item is stamped with the time; a published item is unchanged, its stamp included; other fields are kept |
| `TimelineModels.PublishIdempotent` | backend_brighpath/timeline_feed/models.py:28 | publishing twice is publishing once |
| `TimelineModels.TimelineItem.constructor` | backend_brighpath/timeline_feed/models.py:13-22 | a saved item has no publication time |
| `TimelineModels.TimelineItem.Load` | backend_brighpath/timeline_feed/views.py:82 | an instance loaded from a row holds exactly that row |
| `TimelineModels.TimelineItem.Publish` | backend_brighpath/timeline_feed/models.py:27-31 | the item's new row is the published row of its old one |
| `TimelineModels.ListedBeforeIsTotalPreorder` | backend_brighpath/timeline_feed/models.py:24-25 | the listing order (`published_at` descending, then `created_at` descending) is reflexive, total and transitive |
| `TimelineViews.RoleCheck` | backend_brighpath/timeline_feed/views.py:11-22 | true exactly for a truthy attribute or a method returning a truthy value; a missing attribute or a raising method gives false |
| `TimelineViews.RoleCheckOnAccount` | backend_brighpath/accounts/models.py:18-25 | on a user-model account, `role_check` agrees with the three role predicates, and `is_writer` is false |
| `TimelineViews.GetQueryset` | backend_brighpath/timeline_feed/views.py:30-47 | an item is in the result exactly when it is in the table and the user may see it |
| `TimelineViews.EveryoneSeesPublished` | backend_brighpath/timeline_feed/views.py:34-47 | every user sees every published item |
| `TimelineViews.AnonymousSeesExactlyPublished` | backend_brighpath/timeline_feed/views.py:35-36 | an anonymous user sees exactly the published items |
| `TimelineViews.UnprivilegedSees` | backend_brighpath/timeline_feed/views.py:42-47 | an instructor or writer sees the published items and their own; any other non-privileged user sees only the published ones |
| `TimelineViews.PrivilegedSeesEverything` | backend_brighpath/timeline_feed/views.py:39-40 | a superuser, admin or manager gets the whole table, in its order |
| `TimelineViews.QuerysetKeepsListingOrder` | backend_brighpath/timeline_feed/views.py:30-47 | filtering a table in listing order yields a list in listing order |
| `TimelineViews.GetObject` | backend_brighpath/timeline_feed/views.py:82 | the object found has the id and is visible to the user; nothing is found exactly when no visible item has the id |
| `TimelineViews.FirstWithId` | backend_brighpath/timeline_feed/views.py:82 | an item with the id and no earlier item with it, or none exactly when no item has it |
| `TimelineViews.CreatedRow` | backend_brighpath/timeline_feed/views.py:62-77 | the author is the requester; the status is PUBLISHED, stamped, exactly when PUBLISHED was requested by a superuser, admin or manager, and DRAFT with no stamp otherwise |
| `TimelineViews.PerformCreate` | backend_brighpath/timeline_feed/views.py:49-77 | anonymous users and users with none of the three roles are refused with their messages and nothing is created; otherwise a new item with the created row |
| `TimelineViews.UpdatedRow` | backend_brighpath/timeline_feed/views.py:84-97 | sent fields are applied; the status becomes the requested one, defaulting to the current one; the stamp changes only on a move into PUBLISHED, to the given time |
| `TimelineViews.Update` | backend_brighpath/timeline_feed/views.py:79-97 | not found exactly when the user's queryset has no row with the id; refused exactly when the found row's effective status is PUBLISHED and the user may not publish; otherwise the loaded instance becomes the updated row |
| `TimelineViews.UnprivilegedRefusedOnPublished` | backend_brighpath/timeline_feed/views.py:84-89 | a user who may not publish is refused on a published item unless DRAFT is sent |
| `TimelineViews.UnprivilegedUpdateReach` | backend_brighpath/timeline_feed/views.py:82-94 | a user who may not publish updates only rows they can see, published ones or, as instructor or writer, their own; a published row is updatable only by sending DRAFT, which unpublishes it |
| `TimelineViews.AccountPermissions` | backend_brighpath/timeline_feed/views.py:55-60 | for an account, publishing takes a superuser, admin or manager, and creating takes a superuser or a role from the choice list |
| `TimelineViews.OnlyPrivilegedPublish` | backend_brighpath/timeline_feed/views.py:65-94 | a create or permitted update that leaves an item PUBLISHED was made by a superuser, admin or manager |
| `Session.LowerRoleConstants` | backend_brighpath/accounts/models.py:6-8 | the role constants lowercase to `instructor`, `admin` and `manager` |
| `Session.LowerInstructorConstant` | backend_brighpath/accounts/models.py:8 | `INSTRUCTOR` lowercases to `instructor` |
| `Session.LowerAdminConstant` | backend_brighpath/accounts/models.py:6 | `ADMIN` lowercases to `admin` |
| `Session.LowerManagerConstant` | backend_brighpath/accounts/models.py:7 | `MANAGER` lowercases to `manager` |
| `Session.BackendRolesHaveLandingPages` | frontend_brightpath/src/pages/LoginPage.js:76-78 | every backend role choice, lowercased, is a key of the landing table: instructors land on `/dashboard`, the others on `/admin-dashboard` |
| `Session.LowerCapitalizedInstructor` | frontend_brightpath/src/pages/LoginPage.js:70 | a server role `Instructor` is stored as `instructor` |
| `Session.LoginThenGuard` | frontend_brightpath/src/hooks/ProtectedRoute.js:11 | after a complete login the guard admits the user exactly when the lowercased server role is on the allow-list |
| `Session.InstructorLoginScenario` | frontend_brightpath/src/pages/LoginPage.js:64-76 | a login whose role is any case of `instructor` stores `instructor`, lands on `/dashboard`, passes the instructor guard and fails the admin guard |
| `Session.SubmitThenGuard` | frontend_brightpath/src/pages/LoginPage.js:46-89 | the phases of one submit compose: loading ends false; without both tokens the store is unchanged; after a full success the store and landing page are the login's and the guard follows the lowercased role |
| `Session.FailedSessionCheckSignsOut` | frontend_brightpath/src/pages/LoginPage.js:35-38 | after a failed page-load check every protected view redirects, while `role` is still stored |
| `Session.SessionCheckKeepsGuardDecision` | frontend_brightpath/src/pages/LoginPage.js:29-30 | a successful page-load check never changes a guard decision |
| `Session.SessionCheckThenGuard` | frontend_brightpath/src/pages/LoginPage.js:14-42 | the two phases of the page-load check compose: without a token no request and a redirect; success keeps the guard's decision; failure signs out while `role` stays |
| `Session.LogoutThenGuard` | frontend_brightpath/src/pages/Dashboard.js:51-55 | after logout every protected view redirects to `/login` |
| `Session.FeedsOnlyForBackendInstructor` | frontend_brightpath/src/pages/Dashboard.js:34 | feeds load exactly for the backend's `INSTRUCTOR` constant, and such a user lands on `/dashboard` |
| `Session.MissingParametersDoNotBlockSubmit` | frontend_brightpath/src/pages/ResetPasswordPage.js:19-41 | a link with no parameters is flagged, and a submit with matching passwords still posts, with the parameters as null |

## Left out

- JSX rendering, the `styles` objects, and the browser's handling of `required` inputs and of `disabled` buttons: these are presentation.
- The `onChange` handlers: their effect is a plain field assignment, so the model assigns the public fields directly.
- `SchoolFeedPage.js`: it fetches a list and renders it, with no decisions.
- Concurrency. Phases may be called in any order, but no interleaving of the page-load check with a submit is analysed, and neither are responses that arrive after navigation.
- The real network (`API`, `axios`, the hard-coded forgot-password URL), the firing of scheduled timers, and `console.error`. Replies are inputs, and timers are returned values.
- `timezone.now()`: it is the parameter `now`. `perform_create` uses the same `now` for `created_at` and `published_at`, and `updated_at` is not modelled.
- Js.Lower: maps only the ASCII letters A–Z; the full Unicode case mapping of `toLowerCase` is not modelled.
- Non-string JSON values in a reply (such as a numeric role, which would make `toLowerCase` throw), and `JSON.stringify` itself. The JSON text of an error response is an input (`ErrorData.json`).
- Django's ORM, `save()` and DRF plumbing:
  - the serializer's validation of the status choices (the model takes the validated `Option<Status>`) and of required fields;
  - `IsAuthenticatedOrReadOnly`, which refuses anonymous writes before the view code runs; `TimelineViews.Update` runs the view code for any user;
  - the 404 response itself (`TimelineViews.Update` returns `NotFound`, without the response body);
  - `TimelineViews.Update` assumes the serializer update that follows the stamping succeeds. A serializer error after the stamping save would leave the stamp in place, and that path is not modelled.
- Null placement in `Meta.ordering` depends on the database. `ListedBefore` lists items without `published_at` after all items that have one, as SQLite does for a descending order.
- The configuration-only files (`admin.py` and the `urls.py` files) and the backend views behind the authentication endpoints.
- React hook semantics: effects run once, in order, and state setters are field assignments.
