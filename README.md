# Session and authorization core of a link-shortener web client

This project models the browser-side session logic of a URL-shortening client
and proves properties of it in Dafny. The model covers:

- the **auth store** (`src/stores/auth.js`). It holds the signed-in user, the
  bearer token, `loading` and `error`. It mirrors the session into
  `localStorage`, and its actions settle on the server's answer.
- the **route guard** (`src/main.js`). It is the before-each hook over the
  route table: allow the navigation, redirect to login with the return path,
  or redirect to the dashboard.
- the **authenticated transport** (`src/api/axios.js`). Its request stage
  attaches `Authorization: Bearer <token>`. Its response stage, on a 401,
  clears the stored session and pushes the login route.
- the **links store** (`src/stores/links.js`): the loaded list, the current
  link, statistics and pagination.
- the **theme store** (`src/stores/theme.js`): one dark-mode flag persisted as
  `"dark"`/`"light"`.

Form of the model:

- `localStorage` is a `BrowserStorage.LocalStorage` object with a
  `map<string, string>` field. The auth store, the theme store and the
  transport are each given the object they use; that they share one object
  is a hypothesis stated by whoever composes them, as
  `Flows.ProfileRequestWithExpiredSession` does with
  `client.storage == auth.storage`.
- Each remote call is an input `Http.Outcome<T>`. It is either `Ok(data)` or
  `Err(HttpError(response))`, where the optional response carries the status
  and the server's `data.error` text.
- JSON encoding is an input `Js.Codec` (a `stringify`/`parse` pair, where
  `parse` may fail). Properties that need `JSON.parse(JSON.stringify(v)) == v`
  take `Js.RoundTrips(codec)` as a hypothesis.
- Each store is a class. Its fields are the store's state, and its methods
  assign them step by step as the source does.
- Each method's postcondition states the whole new state. It uses pure
  functions (`SaveSession`, `ClearSession`, `Restore`, `FindIndex`,
  `ReplaceFirst`, `Without`, `WithBearer`, `Guard`, `StatsQuery`), and lemmas
  relate those functions to each other.
- The router is a `Routes.Router` object. It records the navigations pushed
  onto it, plus its current full path.

Three behaviours of the code that the model keeps as written:

- A 401 clears only storage (`auth_token`, `user`; src/api/axios.js:25-26).
  The auth store's in-memory `token` and `user` stay as they were, so
  `isAuthenticated` can stay true while the guard, which reads storage,
  redirects to login. `Flows.ProfileRequestWithExpiredSession` proves this.
- `updateProfile` reports success as a boolean (src/stores/auth.js:94).
- `logout` sets `user` and `token` to null and removes the two stored keys,
  but leaves `loading` and `error` as they were (src/stores/auth.js:118-123).

## Model

| member | source | states |
|---|---|---|
| `Http.ErrorText` | src/stores/auth.js:43 | The recorded error is the server's `data.error` when it is truthy. Otherwise it is the action's fixed fallback (also when no response arrived). It is never empty when the fallback is not. |
| `BrowserStorage.ClearSession` | src/stores/auth.js:121-122 | Removing the session leaves no `auth_token` and no `user`, and no stored token. Every other key keeps its value, and no key is added. |
| `BrowserStorage.ClearSessionIdempotent` | src/stores/auth.js:118-123 | Clearing the session twice is the same as clearing it once, so a second logout changes no storage. |
| `Routes.Find` | src/main.js:19-42 | The route-table lookup returns a record with the requested name, or none when no record has it. |
| `Routes.ProtectedRoutes` | src/main.js:19-42 | Every route name has a table entry. Exactly `dashboard`, `profile` and `link-stats` carry `requiresAuth`. The login path is `/login` and the dashboard path is `/dashboard`. |
| `Routes.Guard` | src/main.js:48-58 | A redirect to login with `redirect = to.fullPath` happens iff the target requires auth and no token is stored. A redirect to the dashboard happens iff the target is login/register and a token is stored. Otherwise the navigation is allowed. Each outcome is stated in both directions, so exactly one applies. |
| `Routes.ProtectedNeedsToken` | src/main.js:51-52 | If the guard allows a navigation to `dashboard`, `profile` or `link-stats`, a token is stored. |
| `Routes.RedirectSettles` | src/main.js:51-56 | If the guard redirects, then the guard is run again on the redirect location under the same storage, and it allows that location. |
| `Routes.Settle` | src/main.js:48-58 | After at most one redirect the navigation ends at an allowed target. That target needs no auth unless a token is stored. An allowed target is kept as it is. A login redirect lands on `/login?redirect=<original path>`, and a dashboard redirect lands on `/dashboard`. |
| `Routes.Router.Push` | src/api/axios.js:27 | `router.push` appends the location to the recorded navigations, keeps the earlier ones in order, and leaves the current full path as it was. |
| `Transport.WithBearer` | src/api/axios.js:9-13 | With a non-empty stored token, the `Authorization` header is `"Bearer " + token`. With none, the headers are returned unchanged. No other header is added, removed or altered. |
| `Transport.ApiClient.OnRequest` | src/api/axios.js:8-14 | The interceptor returns the same config object, and its headers become `WithBearer` of the old headers and the stored token. |
| `Transport.ApiClient.OnRequestError` | src/api/axios.js:15-17 | A request error is rejected unchanged. |
| `Transport.ApiClient.UseRouter` | src/api/axios.js:20-21 | Installing the response stage gives the transport the router it navigates with. |
| `Transport.ApiClient.OnResponse` | src/api/axios.js:20-32 | Every result is returned as it came (a success passes through, an error is still rejected). On a 401, `auth_token` and `user` are removed and `{login, redirect = current full path}` is pushed. Any other result leaves storage and the router's pushes untouched. |
| `Auth.Restore` | src/stores/auth.js:5-21 | A missing or empty `user` entry gives null. One that does not parse gives null and is removed from storage, with nothing surfaced. One that parses gives the parsed value. The token is the stored `auth_token` exactly when that is non-empty, and otherwise null. |
| `Auth.SaveSession` | src/stores/auth.js:38-39 | After the two writes, `auth_token` holds the token and `user` holds the serialized profile. Every other key is unchanged. A token is stored iff it is non-empty. |
| `Auth.RestoreAfterSave` | src/stores/auth.js:6-17 | A session saved on login survives a reload (given a round-tripping JSON codec). The restored user equals the saved one, and the restored token equals the saved one when it is non-empty. |
| `Auth.RestoreAfterProfileWrite` | src/stores/auth.js:76-78 | A profile written back by a fetch or an update is what a reload restores (given a round-tripping JSON codec). The restored token is whatever it was before the write. |
| `Auth.RestoreAfterClear` | src/stores/auth.js:118-123 | After logout (or a 401) a reload restores a null user and a null token. |
| `Auth.RestoreIdempotent` | src/stores/auth.js:6-13 | The storage left by start-up restores to the same session again. A corrupt entry is discarded once. |
| `Auth.RestoredAgreesWithGuard` | src/stores/auth.js:17-24 | At start-up the store's `isAuthenticated` is true iff the guard's `!!localStorage.getItem('auth_token')` is true. |
| `Auth.AuthStore.constructor` | src/stores/auth.js:5-21 | The new store's `user`, `token` and the storage it leaves are those of `Restore`. `loading` is false and `error` is null. The in-memory and stored token agree. |
| `Auth.AuthStore.Login` | src/stores/auth.js:29-48 | On success, `user` and `token` come from the response, storage gets `SaveSession(token, stringify(user))`, `error` is null, and the result is true. On failure, `user`, `token` and storage are unchanged, `error` is the server message or "An error occurred during login", and the result is false. `loading` ends false either way. |
| `Auth.AuthStore.Register` | src/stores/auth.js:50-69 | Same as login, with the fallback "An error occurred during registration". |
| `Auth.AuthStore.FetchUserProfile` | src/stores/auth.js:71-84 | On success, `user` and the stored `user` entry are replaced. `token` never changes. On failure, `error` is the server message or "Failed to fetch user profile". There is no result. |
| `Auth.AuthStore.UpdateProfile` | src/stores/auth.js:86-101 | On success, `user` and the stored `user` entry are replaced, `token` is untouched, and the result is true. On failure, nothing but `error` changes, and the result is false. |
| `Auth.AuthStore.ChangePassword` | src/stores/auth.js:103-116 | `user`, `token` and storage are never modified. The result is true iff the call succeeded. On failure, `error` is the server message or "Failed to change password". |
| `Auth.AuthStore.Logout` | src/stores/auth.js:118-123 | `user` and `token` become null, and storage becomes `ClearSession` of the old storage (other keys are kept). `loading` and `error` are left as they were. A second call changes nothing (see `ClearSessionIdempotent`). |
| `Links.FindIndex` | src/stores/links.js:90 | `findIndex` gives the first index whose id matches. It gives -1 iff no element matches. |
| `Links.ReplaceFirst` | src/stores/links.js:90-93 | The length is unchanged, and elements with another id are unchanged. Only the first match is replaced, and later elements are kept. With no match the list is unchanged. |
| `Links.Without` | src/stores/links.js:117 | The filter keeps exactly the elements whose id differs, and it never grows the list. |
| `Links.WithoutConcat` | src/stores/links.js:117 | Filtering distributes over concatenation, so the order of what is kept is preserved. |
| `Links.WithoutNoMatch` | src/stores/links.js:117 | A list with no element of that id is left as it is. |
| `Links.WithoutIdempotent` | src/stores/links.js:117 | Deleting twice equals deleting once, and `findIndex` finds no element with the deleted id afterwards. |
| `Links.CreateThenDelete` | src/stores/links.js:109-124 | Deleting the id of a link just prepended gives the same list as deleting that id from the list before the prepend. |
| `Links.StatsQuery` | src/stores/links.js:138-140 | The request parameters contain `from` (resp. `to`) exactly when that argument is truthy, with its value, and nothing else. |
| `Links.LinksStore.constructor` | src/stores/links.js:5-18 | The store starts with no links, no current link, no statistics, not loading, no error, and pagination `{1, 20, 0, 0}`. |
| `Links.LinksStore.FetchLinks` | src/stores/links.js:28-47 | On success, `links` is the response and `pagination.page`/`limit` are the arguments (1 and 20 by default), with `totalPages`/`totalLinks` kept. On failure, `links` and `pagination` are unchanged and `error` is the message or the fallback. The other fields are unchanged and `loading` ends false. |
| `Links.LinksStore.FetchLink` | src/stores/links.js:49-63 | On success, `currentLink` and the result are the response. On failure, `currentLink` and `links` are unchanged, `error` is the message or "Failed to fetch link details", and the result is null. |
| `Links.LinksStore.CreateLink` | src/stores/links.js:65-80 | On success, `links == [new] + old` (one longer) and the result is the new link. On failure, nothing but `error` changes and the result is null. |
| `Links.LinksStore.UpdateLink` | src/stores/links.js:82-107 | On success, `links == ReplaceFirst(old, id, response)`. `currentLink` is replaced iff it is non-null with that id. The result is the response. On failure, nothing but `error` changes and the result is null. |
| `Links.LinksStore.DeleteLink` | src/stores/links.js:109-131 | On success, `links == Without(old, id)`, `currentLink` becomes null iff it has that id, and the result is true. On failure, nothing but `error` changes and the result is false. |
| `Links.LinksStore.FetchLinkStats` | src/stores/links.js:133-151 | The request goes out with `StatsQuery(from, to)`. On success, `linkStats` and the result are the response. On failure, `linkStats` is unchanged, `error` is set and the result is null. |
| `Links.LinksStore.FetchUserStats` | src/stores/links.js:153-167 | On success, `userStats` and the result are the response. On failure, `userStats` is unchanged, `error` is set and the result is null. |
| `Theme.ThemeRoundTrip` | src/stores/theme.js:5-10 | Storing the name of a flag and reading `theme === 'dark'` back gives the flag. The name is always `"dark"` or `"light"`. |
| `Theme.ClearKeepsTheme` | src/api/axios.js:25-26 | Clearing the session (401 or logout) leaves the stored theme as it was. |
| `Theme.ThemeStore.constructor` | src/stores/theme.js:5 | `isDark` holds iff the stored `theme` equals `"dark"`. |
| `Theme.ThemeStore.Toggle` | src/stores/theme.js:8-12 | `isDark` is negated, so two toggles restore it. `theme` is stored as `"dark"` iff the new value is true (else `"light"`). Afterwards the flag and the stored theme agree. |
| `Theme.ThemeStore.Init` | src/stores/theme.js:22-31 | With no stored `theme`, `isDark := prefersDark` and the matching name is stored. With a stored theme, neither the flag nor storage changes. |
| `Flows.AnonymousDashboard` | src/main.js:49-52 | Without a token, `/dashboard` is redirected to login with `redirect=/dashboard`, and the navigation settles on `/login?redirect=/dashboard`. |
| `Flows.LoginPageAfterLogin` | src/main.js:53-54 | Once a login has stored a non-empty token, opening `/login` (with any stale redirect) goes to the dashboard. |
| `Flows.BearerAfterLogin` | src/api/axios.js:9-12 | After a login stores a non-empty token, requests carry exactly `Bearer <that token>`. |
| `Flows.AfterSessionEnds` | src/api/axios.js:24-28 | Once the session is cleared, no credential is attached. Every protected route redirects to login with its own path. The login location pushed by the 401 handler is allowed. |
| `Flows.ProfileRequestWithExpiredSession` | src/api/axios.js:24-29 | When a profile request gets a 401, storage is cleared, login is pushed with the current path, and the store records the failure. The store's in-memory token and user are kept, so `isAuthenticated` still holds while no token is stored. |

## Left out

- The HTTP layer itself (axios, the base URL taken from the environment, the
  endpoints). Request bodies and URL path parameters are not modelled either.
  Each call is an `Outcome` input to the action that makes it.
- The interleaving of concurrent actions and `await` suspension. Each action
  is atomic from entry to settle, so the intermediate `loading = true` state
  is set in the method body but no caller can observe it.
- Installing the response interceptor twice (each `setupAxiosInterceptors`
  call adds one). The model holds one router reference.
- JSON encoding and decoding internals. `JSON.stringify` of `undefined`, and
  non-integer numbers.
- The percent-encoding of the `redirect` query value in a full path, and the
  completion of a pushed navigation. `Routes.Router.Push` only records the location.
- `getUser` (`src/stores/auth.js:25`, a plain field read) and the links
  getters (`src/stores/links.js:20-25`).
- `BrowserStorage.HasToken` has no row. It is the guard's
  `!!localStorage.getItem('auth_token')` (src/main.js:49), and its properties
  are stated through `Routes.Guard`, `Auth.RestoredAgreesWithGuard` and
  `BrowserStorage.ClearSession`.
- `Http.IsUnauthorized` has no row. It is the 401 handler's test
  `error.response && error.response.status === 401` (src/api/axios.js:24),
  and it is used by `Transport.ApiClient.OnResponse`.
- `Theme.StoredDark` has no row. It is the theme initialiser's
  `localStorage.getItem('theme') === 'dark'` (src/stores/theme.js:5), and its
  properties are stated through `Theme.ThemeRoundTrip` and `Theme.ClearKeepsTheme`.
- `Auth.AuthStore.IsAuthenticated` has no row. It is the truthiness of the
  token, `Js.Truthy(token)`, and it is used by `InSync` and by
  `RestoredAgreesWithGuard`.
- The `beforeResolve` prefetch hook, `scrollBehavior`, and app and pinia setup.
  These are framework plumbing with fire-and-forget behaviour.
- `applyTheme` and `window.matchMedia`. They touch the DOM, so the OS
  preference is a boolean parameter of `Init`.
- `console.warn` and `console.error` logging.
- Ids are integers compared with `==` (the source's `===`), and an error's
  server message is a string. Values of other JavaScript types are not
  modelled.
