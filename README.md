# recipy-mobile session and client core, in Dafny

A model of the three pieces of the recipe-sharing mobile app that carry
behaviour of their own:

- **Session token store** (`AuthService`): a bearer token and its expiry
  instant under the storage keys `@auth_token` and `@auth_token_expiry`.
  `setToken` stamps an expiry 24 hours ahead. `getToken` treats a missing or
  empty value as absent. It treats a token whose expiry is strictly before
  now as expired and deletes both keys on the way. `removeToken` deletes
  both keys. `isAuthenticated` is `getToken() !== null`. Storage failures are
  caught and swallowed.
- **Image URL builder** (`buildImageUrl`, `buildImageUrls`): resolves an image
  reference against the gateway base URL by four prefix tests, in order:
  `http://`/`https://`, `/api/image/`, `/`, anything else.
- **Login response handling** (`UserService.loginUser`): sets the public
  fields `user` and `error` from the login response and returns whether
  login succeeded.

Files:

- `wrappers.dfy`: `Option` and JavaScript truthiness of an optional string.
- `numerals.dfy`: the decimal text written for an instant and read back.
- `image_utils.dfy`: the image URL builder, as functions and lemmas.
- `auth_service.dfy`: class `AuthService`. Its `storage: map<string, string>`
  stands for the device's key-value storage. Each operation is specified by a
  function of the old storage, and the properties are lemmas about those
  functions.
- `user_service.dfy`: class `UserService` with `user`, `error` and the
  gateway URL. `LoginUser` takes the response as a value.

Modelling choices:

- The clock is an integer instant `now`, in milliseconds, passed to each
  session operation. The 24-hour window is the constant `TOKEN_LIFETIME`.
- The source writes the expiry as ISO-8601 text and reads it back with
  `new Date(...)`. The model writes decimal text (`Numerals.FormatInt`) and
  reads it with `Numerals.ParseInt`. `ParseInt` yields `None` for text that
  is not an instant, which plays the part of an invalid date. Comparing an
  invalid date is false, so an unreadable expiry never expires
  (`Auth.UnreadableExpiryNeverExpires`).
- A storage failure is a `Fault` argument. `FailAt(k)` means the `k`-th
  storage call of the operation throws, counting from 0. `getToken`'s nested
  `removeToken` makes calls 2 and 3.
- The login request is abstracted into `LoginResponse`. It is either a
  non-ok status, a parsed body with optional `error` and `token` strings, or
  a thrown value with its message when it is an `Error`.

Behaviour worth noting:

- Expiry is strict: a token is still valid at its expiry instant
  (`new Date(expiry) < new Date()`).
- On success `loginUser` only assigns `user`. It never hands the token to
  `AuthService.setToken`, so logging in does not authenticate the session
  store (`Users.LoginLeavesSessionAlone`).
- A missing gateway URL does not fail construction. `UserService` falls back
  to `http://recipy-ag:3030`, and the image builder falls back to `""`.
- If the expiry write of `setToken` fails, the new token stays written beside
  whatever expiry was stored before.

## Model

| member | source | states |
|---|---|---|
| `Numerals.ParseFormatInt` | app/services/AuthService.ts:14-30 | the expiry text written for an instant reads back as that same instant |
| `ImageUtils.ImageApiUrl` | app/utils/imageUtils.ts:4 | the base URL is the configured one, and `""` when none is configured (an empty one gives the same) |
| `ImageUtils.BuildImageUrl` | app/utils/imageUtils.ts:3-24 | an absolute reference is returned unchanged; every other result has the base URL as a prefix |
| `ImageUtils.ImageApiPathJoined` | app/utils/imageUtils.ts:12-15 | `/api/image/` + rest becomes base + `/` + rest |
| `ImageUtils.ImageApiTestedBeforeRooted` | app/utils/imageUtils.ts:12-20 | a `/api/image/` path never takes the direct-concatenation branch; its result is 10 characters shorter than base + path |
| `ImageUtils.RootedPathAppended` | app/utils/imageUtils.ts:18-20 | any other path starting with `/` becomes base + path, with no extra separator |
| `ImageUtils.RelativePathJoined` | app/utils/imageUtils.ts:23 | a path with no recognised prefix becomes base + `/` + path |
| `ImageUtils.UnconfiguredRelativePath` | app/utils/imageUtils.ts:4-23 | with no configured base, a relative `x` becomes `/x` |
| `ImageUtils.BuiltUrlIsAbsolute` | app/utils/imageUtils.ts:7-23 | under a base with an `http(s)://` scheme every result has a scheme |
| `ImageUtils.BuildImageUrlIdempotent` | app/utils/imageUtils.ts:7-23 | under a base with an `http(s)://` scheme, building twice equals building once |
| `ImageUtils.UnconfiguredNotIdempotent` | app/utils/imageUtils.ts:12-15 | with the empty base, building is not idempotent: `/api/image/api/image/` + rest gives `/api/image/` + rest, and building that again gives `/` + rest |
| `ImageUtils.BuildImageUrls` | app/utils/imageUtils.ts:26-28 | the list has the input's length, and element `i` is the URL built from reference `i` |
| `ImageUtils.BuildImageUrlsAppend` | app/utils/imageUtils.ts:26-28 | the list builder keeps order: building a concatenation concatenates the built lists |
| `ImageUtils.BuildImageUrlsIdempotent` | app/utils/imageUtils.ts:26-28 | under a base with a scheme, the list builder is idempotent |
| `Auth.AuthService.SetToken` | app/services/AuthService.ts:7-18 | new storage: the token write, then the expiry write at now + 24h; a failed write stops the rest |
| `Auth.AuthService.GetToken` | app/services/AuthService.ts:20-40 | result and new storage are those of the read specification, including lazy removal and swallowed failures |
| `Auth.AuthService.RemoveToken` | app/services/AuthService.ts:42-49 | new storage: the token key removed, then the expiry key; a failure stops the rest |
| `Auth.AuthService.IsAuthenticated` | app/services/AuthService.ts:51-54 | true exactly when `getToken` returns a token; the storage changes as `getToken` changes it |
| `Auth.SetTokenWrites` | app/services/AuthService.ts:9-14 | `setToken` stores the token and the expiry now + 24h, and no other key changes |
| `Auth.HasExpiredIsStrict` | app/services/AuthService.ts:30 | a stored expiry `t` has expired at `now` exactly when `t < now` |
| `Auth.TokenValidUntilExpiry` | app/services/AuthService.ts:10-35 | after `setToken(t)` with non-empty `t`, `getToken` returns `t` at every instant up to and including the expiry, and changes nothing |
| `Auth.TokenRemovedAfterExpiry` | app/services/AuthService.ts:30-33 | after the expiry, `getToken` returns null and both keys are gone |
| `Auth.MissingOrEmptyReadsAbsent` | app/services/AuthService.ts:22-27 | a missing or empty token or expiry reads as null, with the storage unchanged |
| `Auth.GetTokenChangesOnlyWhenExpired` | app/services/AuthService.ts:20-40 | `getToken` changes the storage only in the expired branch, and only by `removeToken`; a returned token is the stored, unexpired one |
| `Auth.FaultsNeverFabricateToken` | app/services/AuthService.ts:36-39 | a storage failure only ever turns the result into null |
| `Auth.RemoveTokenDeletesBoth` | app/services/AuthService.ts:42-45 | `removeToken` deletes both keys and no other |
| `Auth.RemoveTokenIdempotent` | app/services/AuthService.ts:42-45 | `removeToken` twice equals `removeToken` once |
| `Auth.GetTokenAfterRemove` | app/services/AuthService.ts:20-49 | after `removeToken`, `getToken` returns null whatever the prior state, unless the removal's first call failed |
| `Auth.ExpiryWriteFailure` | app/services/AuthService.ts:13-17 | when the expiry write fails, the token is written and the old expiry kept; with no old expiry, `getToken` reads null |
| `Auth.UnreadableExpiryNeverExpires` | app/services/AuthService.ts:30-35 | an expiry text that is not a date never expires, so the token is returned at every instant |
| `Users.GatewayUrl` | app/services/UserService.ts:9 | the configured URL when it is a non-empty string, otherwise `http://recipy-ag:3030`; never empty |
| `Users.UserService.constructor` | app/services/UserService.ts:5-10 | the gateway URL as above; `user` and `error` start as null |
| `Users.StatusErrorCarriesStatus` | app/services/UserService.ts:20-24 | the message for a non-ok status is `Error ` followed by the status, which reads back unchanged |
| `Users.UserService.LoginUser` | app/services/UserService.ts:12-46 | precedence: non-ok status, then a truthy `error`, then a truthy `token`. Returns true only for a token with no error. `user` changes only then. `error` becomes `Error <status>`, the body's error, the thrown message or `Error desconocido`, and is otherwise kept, even after a success |
| `Users.LoginLeavesSessionAlone` | app/services/UserService.ts:34-38 | logging in persists nothing: a later `isAuthenticated` sees the session store as it was |

## Left out

- `app/services/RecipeService.ts` is not part of this model. It is a stateless `fetch` wrapper that throws on a non-ok status or an `error` field.
- The screens (`app/index.tsx`, `app/login.tsx`, `app/register.tsx` and the tab and recipe screens) are left out. They are presentation: React state, alerts, navigation and styles.
- `registerUser`, `logoutUser` and `UserService.isAuthenticated` are called by the screens but are not defined in `UserService`. They are not modelled.
- The HTTP request itself is left out because it is a foreign call. That covers the URL `${apiUrl}/user/login`, the headers, the JSON body and the parsing of the response. `LoginUser` takes the outcome of the request as its argument.
- `LoginUser` models only string values for the body's `error` and `token` fields. Another truthy JSON value (a number or an object) would be assigned as it is.
- `Date` details are abstracted to integer milliseconds with a fixed 24-hour offset. That covers ISO-8601 formatting and parsing, and local-time `setHours` across daylight-saving changes.
- Concurrency is left out: the operations are atomic in the model. In the source, `async` calls can interleave, so a `setToken` can race a `getToken`.
- `console` logging is left out because it has no effect on state.
- Reading the gateway URL from the app configuration is a foreign call. The configured value is a parameter (`Option<string>`).
