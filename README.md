# Storefront client state, modelled in Dafny

This project models the client-side core of a React storefront whose business logic lives in
a REST backend. The storefront has three small, sequential state holders, and the model covers
all three:

- **The API client** (`src/utils/api.js`). Two stored credentials: the access token under the
  key `token` and the refresh token under `refreshToken`. A request interceptor attaches
  `Authorization: Bearer <token>` when an access token is stored. `refreshToken()` exchanges the
  refresh token for a new access token. A response interceptor recovers from a 401 once per
  request: it marks the request `_retry`, refreshes, and replays it. If the refresh fails, it
  clears both tokens and sends the browser to `/login`. The module also covers `logout()` and
  the 409 mapping of `register`.
- **The cart mirror** (`src/context/CartContext.js`). A snapshot of the server's cart: its
  entries, total, item count and error. Mutations pass local guards in a fixed order: signed in,
  the per-item cap of 2, then a server availability check. Each accepted mutation is followed by
  a full refetch of the cart and its total.
- **The session mirror** (`src/context/AuthContext.js`). The state `isAuthenticated`/`user`/
  `loading`, driven by `checkAuthStatus`, `login`, `register` and `logout`, each of which reads
  or writes the stored credentials.

Every backend call is an oracle parameter: a `Result<T>` that is either `Ok(value)` or
`Err(error)`. The retry interceptor instead takes the backend as functions: `server` answers a
request as sent and `refresher` answers the refresh call. Each stateful piece is a class whose
methods change its fields (`CartMirror`, `Session`, `TokenStore`, `RequestConfig`). Each
method's `ensures` equates the new state, and the ghost trace of backend calls it made, with a
pure `…Outcome` function (`Dispatch` for the interceptor). The source's promises are proved as
`ensures` of those functions and as lemmas about them.

JavaScript truthiness is modelled where the code relies on it:
- a stored credential counts only when it is present and non-empty (`Api.Present`);
- a missing `quantity` counts as 0 in the item count, and it does not trigger the add-cap
  (`undefined + n > 2` is false);
- a missing `availableQuantity` does not fail the availability check.

Five behaviours of the code differ from what one would expect of the storefront, and the
model follows the code in each:
- The intended behaviour would be that a failed status check clears both tokens. The code's
  own failure path removes only the access token, so the refresh token stays
  (`CheckOutcome`). The exception is a 401 whose refresh fails: there the retry interceptor
  has already cleared both tokens before the status check sees the failure (see the first
  line under "Left out").
- The intended behaviour would be that a failed mutating cart call resets the mirror. The
  code keeps the previous snapshot and only sets the error; only a failed refetch empties the
  cart (`AddOutcome`, `FetchOutcome`).
- The intended behaviour would be that a failed login keeps no partial state. A login whose
  profile request fails keeps the credentials it just stored
  (`LoginKeepsTokensWhenProfileFails`). The same 401-with-failed-refresh exception applies.
- The intended behaviour would be that a refresh failure clears both tokens. A 401 when no
  refresh token is stored sends the browser to `/login` but keeps the stale access token
  (`UnauthorizedWithoutRefreshTokenKeepsAccessToken`).
- The intended behaviour would be that signed in always comes with a user. A profile answer
  whose body is JSON `null` is stored as the user all the same, so the session is signed in
  with no user (`CheckOutcome`, `LoginOutcome`). The session invariant `Coherent` therefore
  states only that a stored user means signed in, and that signed in means an access token
  is stored.

## Model

| member | source | states |
|---|---|---|
| `Api.WithCredential` | src/utils/api.js:23-32 | The header is set to `Bearer <token>` exactly when an access token is stored. With no stored token the headers are left as they were. Other headers are never changed. |
| `Api.RequestInterceptor` | src/utils/api.js:23-32 | Rewrites the shared request descriptor's headers in place, as `WithCredential` says. |
| `Api.IsAuthenticated` | src/utils/api.js:71 | Signed in means an access token is stored. A stored empty string does not count, and any stored non-empty token does. |
| `Api.RefreshOutcome` | src/utils/api.js:34-50 | With no stored refresh token: fails with "No refresh token found", makes no call and leaves storage unchanged. Otherwise: makes exactly one call with the stored refresh token. On success it stores the returned token, returns it and keeps the refresh token. On failure it removes both tokens and rethrows. |
| `Api.RefreshToken` | src/utils/api.js:34-50 | Imperative `refreshToken()` against the token store. Its new storage, result and calls are those of `RefreshOutcome`. |
| `Api.Dispatch` | src/utils/api.js:52-69 | The first call is always the request with the credential attached. Anything but a 401 on an unretried request passes through unchanged: one send, storage untouched, no redirect. A recoverable 401 marks the request retried and tries one refresh. A successful refresh gives exactly one replay: the original request itself, with every header kept, marked retried and carrying `Bearer <new token>`. The replay's answer is the result. A failed refresh redirects to `/login` and rejects with the refresh error, leaving the request as sent, marked retried. |
| `Api.Request` | src/utils/api.js:52-69 | Imperative `api(config)`: mutates the descriptor's headers and `_retry`, writes storage, and replays by recursion. Its result, final descriptor, storage, calls and redirect equal those of `Dispatch`. |
| `Api.AtMostOneRefresh` | src/utils/api.js:52-69 | One call through the client makes at most one refresh and at most two sends. A request already marked retried is sent once and nothing more, so there is no retry loop. |
| `Api.UnauthorizedWithoutRefreshTokenKeepsAccessToken` | src/utils/api.js:52-69 | A 401 with no refresh token stored: redirected and rejected with "No refresh token found", no refresh call, and both tokens left as they were. |
| `Api.Register` | src/utils/api.js:83-94 | A 409 answer becomes the error "Email already exists". Every other outcome, success or failure, passes through unchanged. |
| `Api.TokenStore.SetToken` | src/utils/api.js:9 | Stores the access token and leaves the refresh token unchanged. |
| `Api.TokenStore.SetRefreshToken` | src/context/AuthContext.js:47-49 | Stores the refresh token and leaves the access token unchanged. |
| `Api.TokenStore.RemoveToken` | src/utils/api.js:10 | Removes the access token only. |
| `Api.TokenStore.RemoveRefreshToken` | src/utils/api.js:13 | Removes the refresh token only. |
| `Api.TokenStore.Logout` | src/utils/api.js:231-234 | Both tokens are absent afterwards, so `isAuthenticated()` is false. |
| `CartContext.ItemCountAppend` | src/context/CartContext.js:19-21 | The item count (quantities summed, a missing quantity as 0) of a concatenation is the sum of the two parts' counts. |
| `CartContext.ItemCount` | src/context/CartContext.js:19-21 | Lines without a quantity add nothing, so a cart whose lines all lack one counts 0. With no negative quantity the count is not negative. |
| `CartContext.ExceedsCap` | src/context/CartContext.js:69-70 | An item not in the cart is never capped, whatever the quantity. A capped item has a line with a quantity that the request would push over 2. |
| `CartContext.Available` | src/context/CartContext.js:79 | A missing report or an item out of stock fails. A stated quantity below the request fails. An in-stock report with no stated quantity, or with enough, passes. |
| `CartContext.ErrorText` | src/context/CartContext.js:92 | The result is the server's non-empty message when there is one, else the fallback. An error with no response always gives the fallback. |
| `CartContext.FindEntry` | src/context/CartContext.js:69 | Returns nothing exactly when no line has the item. Otherwise it returns the first line with that item. |
| `CartContext.FetchOutcome` | src/context/CartContext.js:23-59 | Signed out: the cart is emptied with no call and the error is kept. Signed in, both answers arrived: items come from `items` if it is an array, else from the body if that is an array, else none. The total is used if it is a number, else 0. The error is cleared. Either call failed: the cart is emptied with the fetch error. The count always equals the sum of quantities. |
| `CartContext.AddOutcome` | src/context/CartContext.js:61-94 | The guards run in order: signed in, then the cap, then availability. The first two make no call. The cap applies only to a line already in the cart (existing + requested > 2). An item not in the cart always reaches the availability check. The add call is made exactly when all guards pass. A successful add is followed by a refetch, and the state becomes the refetched snapshot. A thrown call keeps the snapshot and shows the server's message or the fallback. |
| `CartContext.UpdateOutcome` | src/context/CartContext.js:96-119 | Signed in is checked first. The cap rejects a new quantity over 2 before any call. The availability check compares against the new quantity. The update call is made exactly when all guards pass, and it is followed by a refetch. Any thrown call keeps the snapshot with the fixed update error and makes no further call: no refetch after a failed availability check or a failed update. |
| `CartContext.UpdateCapIgnoresCart` | src/context/CartContext.js:102-105 | The calls `updateQuantity` makes do not depend on the cart's contents. The update-cap looks at the new quantity alone. |
| `CartContext.RemoveOutcome` | src/context/CartContext.js:121-133 | Signed out: error, no call. Signed in: the delete is the first call, with no cap and no availability check. On success a refetch follows. On failure the snapshot is kept and the error is set. |
| `CartContext.ClearOutcome` | src/context/CartContext.js:135-147 | Signed out: error, no call. Signed in: the cart delete is the first call. On success a refetch follows. On failure the snapshot is kept and the error is set. |
| `CartContext.CartMirror.constructor` | src/context/CartContext.js:12-17 | Starts with an empty cart, total 0, count 0, no error and not loading. |
| `CartContext.CartMirror.FetchCartData` | src/context/CartContext.js:23-59 | Imperative `fetchCartData`. Its new state and calls are those of `FetchOutcome`. It keeps the invariant count = sum of quantities, and it is not loading afterwards. |
| `CartContext.CartMirror.AddItemToCart` | src/context/CartContext.js:61-94 | Imperative `addItemToCart`, equal to `AddOutcome`. It refetches through `FetchCartData` and keeps the invariant. |
| `CartContext.CartMirror.UpdateQuantity` | src/context/CartContext.js:96-119 | Imperative `updateQuantity`, equal to `UpdateOutcome`. It keeps the invariant. |
| `CartContext.CartMirror.RemoveFromCart` | src/context/CartContext.js:121-133 | Imperative `removeFromCart`, equal to `RemoveOutcome`. It keeps the invariant. |
| `CartContext.CartMirror.ClearCart` | src/context/CartContext.js:135-147 | Imperative `clearCart`, equal to `ClearOutcome`. It keeps the invariant. |
| `AuthContext.CheckOutcome` | src/context/AuthContext.js:15-36 | Every path ends with `loading` false and never rejects. No access token: signed out with no profile request. Signed in exactly when a token is stored and the profile request answers. Profile received: signed in with that profile, even a `null` one, storage untouched. Profile failed: signed out, and the session code removes only the access token (a 401 whose refresh fails has already had both cleared by the interceptor, see "Left out"). A stored user implies signed in, and signed in implies an access token is stored. |
| `AuthContext.LoginOutcome` | src/context/AuthContext.js:42-62 | Resolves exactly when a token came back and the profile followed, and then the user is that profile (possibly `null`). A returned token is stored, and the refresh token only if one came too, before the profile request. With no token the login rejects with "No token received from server" and storage is untouched. Any failure ends signed out with no user and rejects with that error. `loading` is unchanged. |
| `AuthContext.LoginKeepsTokensWhenProfileFails` | src/context/AuthContext.js:42-62 | When the profile request after a stored token fails, the session is signed out and rejected, but the session code leaves the new access token stored (unless that failure was a 401 whose refresh failed, see "Left out"). |
| `AuthContext.RegisterOutcome` | src/context/AuthContext.js:64-72 | Login runs, with the same email and password, exactly when registration succeeded, and its outcome is the result. A failed registration changes nothing and makes no call after the registration request. It rejects with the registration's own error, except that a 409 rejects with "Email already exists". |
| `AuthContext.Session.constructor` | src/context/AuthContext.js:10-12 | Starts signed out, with no user and `loading` true. |
| `AuthContext.Session.CheckAuthStatus` | src/context/AuthContext.js:15-36 | Imperative `checkAuthStatus` over the shared token store. Its new state, storage and calls are those of `CheckOutcome`. |
| `AuthContext.Session.Login` | src/context/AuthContext.js:42-62 | Imperative `login`. Its new state, storage, result and calls are those of `LoginOutcome`. |
| `AuthContext.Session.Register` | src/context/AuthContext.js:64-72 | Imperative `register`, calling `Login` only after a successful registration. It equals `RegisterOutcome`. |
| `AuthContext.Session.HandleLogout` | src/context/AuthContext.js:74-80 | Whatever the prior state: both tokens are absent, the user is null, the session is signed out and `loading` is unchanged. |

## Left out

- `AuthContext.Coherent` does not promise a user whenever the session is signed in, because the
  code signs in with a `null` profile body (see the list above).
- Storage changes made by the retry interceptor during cart and session calls are not
  composed into those models. Their oracle results are the outcome after the interceptor, and
  a refresh that clears storage mid-call is covered only by `Api.Dispatch`. So when a profile
  request fails with a 401 whose refresh also fails, both tokens are already gone, although
  `CheckOutcome` and `LoginOutcome` show the storage the session code itself leaves.
- HTTP transport (axios, the base URL, JSON bodies, `withCredentials`): each endpoint is an
  oracle result, not a protocol.
- `Promise.all` in `fetchCartData`: the two reads are two oracle results, and the fetch fails
  if either fails. Which rejection arrives first does not matter, because the message is fixed.
- Intermediate render states: each operation is modelled as one atomic step. This hides
  `isLoading` being true during a fetch, and `isAuthenticated` being true while `login` awaits
  the profile. Concurrent `login` during a status check is not modelled.
- The effect hook that refetches or empties the cart when the sign-in state changes: its two
  branches are exactly `FetchCartData`'s.
- The `console` logging, and `window.location` beyond a "redirected" flag.
- Floating-point prices: the cart total is an integer number of cents, taken as the server
  sent it.
- The default `quantity = 1` of `addItemToCart`: the model always takes the quantity.
- `getToken`/`getRefreshToken`: they are reads of the `TokenStore` fields.
- `login` in the API client: it only forwards and rethrows, so it is the login oracle.
- Thin endpoint wrappers (items, orders, favorites, profile updates and the like): each only
  forwards a request and returns its body.
- JavaScript coercions beyond those listed above: non-numeric quantities, `NaN`, and ids of
  mixed types. Item ids are integers.
- The presentational components and pages. This includes the rule in `Cart.js` that routes a
  quantity of 0 or less to removal: it is a caller-side rule outside the modelled core.
